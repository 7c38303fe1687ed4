/** One epoch of train() in serifs/gen/train.py: the pass over the training
    batches, evaluate() on the validation set, get_scores() on scoring epochs,
    and the metrics row these give.

    The network, the loss criterion and the optimiser are outside the model.
    What the model yields in an epoch is given as `EpochData`: the
    reconstruction loss and KLD term of every training batch, the loss of
    every validation batch, and the scoring set's molecules. The annealer is a
    function of its step count and the value it weights. */
module Epoch {
  import opened Faults
  import opened Means
  import opened Scoring
  import opened Fingerprint

  /** The RUN section of the configuration, as far as the loop uses it. */
  datatype Config = Config(
    epochs: int,
    startEpoch: int,
    kldWeight: real,
    kldAnnealing: bool,
    kldBackward: bool)

  /** What the model returns for one training batch: the loss the criterion
      gives its output, and its KLD term. */
  datatype TrainBatch = TrainBatch(loss: real, kld: real)

  /** What the model yields in one epoch, loader by loader. */
  datatype EpochData = EpochData(
    train: seq<TrainBatch>,
    val: seq<real>,
    scoring: seq<seq<Sample>>)

  /** The outcome of the batch loop: the mean batch loss, the last batch's
      KLD term and weighted KLD term, and the objective back-propagated for
      each batch. */
  datatype TrainStats = TrainStats(
    avgLoss: real,
    kldLoss: real,
    kldWeighted: real,
    objectives: seq<real>)

  /** One row of the metrics table; the scores are None off scoring epochs. */
  datatype MetricsRow = MetricsRow(
    epoch: int,
    kldLoss: real,
    kldWeighted: real,
    trainLoss: real,
    valLoss: real,
    meanQed: Option<real>,
    meanFpRecon: Option<real>)

  /** The annealer's weighting of a value after a given number of steps. */
  type Annealer = (nat, real) -> real

  /** Scores are computed, and a checkpoint saved, on every tenth epoch.
      Python's `%` and Dafny's agree for a positive divisor. */
  predicate IsScoringEpoch(epoch: int)
  {
    epoch % 10 == 0
  }

  /** The weighted KLD term of a batch: scaled by kld_weight, then passed
      through the annealer when annealing is on. */
  function WeightedKld(cfg: Config, anneal: Annealer, step: nat, kld: real): real
  {
    var w := kld * cfg.kldWeight;
    if cfg.kldAnnealing then anneal(step, w) else w
  }

  /** The quantity back-propagated for a batch. */
  function Objective(cfg: Config, anneal: Annealer, step: nat, b: TrainBatch): real
  {
    if cfg.kldBackward then b.loss + WeightedKld(cfg, anneal, step, b.kld) else b.loss
  }

  function Losses(batches: seq<TrainBatch>): (r: seq<real>)
    ensures |r| == |batches| && forall i :: 0 <= i < |batches| ==> r[i] == batches[i].loss
  {
    seq(|batches|, i requires 0 <= i < |batches| => batches[i].loss)
  }

  /** The metrics row of an epoch, or the fault that ends the run in it:
      an empty training loader, an empty validation loader, or, on a scoring
      epoch, a fault of get_scores. The annealer has taken `step` steps. */
  function EpochRow(cfg: Config, anneal: Annealer, step: nat, epoch: int, d: EpochData): Result<MetricsRow>
  {
    if |d.train| == 0 then Err(EmptyTrainLoader)
    else if |d.val| == 0 then Err(EmptyValLoader)
    else if IsScoringEpoch(epoch) && ScoresOf(d.scoring).Err? then Err(ScoresOf(d.scoring).fault)
    else
      var kld := d.train[|d.train| - 1].kld;
      var s := ScoresOf(d.scoring);
      Ok(MetricsRow(
        epoch, kld, WeightedKld(cfg, anneal, step, kld),
        MeanOf(Losses(d.train)), MeanOf(d.val),
        if IsScoringEpoch(epoch) then Some(s.value.meanQed) else None,
        if IsScoringEpoch(epoch) then Some(s.value.meanFpRecon) else None))
  }

  /** The batch loop of train() (lines 59-77): every batch's KLD term is
      weighted with the annealer at its current step, every batch's loss is
      added up, and the sum is divided by the number of batches. */
  method TrainPass(cfg: Config, anneal: Annealer, step: nat, batches: seq<TrainBatch>)
    returns (r: Result<TrainStats>)
    ensures |batches| == 0 ==> r == Err(EmptyTrainLoader)
    ensures |batches| > 0 ==> r.Ok?
    ensures r.Ok? ==>
      var last := batches[|batches| - 1];
      r.value.avgLoss == MeanOf(Losses(batches)) &&
      r.value.kldLoss == last.kld &&
      r.value.kldWeighted == WeightedKld(cfg, anneal, step, last.kld)
    ensures r.Ok? ==>
      |r.value.objectives| == |batches| &&
      forall i :: 0 <= i < |batches| ==>
        r.value.objectives[i] == Objective(cfg, anneal, step, batches[i])
  {
    var epochLoss := 0.0;
    var kldLoss := 0.0;
    var kldWeighted := 0.0;
    var objectives: seq<real> := [];
    for i := 0 to |batches|
      invariant epochLoss == Sum(Losses(batches)[..i])
      invariant i > 0 ==> kldLoss == batches[i - 1].kld
      invariant i > 0 ==> kldWeighted == WeightedKld(cfg, anneal, step, batches[i - 1].kld)
      invariant |objectives| == i
      invariant forall k :: 0 <= k < i ==> objectives[k] == Objective(cfg, anneal, step, batches[k])
    {
      var b := batches[i];
      kldLoss := b.kld;
      kldWeighted := WeightedKld(cfg, anneal, step, kldLoss);
      var objective := if cfg.kldBackward then b.loss + kldWeighted else b.loss;
      objectives := objectives + [objective];
      SumStep(Losses(batches), i);
      epochLoss := epochLoss + b.loss;
    }
    if |batches| == 0 {
      return Err(EmptyTrainLoader);
    }
    assert Losses(batches)[..|batches|] == Losses(batches);
    r := Ok(TrainStats(epochLoss / |batches| as real, kldLoss, kldWeighted, objectives));
  }

  /** evaluate(): the mean loss over the validation batches. */
  method Evaluate(val: seq<real>) returns (r: Result<real>)
    ensures |val| == 0 ==> r == Err(EmptyValLoader)
    ensures |val| > 0 ==> r == Ok(MeanOf(val))
  {
    var epochLoss := 0.0;
    for i := 0 to |val|
      invariant epochLoss == Sum(val[..i])
    {
      SumStep(val, i);
      epochLoss := epochLoss + val[i];
    }
    if |val| == 0 {
      return Err(EmptyValLoader);
    }
    assert val[..|val|] == val;
    r := Ok(epochLoss / |val| as real);
  }

  /** Lines 56-97 of train(): the training pass, evaluation, scoring on
      scoring epochs, and the row they make. */
  method ComputeRow(cfg: Config, anneal: Annealer, step: nat, epoch: int, d: EpochData)
    returns (r: Result<MetricsRow>)
    ensures r == EpochRow(cfg, anneal, step, epoch, d)
  {
    var stats := TrainPass(cfg, anneal, step, d.train);
    if stats.Err? {
      return Err(stats.fault);
    }
    var valLoss := Evaluate(d.val);
    if valLoss.Err? {
      return Err(valLoss.fault);
    }
    var meanQed: Option<real> := None;
    var meanFpRecon: Option<real> := None;
    if epoch % 10 == 0 {
      var scores := GetScores(d.scoring);
      if scores.Err? {
        return Err(scores.fault);
      }
      meanQed, meanFpRecon := Some(scores.value.meanQed), Some(scores.value.meanFpRecon);
    }
    var s := stats.value;
    r := Ok(MetricsRow(epoch, s.kldLoss, s.kldWeighted, s.avgLoss, valLoss.value, meanQed, meanFpRecon));
  }

  /** An epoch fails exactly when a loader it divides by is empty or, on a
      scoring epoch, get_scores fails; the fault is the first one met. */
  lemma EpochRowFault(cfg: Config, anneal: Annealer, step: nat, epoch: int, d: EpochData)
    ensures EpochRow(cfg, anneal, step, epoch, d).Err? <==>
      |d.train| == 0 || |d.val| == 0 || (IsScoringEpoch(epoch) && ScoresOf(d.scoring).Err?)
    ensures |d.train| == 0 ==> EpochRow(cfg, anneal, step, epoch, d) == Err(EmptyTrainLoader)
    ensures |d.train| > 0 && |d.val| == 0 ==> EpochRow(cfg, anneal, step, epoch, d) == Err(EmptyValLoader)
  {
  }

  /** The row belongs to its epoch, and the scores are in it exactly on
      scoring epochs, and then they are the ones get_scores returns. */
  lemma EpochRowScoring(cfg: Config, anneal: Annealer, step: nat, epoch: int, d: EpochData)
    requires EpochRow(cfg, anneal, step, epoch, d).Ok?
    ensures var row := EpochRow(cfg, anneal, step, epoch, d).value;
      row.epoch == epoch &&
      (row.meanQed.Some? <==> IsScoringEpoch(epoch)) &&
      (row.meanFpRecon.Some? <==> IsScoringEpoch(epoch)) &&
      (IsScoringEpoch(epoch) ==> ScoresOf(d.scoring) == Ok(Scores(row.meanQed.value, row.meanFpRecon.value)))
  {
  }

  /** Off scoring epochs the scoring set is not looked at. */
  lemma ScoringSetUnusedOffSchedule(cfg: Config, anneal: Annealer, step: nat, epoch: int, d: EpochData, other: seq<seq<Sample>>)
    requires !IsScoringEpoch(epoch)
    ensures EpochRow(cfg, anneal, step, epoch, d.(scoring := other)) == EpochRow(cfg, anneal, step, epoch, d)
  {
  }

  /** The row holds the KLD terms of the last training batch, weighted with
      the annealer at the step it had reached when the epoch began; the
      weighted one is kld_weight times the raw one unless annealing is on. */
  lemma EpochRowKld(cfg: Config, anneal: Annealer, step: nat, epoch: int, d: EpochData)
    requires EpochRow(cfg, anneal, step, epoch, d).Ok?
    ensures var row, kld := EpochRow(cfg, anneal, step, epoch, d).value, d.train[|d.train| - 1].kld;
      row.kldLoss == kld &&
      (!cfg.kldAnnealing ==> row.kldWeighted == kld * cfg.kldWeight) &&
      row.kldWeighted == WeightedKld(cfg, anneal, step, kld)
  {
  }

  /** With annealing off, neither the annealer nor its step count affects an epoch. */
  lemma AnnealerUnusedWhenOff(cfg: Config, a1: Annealer, a2: Annealer, s1: nat, s2: nat, epoch: int, d: EpochData)
    requires !cfg.kldAnnealing
    ensures EpochRow(cfg, a1, s1, epoch, d) == EpochRow(cfg, a2, s2, epoch, d)
  {
  }

  /** The KLD term enters the back-propagated objective only when
      kld_backward is set; it never enters the recorded training loss. */
  lemma ObjectiveWithoutKld(cfg: Config, anneal: Annealer, step: nat, b: TrainBatch)
    ensures !cfg.kldBackward ==> Objective(cfg, anneal, step, b) == b.loss
    ensures cfg.kldBackward ==> Objective(cfg, anneal, step, b) - b.loss == WeightedKld(cfg, anneal, step, b.kld)
  {
  }

  /** The training and validation losses of a row lie within the range of
      the batch losses they average. */
  lemma EpochRowLossBounds(cfg: Config, anneal: Annealer, step: nat, epoch: int, d: EpochData, lo: real, hi: real)
    requires EpochRow(cfg, anneal, step, epoch, d).Ok?
    requires forall i :: 0 <= i < |d.train| ==> lo <= d.train[i].loss <= hi
    requires forall i :: 0 <= i < |d.val| ==> lo <= d.val[i] <= hi
    ensures lo <= EpochRow(cfg, anneal, step, epoch, d).value.trainLoss <= hi
    ensures lo <= EpochRow(cfg, anneal, step, epoch, d).value.valLoss <= hi
  {
    MeanBounds(Losses(d.train), lo, hi);
    MeanBounds(d.val, lo, hi);
  }

  /** On a scoring epoch whose QED values lie in [0, 1] and whose
      fingerprints are binary, both recorded scores lie in [0, 1]. */
  lemma EpochRowScoresInUnitInterval(cfg: Config, anneal: Annealer, step: nat, epoch: int, d: EpochData)
    requires EpochRow(cfg, anneal, step, epoch, d).Ok? && IsScoringEpoch(epoch)
    requires forall i, j :: 0 <= i < |d.scoring| && 0 <= j < |d.scoring[i]| ==>
      0.0 <= d.scoring[i][j].qed <= 1.0 && Binary(d.scoring[i][j].fp)
    ensures var row := EpochRow(cfg, anneal, step, epoch, d).value;
      0.0 <= row.meanQed.value <= 1.0 && 0.0 <= row.meanFpRecon.value <= 1.0
  {
    ScoresInUnitInterval(d.scoring);
  }
}
