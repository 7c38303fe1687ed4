/** Scoring of generated molecules in serifs/gen/train.py (get_scores): on a
    scoring epoch every batch of the scoring set is decoded, each molecule
    gets a QED value and a fingerprint reconstruction score, and both are
    averaged first over the molecules of a batch and then over the batches.

    Decoding and the chemistry are outside the model: a molecule arrives as
    a `Sample` holding the input fingerprint, the QED value of the decoded
    molecule and its key-pattern hits. */
module Scoring {
  import opened Faults
  import opened Means
  import opened Fingerprint

  datatype Sample = Sample(fp: seq<int>, qed: real, hits: seq<bool>)

  datatype Scores = Scores(meanQed: real, meanFpRecon: real)

  function Qeds(batch: seq<Sample>): (r: seq<real>)
    ensures |r| == |batch| && forall i :: 0 <= i < |batch| ==> r[i] == batch[i].qed
  {
    seq(|batch|, i requires 0 <= i < |batch| => batch[i].qed)
  }

  function FpResults(batch: seq<Sample>): (r: seq<Result<real>>)
    ensures |r| == |batch|
    ensures forall i :: 0 <= i < |batch| ==> r[i] == FingerprintScore(batch[i].fp, batch[i].hits)
  {
    seq(|batch|, i requires 0 <= i < |batch| => FingerprintScore(batch[i].fp, batch[i].hits))
  }

  /** The means of one batch, or the fault that stops it: an empty batch
      fails the QED division before any fingerprint is scored. */
  function BatchScore(batch: seq<Sample>): Result<Scores>
  {
    if |batch| == 0 then Err(EmptyScoringBatch)
    else
      match Collect(FpResults(batch))
      case Err(f) => Err(f)
      case Ok(fps) => Ok(Scores(MeanOf(Qeds(batch)), MeanOf(fps)))
  }

  function BatchScores(batches: seq<seq<Sample>>): (r: seq<Result<Scores>>)
    ensures |r| == |batches| && forall i :: 0 <= i < |batches| ==> r[i] == BatchScore(batches[i])
  {
    seq(|batches|, i requires 0 <= i < |batches| => BatchScore(batches[i]))
  }

  function QedMeans(ms: seq<Scores>): (r: seq<real>)
    ensures |r| == |ms| && forall i :: 0 <= i < |ms| ==> r[i] == ms[i].meanQed
  {
    seq(|ms|, i requires 0 <= i < |ms| => ms[i].meanQed)
  }

  function FpMeans(ms: seq<Scores>): (r: seq<real>)
    ensures |r| == |ms| && forall i :: 0 <= i < |ms| ==> r[i] == ms[i].meanFpRecon
  {
    seq(|ms|, i requires 0 <= i < |ms| => ms[i].meanFpRecon)
  }

  /** What get_scores returns for a scoring set, or the first fault it meets. */
  function ScoresOf(batches: seq<seq<Sample>>): Result<Scores>
  {
    match Collect(BatchScores(batches))
    case Err(f) => Err(f)
    case Ok(ms) =>
      if |ms| == 0 then Err(EmptyScoringLoader)
      else Ok(Scores(MeanOf(QedMeans(ms)), MeanOf(FpMeans(ms))))
  }

  /** The QED loop of get_scores (lines 171-173): the sum of a batch's QED values. */
  method QedSum(batch: seq<Sample>) returns (total: real)
    ensures total == Sum(Qeds(batch))
  {
    total := 0.0;
    for i := 0 to |batch|
      invariant total == Sum(Qeds(batch)[..i])
    {
      SumStep(Qeds(batch), i);
      total := total + batch[i].qed;
    }
    assert Qeds(batch)[..|batch|] == Qeds(batch);
  }

  /** The sum of a batch's fingerprint scores, added in order, or the
      first fault of fp_score. */
  function FpTotal(batch: seq<Sample>): Result<real>
  {
    if |batch| == 0 then Ok(0.0)
    else
      match FpTotal(batch[..|batch| - 1])
      case Err(f) => Err(f)
      case Ok(t) =>
        match FingerprintScore(batch[|batch| - 1].fp, batch[|batch| - 1].hits)
        case Err(f) => Err(f)
        case Ok(x) => Ok(t + x)
  }

  lemma {:induction false} FpTotalKeepsFault(batch: seq<Sample>, i: nat)
    requires i <= |batch| && FpTotal(batch[..i]).Err?
    ensures FpTotal(batch) == FpTotal(batch[..i])
  {
    if i < |batch| {
      var init := batch[..|batch| - 1];
      assert init[..i] == batch[..i];
      FpTotalKeepsFault(init, i);
    } else {
      assert batch[..i] == batch;
    }
  }

  /** The running sum is the sum of the collected scores. */
  lemma {:induction false} FpTotalIsSum(batch: seq<Sample>)
    ensures Collect(FpResults(batch)).Err? ==> FpTotal(batch) == Err(Collect(FpResults(batch)).fault)
    ensures Collect(FpResults(batch)).Ok? ==> FpTotal(batch) == Ok(Sum(Collect(FpResults(batch)).value))
  {
    if |batch| > 0 {
      var n := |batch|;
      var init := batch[..n - 1];
      var rs, ri := FpResults(batch), FpResults(init);
      FpTotalIsSum(init);
      assert ri == rs[..n - 1];
      var x := FingerprintScore(batch[n - 1].fp, batch[n - 1].hits);
      assert rs[n - 1] == x;
      match Collect(ri)
      case Err(f) =>
        assert Collect(rs) == Err(f);
      case Ok(xs) =>
        if x.Ok? {
          assert Collect(rs) == Ok(xs + [x.value]);
          SumAppend(xs, x.value);
        }
    }
  }

  /** The fingerprint loop of get_scores (lines 178-181): the sum of a
      batch's fingerprint reconstruction scores, or the first fault of fp_score. */
  method FpSum(batch: seq<Sample>) returns (r: Result<real>)
    ensures r == FpTotal(batch)
  {
    var total := 0.0;
    for i := 0 to |batch|
      invariant FpTotal(batch[..i]) == Ok(total)
    {
      var s := FpScore(batch[i].fp, batch[i].hits);
      assert batch[..i + 1][..i] == batch[..i];
      if s.Err? {
        FpTotalKeepsFault(batch, i + 1);
        return Err(s.fault);
      }
      total := total + s.value;
    }
    assert batch[..|batch|] == batch;
    r := Ok(total);
  }

  /** Lines 170-183 of get_scores for one batch: the QED sum and the
      fingerprint-score sum, each divided by the number of molecules. */
  method ScoreBatch(batch: seq<Sample>) returns (r: Result<Scores>)
    ensures r == BatchScore(batch)
  {
    var batchQed := QedSum(batch);
    if |batch| == 0 {
      return Err(EmptyScoringBatch);
    }
    batchQed := batchQed / |batch| as real;
    var batchFp := FpSum(batch);
    FpTotalIsSum(batch);
    if batchFp.Err? {
      return Err(batchFp.fault);
    }
    ghost var fps := Collect(FpResults(batch)).value;
    assert |fps| == |batch|;
    r := Ok(Scores(batchQed, batchFp.value / |batch| as real));
  }

  /** The batch loop of get_scores (lines 159-183): the sums over the batches
      of the per-batch means, or the first fault. */
  method SumBatchMeans(batches: seq<seq<Sample>>) returns (r: Result<Scores>)
    ensures Collect(BatchScores(batches)).Err? ==> r == Err(Collect(BatchScores(batches)).fault)
    ensures Collect(BatchScores(batches)).Ok? ==>
      var ms := Collect(BatchScores(batches)).value;
      r == Ok(Scores(Sum(QedMeans(ms)), Sum(FpMeans(ms))))
  {
    var meanQed, meanFpRecon := 0.0, 0.0;
    ghost var ms: seq<Scores> := [];
    ghost var rs := BatchScores(batches);
    for b := 0 to |batches|
      invariant Collect(rs[..b]) == Ok(ms)
      invariant meanQed == Sum(QedMeans(ms)) && meanFpRecon == Sum(FpMeans(ms))
    {
      var s := ScoreBatch(batches[b]);
      CollectStep(rs, b, ms, s);
      if s.Err? {
        return Err(s.fault);
      }
      MeansStep(ms, s.value);
      ms := ms + [s.value];
      meanQed := meanQed + s.value.meanQed;
      meanFpRecon := meanFpRecon + s.value.meanFpRecon;
    }
    assert rs[..|batches|] == rs;
    r := Ok(Scores(meanQed, meanFpRecon));
  }

  /** get_scores: sums the batch means over the scoring set and divides by
      the number of batches. */
  method GetScores(batches: seq<seq<Sample>>) returns (r: Result<Scores>)
    ensures r == ScoresOf(batches)
  {
    var sums := SumBatchMeans(batches);
    if sums.Err? {
      return Err(sums.fault);
    }
    if |batches| == 0 {
      return Err(EmptyScoringLoader);
    }
    ghost var ms := Collect(BatchScores(batches)).value;
    assert |ms| == |batches|;
    var meanFpRecon := sums.value.meanFpRecon / |batches| as real;
    var meanQed := sums.value.meanQed / |batches| as real;
    r := Ok(Scores(meanQed, meanFpRecon));
  }

  lemma MeansStep(ms: seq<Scores>, m: Scores)
    ensures Sum(QedMeans(ms + [m])) == Sum(QedMeans(ms)) + m.meanQed
    ensures Sum(FpMeans(ms + [m])) == Sum(FpMeans(ms)) + m.meanFpRecon
  {
    assert QedMeans(ms + [m]) == QedMeans(ms) + [m.meanQed];
    assert FpMeans(ms + [m]) == FpMeans(ms) + [m.meanFpRecon];
    SumAppend(QedMeans(ms), m.meanQed);
    SumAppend(FpMeans(ms), m.meanFpRecon);
  }

  /** Every molecule's fingerprint can be scored. */
  ghost predicate AllFingerprintsScored(batches: seq<seq<Sample>>)
  {
    forall i, j :: 0 <= i < |batches| && 0 <= j < |batches[i]| ==>
      FingerprintScore(batches[i][j].fp, batches[i][j].hits).Ok?
  }

  /** The QED values of the scoring set, batch by batch. */
  function QedTable(batches: seq<seq<Sample>>): (t: seq<seq<real>>)
    ensures |t| == |batches| && forall i :: 0 <= i < |batches| ==> t[i] == Qeds(batches[i])
    ensures forall i :: 0 <= i < |batches| ==> |t[i]| == |batches[i]|
    ensures forall i, j :: 0 <= i < |batches| && 0 <= j < |batches[i]| ==> t[i][j] == batches[i][j].qed
  {
    seq(|batches|, i requires 0 <= i < |batches| => Qeds(batches[i]))
  }

  /** The fingerprint reconstruction scores of the scoring set, batch by batch. */
  function FpTable(batches: seq<seq<Sample>>): (t: seq<seq<real>>)
    requires AllFingerprintsScored(batches)
    ensures |t| == |batches|
    ensures forall i :: 0 <= i < |batches| ==> |t[i]| == |batches[i]|
    ensures forall i, j :: 0 <= i < |batches| && 0 <= j < |batches[i]| ==>
      t[i][j] == FingerprintScore(batches[i][j].fp, batches[i][j].hits).value
  {
    seq(|batches|, i requires 0 <= i < |batches| =>
      seq(|batches[i]|, j requires 0 <= j < |batches[i]| =>
        FingerprintScore(batches[i][j].fp, batches[i][j].hits).value))
  }

  lemma BatchScoreOk(batch: seq<Sample>)
    ensures BatchScore(batch).Ok? <==>
      |batch| > 0 && forall j :: 0 <= j < |batch| ==> FingerprintScore(batch[j].fp, batch[j].hits).Ok?
  {
    var rs := FpResults(batch);
    if |batch| > 0 && forall j :: 0 <= j < |batch| ==> rs[j].Ok? {
      CollectAllOk(rs);
    }
  }

  /** get_scores returns a result exactly when the scoring set has a batch,
      no batch is empty and every fingerprint can be scored. */
  lemma ScoresOfOk(batches: seq<seq<Sample>>)
    ensures ScoresOf(batches).Ok? <==>
      |batches| > 0 && (forall i :: 0 <= i < |batches| ==> |batches[i]| > 0) &&
      AllFingerprintsScored(batches)
  {
    var rs := BatchScores(batches);
    forall i | 0 <= i < |batches| {
      BatchScoreOk(batches[i]);
    }
    if |batches| > 0 && (forall i :: 0 <= i < |batches| ==> |batches[i]| > 0) &&
       AllFingerprintsScored(batches) {
      CollectAllOk(rs);
    }
    if ScoresOf(batches).Ok? {
      var ms := Collect(rs).value;
      forall i | 0 <= i < |batches|
        ensures BatchScore(batches[i]).Ok?
      {
        assert rs[i] == Ok(ms[i]);
      }
    }
  }

  /** The result of get_scores is the mean over batches of the per-batch
      means of QED and of the fingerprint reconstruction score. */
  lemma ScoresOfIsTwoLevelMean(batches: seq<seq<Sample>>)
    requires ScoresOf(batches).Ok?
    ensures AllFingerprintsScored(batches)
    ensures ScoresOf(batches).value.meanQed == MeanOf(GroupMeans(QedTable(batches)))
    ensures ScoresOf(batches).value.meanFpRecon == MeanOf(GroupMeans(FpTable(batches)))
  {
    ScoresOfOk(batches);
    QedMeansAre(batches);
    FpMeansAre(batches);
  }

  lemma QedMeansAre(batches: seq<seq<Sample>>)
    requires ScoresOf(batches).Ok?
    requires (forall i :: 0 <= i < |batches| ==> |batches[i]| > 0) && AllFingerprintsScored(batches)
    ensures QedMeans(Collect(BatchScores(batches)).value) == GroupMeans(QedTable(batches))
  {
    var q, g := QedMeans(Collect(BatchScores(batches)).value), GroupMeans(QedTable(batches));
    forall i | 0 <= i < |batches| ensures q[i] == g[i] {
      BatchMeansAt(batches, i);
    }
  }

  lemma FpMeansAre(batches: seq<seq<Sample>>)
    requires ScoresOf(batches).Ok?
    requires (forall i :: 0 <= i < |batches| ==> |batches[i]| > 0) && AllFingerprintsScored(batches)
    ensures FpMeans(Collect(BatchScores(batches)).value) == GroupMeans(FpTable(batches))
  {
    var f, g := FpMeans(Collect(BatchScores(batches)).value), GroupMeans(FpTable(batches));
    forall i | 0 <= i < |batches| ensures f[i] == g[i] {
      BatchMeansAt(batches, i);
    }
  }

  lemma BatchMeansAt(batches: seq<seq<Sample>>, i: nat)
    requires i < |batches| && (forall k :: 0 <= k < |batches| ==> |batches[k]| > 0)
    requires AllFingerprintsScored(batches)
    ensures Collect(BatchScores(batches)).Ok?
    ensures Collect(BatchScores(batches)).value[i] ==
      Scores(MeanOf(Qeds(batches[i])), MeanOf(FpTable(batches)[i]))
  {
    ScoresOfOk(batches);
    var rs := BatchScores(batches);
    assert rs[i] == Ok(Collect(rs).value[i]);
    BatchValues(batches[i], FpTable(batches)[i]);
  }

  lemma BatchValues(batch: seq<Sample>, fps: seq<real>)
    requires |fps| == |batch| > 0
    requires forall j :: 0 <= j < |batch| ==> FingerprintScore(batch[j].fp, batch[j].hits) == Ok(fps[j])
    ensures BatchScore(batch) == Ok(Scores(MeanOf(Qeds(batch)), MeanOf(fps)))
  {
    var rs := FpResults(batch);
    BatchScoreOk(batch);
    var xs := Collect(rs).value;
    assert xs == fps;
  }

  /** With every QED value in [0, 1] and binary fingerprints, both scores of
      get_scores lie in [0, 1]. */
  lemma ScoresInUnitInterval(batches: seq<seq<Sample>>)
    requires ScoresOf(batches).Ok?
    requires forall i, j :: 0 <= i < |batches| && 0 <= j < |batches[i]| ==>
      0.0 <= batches[i][j].qed <= 1.0 && Binary(batches[i][j].fp)
    ensures 0.0 <= ScoresOf(batches).value.meanQed <= 1.0
    ensures 0.0 <= ScoresOf(batches).value.meanFpRecon <= 1.0
  {
    ScoresOfOk(batches);
    ScoresOfIsTwoLevelMean(batches);
    QedTableBounds(batches);
    FpTableBounds(batches);
  }

  lemma QedTableBounds(batches: seq<seq<Sample>>)
    requires |batches| > 0 && forall i :: 0 <= i < |batches| ==> |batches[i]| > 0
    requires forall i, j :: 0 <= i < |batches| && 0 <= j < |batches[i]| ==>
      0.0 <= batches[i][j].qed <= 1.0
    ensures 0.0 <= MeanOf(GroupMeans(QedTable(batches))) <= 1.0
  {
    GroupMeansBounds(QedTable(batches), 0.0, 1.0);
  }

  lemma FpTableBounds(batches: seq<seq<Sample>>)
    requires |batches| > 0 && forall i :: 0 <= i < |batches| ==> |batches[i]| > 0
    requires AllFingerprintsScored(batches)
    requires forall i, j :: 0 <= i < |batches| && 0 <= j < |batches[i]| ==> Binary(batches[i][j].fp)
    ensures 0.0 <= MeanOf(GroupMeans(FpTable(batches))) <= 1.0
  {
    var ft := FpTable(batches);
    forall i, j | 0 <= i < |batches| && 0 <= j < |batches[i]|
      ensures 0.0 <= ft[i][j] <= 1.0
    {
      FingerprintScoreInUnitInterval(batches[i][j].fp, batches[i][j].hits);
    }
    GroupMeansBounds(ft, 0.0, 1.0);
  }

  /** When every molecule has QED value q and fingerprint score c, get_scores
      returns exactly (q, c). */
  lemma ScoresOfConstant(batches: seq<seq<Sample>>, q: real, c: real)
    requires |batches| > 0 && forall i :: 0 <= i < |batches| ==> |batches[i]| > 0
    requires forall i, j :: 0 <= i < |batches| && 0 <= j < |batches[i]| ==>
      batches[i][j].qed == q && FingerprintScore(batches[i][j].fp, batches[i][j].hits) == Ok(c)
    ensures ScoresOf(batches) == Ok(Scores(q, c))
  {
    ScoresOfOk(batches);
    ScoresOfIsTwoLevelMean(batches);
    QedTableConstant(batches, q);
    FpTableConstant(batches, c);
  }

  lemma QedTableConstant(batches: seq<seq<Sample>>, q: real)
    requires |batches| > 0 && forall i :: 0 <= i < |batches| ==> |batches[i]| > 0
    requires forall i, j :: 0 <= i < |batches| && 0 <= j < |batches[i]| ==> batches[i][j].qed == q
    ensures MeanOf(GroupMeans(QedTable(batches))) == q
  {
    GroupMeansConstant(QedTable(batches), q);
  }

  lemma FpTableConstant(batches: seq<seq<Sample>>, c: real)
    requires |batches| > 0 && forall i :: 0 <= i < |batches| ==> |batches[i]| > 0
    requires forall i, j :: 0 <= i < |batches| && 0 <= j < |batches[i]| ==>
      FingerprintScore(batches[i][j].fp, batches[i][j].hits) == Ok(c)
    ensures AllFingerprintsScored(batches)
    ensures MeanOf(GroupMeans(FpTable(batches))) == c
  {
    GroupMeansConstant(FpTable(batches), c);
  }
}
