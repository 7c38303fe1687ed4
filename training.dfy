/** The epoch loop of train() in serifs/gen/train.py: for each epoch of
    range(start_epoch, start_epoch + epochs) it computes the epoch's metrics
    row, steps the annealer when annealing is on, appends the row to the
    metrics table, saves a checkpoint on scoring epochs and rewrites the
    metrics CSV file. A fault in an epoch ends the run; what was written
    before it stays.

    What the model yields in each epoch depends on the training history,
    which is outside the model; it is given as `observe`, the data of each
    epoch by epoch number. */
module Training {
  import opened Faults
  import opened Epoch
  import opened Writes

  datatype Outcome = Completed | Aborted(fault: Fault)

  /** The number of epochs in range(start_epoch, start_epoch + epochs). */
  function EpochCount(cfg: Config): nat
  {
    if cfg.epochs > 0 then cfg.epochs else 0
  }

  /** The annealer's step count after k epochs: it steps once at the end of
      every epoch when annealing is on, and never otherwise. */
  function StepsAfter(cfg: Config, k: nat): nat
  {
    if cfg.kldAnnealing then k else 0
  }

  /** The row, or the fault, of the run's k-th epoch (counting from 0). */
  function RowAt(cfg: Config, anneal: Annealer, observe: int -> EpochData, k: nat): Result<MetricsRow>
  {
    EpochRow(cfg, anneal, StepsAfter(cfg, k), cfg.startEpoch + k, observe(cfg.startEpoch + k))
  }

  /** `rows` are the rows of the first |rows| epochs of a run. */
  ghost predicate Ran(cfg: Config, anneal: Annealer, observe: int -> EpochData, rows: seq<MetricsRow>)
  {
    |rows| == 0 ||
    (Ran(cfg, anneal, observe, rows[..|rows| - 1]) && RowAt(cfg, anneal, observe, |rows| - 1) == Ok(rows[|rows| - 1]))
  }

  /** Row k of a run is the row of its k-th epoch. */
  lemma {:induction false} RanAt(cfg: Config, anneal: Annealer, observe: int -> EpochData, rows: seq<MetricsRow>, k: nat)
    requires Ran(cfg, anneal, observe, rows) && k < |rows|
    ensures RowAt(cfg, anneal, observe, k) == Ok(rows[k])
  {
    if k < |rows| - 1 {
      var init := rows[..|rows| - 1];
      RanAt(cfg, anneal, observe, init, k);
      assert init[k] == rows[k];
    }
  }

  /** What train() keeps from epoch to epoch: the metrics table, the
      annealer's step count and the writes made so far. */
  class Trainer {
    const cfg: Config
    const anneal: Annealer
    var rows: seq<MetricsRow>
    var annealerSteps: nat
    var log: seq<Write>

    /** The rows belong to consecutive epochs from start_epoch, the annealer
        has stepped once per logged epoch when annealing is on, and the
        writes are those of the logged epochs. */
    ghost predicate Valid()
      reads this
    {
      Consecutive(rows, cfg.startEpoch) &&
      annealerSteps == StepsAfter(cfg, |rows|) &&
      log == WriteLog(rows)
    }

    /** An empty metrics table and a fresh annealer (lines 31-45). */
    constructor (cfg: Config, anneal: Annealer)
      ensures this.cfg == cfg && this.anneal == anneal
      ensures rows == [] && annealerSteps == 0 && log == []
      ensures Valid()
    {
      this.cfg := cfg;
      this.anneal := anneal;
      rows := [];
      annealerSteps := 0;
      log := [];
    }

    /** The row, or the fault, of the next epoch if its data is `d`. */
    ghost function NextRow(d: EpochData): Result<MetricsRow>
      reads this
    {
      EpochRow(cfg, anneal, annealerSteps, cfg.startEpoch + |rows|, d)
    }

    /** One epoch (lines 56-108): the epoch number is start_epoch plus the
        number of rows logged, and the result is the epoch's row or the
        fault that ends the run. On a fault nothing changes; otherwise the
        row is appended, the annealer steps when annealing is on, and the
        epoch's writes follow. */
    method RunEpoch(d: EpochData) returns (r: Result<MetricsRow>)
      requires Valid()
      modifies this
      ensures r == old(NextRow(d))
      ensures Valid()
      ensures r.Err? ==> rows == old(rows) && annealerSteps == old(annealerSteps) && log == old(log)
      ensures r.Ok? ==>
        rows == old(rows) + [r.value] &&
        annealerSteps == old(annealerSteps) + (if cfg.kldAnnealing then 1 else 0) &&
        log == old(log) + EpochWrites(rows)
    {
      var epoch := cfg.startEpoch + |rows|;
      r := ComputeRow(cfg, anneal, annealerSteps, epoch, d);
      if r.Err? {
        return;
      }
      EpochRowScoring(cfg, anneal, annealerSteps, epoch, d);
      Record(r.value);
    }

    /** The end of an epoch (lines 99-108): the annealer steps when
        annealing is on, the row is appended, a checkpoint is saved on a
        scoring epoch and the table is written to the CSV file. */
    method Record(row: MetricsRow)
      requires Valid() && row.epoch == cfg.startEpoch + |rows|
      modifies this
      ensures Valid()
      ensures rows == old(rows) + [row]
      ensures annealerSteps == old(annealerSteps) + (if cfg.kldAnnealing then 1 else 0)
      ensures log == old(log) + EpochWrites(rows)
    {
      if cfg.kldAnnealing {
        annealerSteps := annealerSteps + 1;
      }
      AppendRow(rows, row, cfg.startEpoch);
      rows := rows + [row];
      if row.epoch % 10 == 0 {
        log := log + [Checkpoint(row.epoch)];
      }
      log := log + [MetricsCsv(rows)];
    }
  }

  /** Appending the row of the next epoch keeps the rows consecutive and
      adds that epoch's writes to the log. */
  lemma AppendRow(rows: seq<MetricsRow>, row: MetricsRow, start: int)
    requires Consecutive(rows, start) && row.epoch == start + |rows|
    ensures Consecutive(rows + [row], start)
    ensures WriteLog(rows + [row]) == WriteLog(rows) + EpochWrites(rows + [row])
  {
    var next := rows + [row];
    forall k | 0 <= k < |next| ensures next[k].epoch == start + k {
      if k < |rows| {
        assert next[k] == rows[k];
      }
    }
    assert next[..|rows|] == rows;
  }

  /** A run that has logged `rows` and gets `row` for its next epoch has
      logged `rows + [row]`. */
  lemma RanStep(cfg: Config, anneal: Annealer, observe: int -> EpochData, rows: seq<MetricsRow>, row: MetricsRow)
    requires Ran(cfg, anneal, observe, rows)
    requires RowAt(cfg, anneal, observe, |rows|) == Ok(row)
    ensures Ran(cfg, anneal, observe, rows + [row])
  {
    assert (rows + [row])[..|rows|] == rows;
  }

  /** The next epoch of a trainer that has run k epochs of a run is the
      run's k-th epoch. */
  lemma NextRowAt(t: Trainer, observe: int -> EpochData, k: nat)
    requires t.Valid() && |t.rows| == k
    ensures t.NextRow(observe(t.cfg.startEpoch + k)) == RowAt(t.cfg, t.anneal, observe, k)
  {
  }

  /** The next epoch of a run whose first |t.rows| epochs are logged: on a
      fault nothing changes and the fault is that of the epoch, otherwise
      the run has logged one more epoch. */
  method Advance(t: Trainer, observe: int -> EpochData) returns (r: Result<MetricsRow>)
    requires t.Valid() && Ran(t.cfg, t.anneal, observe, t.rows)
    modifies t
    ensures t.Valid() && Ran(t.cfg, t.anneal, observe, t.rows)
    ensures r == RowAt(t.cfg, t.anneal, observe, |old(t.rows)|)
    ensures r.Err? ==> t.rows == old(t.rows)
    ensures r.Ok? ==> t.rows == old(t.rows) + [r.value]
  {
    ghost var before := t.rows;
    var d := observe(t.cfg.startEpoch + |t.rows|);
    ghost var expected := RowAt(t.cfg, t.anneal, observe, |before|);
    NextRowAt(t, observe, |before|);
    assert t.NextRow(d) == expected;
    r := t.RunEpoch(d);
    assert r == expected;
    if r.Ok? {
      RanStep(t.cfg, t.anneal, observe, before, r.value);
    }
  }

  /** The epoch loop of train() (lines 55-111) on a trainer that has run
      no epoch yet. */
  method RunEpochs(t: Trainer, observe: int -> EpochData) returns (outcome: Outcome)
    requires t.Valid() && t.rows == []
    modifies t
    ensures t.Valid()
    ensures Ran(t.cfg, t.anneal, observe, t.rows)
    ensures outcome.Completed? ==> |t.rows| == EpochCount(t.cfg)
    ensures outcome.Aborted? ==>
      |t.rows| < EpochCount(t.cfg) && RowAt(t.cfg, t.anneal, observe, |t.rows|) == Err(outcome.fault)
  {
    outcome := Completed;
    for k := 0 to EpochCount(t.cfg)
      invariant t.Valid() && Ran(t.cfg, t.anneal, observe, t.rows)
      invariant |t.rows| == k
    {
      var r := Advance(t, observe);
      if r.Err? {
        outcome := Aborted(r.fault);
        break;
      }
    }
  }

  /** What the write log of a run from `start` holds: the checkpoints of
      its scoring epochs and one CSV table per epoch, the k-th holding the
      first k + 1 rows. */
  lemma LogOfRun(rows: seq<MetricsRow>, start: int)
    requires Consecutive(rows, start)
    ensures Checkpoints(WriteLog(rows)) == ScheduledCheckpoints(start, |rows|)
    ensures |Snapshots(WriteLog(rows))| == |rows|
    ensures forall k :: 0 <= k < |rows| ==> Snapshots(WriteLog(rows))[k] == rows[..k + 1]
    ensures start == 0 ==> |Checkpoints(WriteLog(rows))| == (|rows| + 9) / 10
  {
    CheckpointsFollowSchedule(rows, start);
    SnapshotsArePrefixes(rows);
    if start == 0 {
      CheckpointCountFromZero(rows);
    }
  }

  /** train(): runs the epochs in order until all are done or one faults.
      The rows are those of the epochs run, the checkpoints are those of
      their scoring epochs and the CSV file was rewritten after each. */
  method Train(cfg: Config, anneal: Annealer, observe: int -> EpochData) returns (t: Trainer, outcome: Outcome)
    ensures fresh(t) && t.Valid() && t.cfg == cfg && t.anneal == anneal
    ensures Ran(cfg, anneal, observe, t.rows)
    ensures outcome.Completed? ==> |t.rows| == EpochCount(cfg)
    ensures outcome.Aborted? ==>
      |t.rows| < EpochCount(cfg) && RowAt(cfg, anneal, observe, |t.rows|) == Err(outcome.fault)
    ensures Checkpoints(t.log) == ScheduledCheckpoints(cfg.startEpoch, |t.rows|)
    ensures |Snapshots(t.log)| == |t.rows|
    ensures forall k :: 0 <= k < |t.rows| ==> Snapshots(t.log)[k] == t.rows[..k + 1]
    ensures outcome.Completed? && cfg.startEpoch == 0 ==> |Checkpoints(t.log)| == (EpochCount(cfg) + 9) / 10
  {
    t := new Trainer(cfg, anneal);
    outcome := RunEpochs(t, observe);
    LogOfRun(t.rows, cfg.startEpoch);
  }
}
