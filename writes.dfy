/** The files train() in serifs/gen/train.py writes, as the sequence of
    write events they receive: after every epoch a checkpoint of the model
    on scoring epochs (models/<run_name>/epoch_<epoch>.pt), then the whole
    metrics table so far (models/<run_name>/metrics.csv, overwritten each
    time). The checkpoint's contents, the model's weights, are not modelled;
    the event names the epoch of its path. */
module Writes {
  import opened Epoch

  datatype Write = Checkpoint(epoch: int) | MetricsCsv(table: seq<MetricsRow>)

  /** The rows were logged for consecutive epochs from `start`. */
  predicate Consecutive(rows: seq<MetricsRow>, start: int)
  {
    forall k :: 0 <= k < |rows| ==> rows[k].epoch == start + k
  }

  /** The writes at the end of the epoch whose row is the last of `rows`. */
  function EpochWrites(rows: seq<MetricsRow>): seq<Write>
    requires |rows| > 0
  {
    var e := rows[|rows| - 1].epoch;
    (if IsScoringEpoch(e) then [Checkpoint(e)] else []) + [MetricsCsv(rows)]
  }

  /** All writes of a run that has logged `rows`. The last one leaves the
      whole table in the CSV file. */
  function WriteLog(rows: seq<MetricsRow>): (log: seq<Write>)
    ensures |rows| == 0 <==> |log| == 0
    ensures |rows| > 0 ==> log[|log| - 1] == MetricsCsv(rows)
  {
    if |rows| == 0 then [] else WriteLog(rows[..|rows| - 1]) + EpochWrites(rows)
  }

  /** The epochs of the checkpoints in a log, in order. */
  function Checkpoints(log: seq<Write>): seq<int>
  {
    if |log| == 0 then []
    else Checkpoints(log[..|log| - 1]) + (if log[|log| - 1].Checkpoint? then [log[|log| - 1].epoch] else [])
  }

  /** The tables written to the CSV file in a log, in order. */
  function Snapshots(log: seq<Write>): seq<seq<MetricsRow>>
  {
    if |log| == 0 then []
    else Snapshots(log[..|log| - 1]) + (if log[|log| - 1].MetricsCsv? then [log[|log| - 1].table] else [])
  }

  /** The scoring epochs among the `n` epochs from `start`, in order. */
  function ScheduledCheckpoints(start: int, n: nat): seq<int>
  {
    if n == 0 then []
    else ScheduledCheckpoints(start, n - 1) + (if IsScoringEpoch(start + n - 1) then [start + n - 1] else [])
  }

  lemma {:induction false} CheckpointsConcat(a: seq<Write>, b: seq<Write>)
    ensures Checkpoints(a + b) == Checkpoints(a) + Checkpoints(b)
  {
    if |b| == 0 {
      assert a + b == a;
    } else {
      assert (a + b)[..|a + b| - 1] == a + b[..|b| - 1];
      CheckpointsConcat(a, b[..|b| - 1]);
    }
  }

  lemma {:induction false} SnapshotsConcat(a: seq<Write>, b: seq<Write>)
    ensures Snapshots(a + b) == Snapshots(a) + Snapshots(b)
  {
    if |b| == 0 {
      assert a + b == a;
    } else {
      assert (a + b)[..|a + b| - 1] == a + b[..|b| - 1];
      SnapshotsConcat(a, b[..|b| - 1]);
    }
  }

  lemma EpochWritesContents(rows: seq<MetricsRow>)
    requires |rows| > 0
    ensures var e := rows[|rows| - 1].epoch;
      Checkpoints(EpochWrites(rows)) == (if IsScoringEpoch(e) then [e] else []) &&
      Snapshots(EpochWrites(rows)) == [rows]
  {
    var e := rows[|rows| - 1].epoch;
    var w := EpochWrites(rows);
    if IsScoringEpoch(e) {
      assert w[..1] == [Checkpoint(e)];
      assert w[..1][..0] == [];
      assert Checkpoints(w[..1]) == [e];
      assert Snapshots(w[..1]) == [];
    } else {
      assert w[..0] == [];
    }
  }

  lemma WriteLogStep(rows: seq<MetricsRow>)
    requires |rows| > 0
    ensures Checkpoints(WriteLog(rows)) ==
      Checkpoints(WriteLog(rows[..|rows| - 1])) + Checkpoints(EpochWrites(rows))
    ensures Snapshots(WriteLog(rows)) ==
      Snapshots(WriteLog(rows[..|rows| - 1])) + Snapshots(EpochWrites(rows))
  {
    CheckpointsConcat(WriteLog(rows[..|rows| - 1]), EpochWrites(rows));
    SnapshotsConcat(WriteLog(rows[..|rows| - 1]), EpochWrites(rows));
  }

  /** A run from epoch `start` saves a checkpoint for exactly its scoring
      epochs, in order, each once. */
  lemma {:induction false} CheckpointsFollowSchedule(rows: seq<MetricsRow>, start: int)
    requires Consecutive(rows, start)
    ensures Checkpoints(WriteLog(rows)) == ScheduledCheckpoints(start, |rows|)
  {
    if |rows| > 0 {
      var n := |rows|;
      var init := rows[..n - 1];
      assert Consecutive(init, start) by {
        forall k | 0 <= k < |init| ensures init[k].epoch == start + k {
          assert init[k] == rows[k];
        }
      }
      CheckpointsFollowSchedule(init, start);
      WriteLogStep(rows);
      EpochWritesContents(rows);
      assert rows[n - 1].epoch == start + n - 1;
    }
  }

  /** The CSV file receives one table per epoch, and the k-th one holds the
      rows of the first k + 1 epochs. */
  lemma {:induction false} SnapshotsArePrefixes(rows: seq<MetricsRow>)
    ensures |Snapshots(WriteLog(rows))| == |rows|
    ensures forall k :: 0 <= k < |rows| ==> Snapshots(WriteLog(rows))[k] == rows[..k + 1]
  {
    if |rows| > 0 {
      var n := |rows|;
      var init := rows[..n - 1];
      SnapshotsArePrefixes(init);
      WriteLogStep(rows);
      EpochWritesContents(rows);
      PrefixesStep(rows, Snapshots(WriteLog(init)));
    }
  }

  lemma PrefixesStep(rows: seq<MetricsRow>, earlier: seq<seq<MetricsRow>>)
    requires |rows| > 0 && |earlier| == |rows| - 1
    requires forall k :: 0 <= k < |earlier| ==> earlier[k] == rows[..|rows| - 1][..k + 1]
    ensures forall k :: 0 <= k < |rows| ==> (earlier + [rows])[k] == rows[..k + 1]
  {
    var n := |rows|;
    forall k | 0 <= k < n ensures (earlier + [rows])[k] == rows[..k + 1] {
      if k < n - 1 {
        assert rows[..n - 1][..k + 1] == rows[..k + 1];
      } else {
        assert rows[..n] == rows;
      }
    }
  }

  /** An epoch is in the schedule exactly when it is one of the `n` epochs
      from `start` and a multiple of 10. */
  lemma {:induction false} ScheduledCheckpointsAre(start: int, n: nat, e: int)
    ensures e in ScheduledCheckpoints(start, n) <==> start <= e < start + n && IsScoringEpoch(e)
  {
    if n > 0 {
      ScheduledCheckpointsAre(start, n - 1, e);
    }
  }

  /** The schedule is strictly increasing, so no checkpoint is written twice. */
  lemma {:induction false} ScheduledCheckpointsIncrease(start: int, n: nat)
    ensures forall i, j :: 0 <= i < j < |ScheduledCheckpoints(start, n)| ==>
      ScheduledCheckpoints(start, n)[i] < ScheduledCheckpoints(start, n)[j]
    ensures forall i :: 0 <= i < |ScheduledCheckpoints(start, n)| ==>
      start <= ScheduledCheckpoints(start, n)[i] < start + n
  {
    if n > 0 {
      ScheduledCheckpointsIncrease(start, n - 1);
    }
  }

  lemma CeilTenthStep(x: int)
    ensures (x + 10) / 10 - (x + 9) / 10 == if x % 10 == 0 then 1 else 0
  {
  }

  /** There are ceil((start + n) / 10) - ceil(start / 10) checkpoints among
      the `n` epochs from `start`. */
  lemma {:induction false} ScheduledCheckpointCount(start: int, n: nat)
    ensures |ScheduledCheckpoints(start, n)| == (start + n + 9) / 10 - (start + 9) / 10
  {
    if n > 0 {
      ScheduledCheckpointCount(start, n - 1);
      CeilTenthStep(start + n - 1);
    }
  }

  /** A run of n epochs from epoch 0 saves (n + 9) / 10 checkpoints: epoch 0
      is one of them. */
  lemma CheckpointCountFromZero(rows: seq<MetricsRow>)
    requires Consecutive(rows, 0)
    ensures |Checkpoints(WriteLog(rows))| == (|rows| + 9) / 10
  {
    CheckpointsFollowSchedule(rows, 0);
    ScheduledCheckpointCount(0, |rows|);
  }

  /** Every checkpoint is followed at once by the CSV table whose last row
      belongs to the checkpoint's epoch. */
  lemma {:induction false} CheckpointThenTable(rows: seq<MetricsRow>)
    ensures forall i :: 0 <= i < |WriteLog(rows)| && WriteLog(rows)[i].Checkpoint? ==>
      i + 1 < |WriteLog(rows)| && WriteLog(rows)[i + 1].MetricsCsv? &&
      |WriteLog(rows)[i + 1].table| > 0 &&
      WriteLog(rows)[i + 1].table[|WriteLog(rows)[i + 1].table| - 1].epoch == WriteLog(rows)[i].epoch
  {
    if |rows| > 0 {
      var init := rows[..|rows| - 1];
      CheckpointThenTable(init);
      var a, b := WriteLog(init), EpochWrites(rows);
      var log := WriteLog(rows);
      assert log == a + b;
      forall i | 0 <= i < |log| && log[i].Checkpoint?
        ensures i + 1 < |log| && log[i + 1].MetricsCsv? && |log[i + 1].table| > 0 &&
          log[i + 1].table[|log[i + 1].table| - 1].epoch == log[i].epoch
      {
        if i + 1 < |a| {
          assert log[i] == a[i];
          assert log[i + 1] == a[i + 1];
        } else {
          if |a| > 0 {
            assert log[|a| - 1] == a[|a| - 1] == MetricsCsv(init);
          }
          assert log[i] == b[i - |a|];
        }
      }
    }
  }
}
