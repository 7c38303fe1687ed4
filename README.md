# Training loop of the SELFIES generator (serifs/gen/train.py)

This project models the training loop of the SERIFS generative model. The
model is a VAE encoder with a GRU decoder. The loop runs epochs
`start_epoch .. start_epoch + epochs - 1`, and each epoch does the following:

- It passes over the training batches. It weights each batch's KLD term by
  `kld_weight`, passes that through the annealer when `kld_annealing` is set,
  and adds the weighted term to the back-propagated objective when
  `kld_backward` is set. It averages the reconstruction losses.
- It takes the mean validation loss (`evaluate`).
- On every tenth epoch it scores the reconstructed molecules (`get_scores`).
  This is the mean QED and the mean fingerprint reconstruction score
  (`fp_score`), first over the molecules of a batch and then over the batches.
- It appends one row to the metrics table and steps the annealer when
  annealing is on.
- On every tenth epoch it saves a checkpoint. Then it rewrites the metrics CSV
  file with the whole table.

Modules:

- `Faults`: the exceptions the code can raise, as `Fault` values in a `Result`,
  plus `Collect`. `Collect` runs a sequence of fallible steps in order and
  stops at the first fault, as a raised exception does.
- `Means`: sums and means over `real`, and bounds and constant-value lemmas for
  plain and two-level means.
- `Fingerprint`: `fp_score`, as the function `FingerprintScore` and the loop
  `FpScore`.
- `Scoring`: `get_scores`, as the function `ScoresOf` and its loops `QedSum`,
  `FpSum`, `ScoreBatch`, `SumBatchMeans` and `GetScores`.
- `Epoch`: one epoch, as the function `EpochRow` and the methods `TrainPass`
  (the batch loop), `Evaluate` and `ComputeRow`.
- `Writes`: the writes of a run as an event log. A `Checkpoint(epoch)` stands
  for `epoch_<epoch>.pt`, and a `MetricsCsv(table)` for a rewrite of
  `metrics.csv`.
- `Training`: the class `Trainer`, whose state is the metrics rows, the
  annealer's step count and the write log, and the epoch loop `Train`.

The network's outputs in an epoch are given by an input, `observe`, that maps
an epoch number to that epoch's data. This data holds the loss and KLD term of
every training batch, the loss of every validation batch, and the scoring set's
molecules. A molecule comes with its input fingerprint, the QED value of the
decoded molecule, and one Boolean per key-table row saying whether the molecule
contains that row's pattern. The annealer is a function of its step count and
the value it weights.

The code has no error handling. A division by an empty loader, an empty
scoring batch, a fingerprint whose entries sum to zero, or a set bit with no
key row raises an exception and ends the run. The model returns the matching
`Fault`. `Train` reports `Aborted(fault)` and keeps the rows, checkpoints and
CSV writes of the epochs that finished.

A checkpoint is saved on every epoch with `epoch % 10 == 0`, epoch 0
included, so a run of n epochs from epoch 0 saves (n + 9) / 10 checkpoints
(`Writes.CheckpointCountFromZero`, `Training.Train`).

`fp_score` divides by the sum of the fingerprint's entries, not by the number
of its set bits. The model keeps the sum (`BitTotal`). The two agree for
binary fingerprints (`Fingerprint.BinaryTotalIsSetBits`).

## Model

| member | source | states |
|---|---|---|
| Faults.CollectFirstFault | serifs/gen/train.py:159-183 | a failed sequence of steps carries the fault of its first failing step, and every step before it succeeded |
| Faults.CollectKeepsFirstFault | serifs/gen/train.py:179-181 | once a prefix of the steps has failed, later steps do not change the outcome: they are never run |
| Means.MeanBounds | serifs/gen/train.py:75-77 | a mean of batch losses lies between any bounds on the batch losses |
| Means.MeanConstant | serifs/gen/train.py:170-186 | the mean of values that all equal c is c |
| Means.GroupMeansBounds | serifs/gen/train.py:170-186 | a mean over groups of per-group means lies between any bounds on the terms |
| Means.GroupMeansConstant | serifs/gen/train.py:170-186 | a two-level mean of terms that all equal c is c |
| Means.TwoLevelMeanOfUnequalGroups | serifs/gen/train.py:174-186 | averaging per batch and then over batches differs from the pooled mean when batch sizes differ ([0] and [1, 1] give 1/2 against 2/3) |
| Fingerprint.FpScore | serifs/gen/train.py:199-206 | the loop over the bit positions gives exactly the score function: an IndexError for the first set bit with no key row, a ZeroDivisionError when the entries sum to 0, and otherwise the matching set bits divided by the entry sum |
| Fingerprint.MatchCountAtMostSetBits | serifs/gen/train.py:202-205 | only entries equal to 1 add to the numerator, so it is at most the number of set bits |
| Fingerprint.BinaryTotalIsSetBits | serifs/gen/train.py:206 | for a binary fingerprint the denominator, the sum of the entries, is the number of set bits |
| Fingerprint.FingerprintScoreInUnitInterval | serifs/gen/train.py:196-206 | a binary fingerprint's score, when there is one, lies in [0, 1], as the docstring promises |
| Fingerprint.FingerprintScoreAllMatch | serifs/gen/train.py:202-206 | a molecule containing every set bit's pattern scores exactly 1 |
| Fingerprint.FingerprintScoreNoneMatch | serifs/gen/train.py:202-206 | a molecule containing no set bit's pattern scores exactly 0 |
| Fingerprint.FingerprintScoreNoSetBits | serifs/gen/train.py:206 | a binary fingerprint with no set bit is a division by zero, whatever the molecule |
| Fingerprint.MatchCountAllHit | serifs/gen/train.py:202-205 | when every set bit matches, the numerator is the number of set bits |
| Fingerprint.MatchCountNoneHit | serifs/gen/train.py:202-205 | when no set bit matches, the numerator is 0 |
| Fingerprint.SetBitsPositive | serifs/gen/train.py:203 | a fingerprint with an entry equal to 1 has a set bit |
| Fingerprint.FingerprintScoreHalf | serifs/gen/train.py:199-206 | fingerprint [1, 0, 1, 0] with only bit 0's pattern present scores 1/2 |
| Scoring.QedSum | serifs/gen/train.py:171-173 | the QED loop adds up the QED values of the batch's molecules |
| Scoring.FpSum | serifs/gen/train.py:178-181 | the fingerprint loop gives the in-order sum of the molecules' scores, or the first fault of fp_score |
| Scoring.FpTotalKeepsFault | serifs/gen/train.py:179-181 | a fault of fp_score on a molecule ends the batch's fingerprint loop with that fault |
| Scoring.FpTotalIsSum | serifs/gen/train.py:178-182 | the running fingerprint sum faults exactly when collecting the scores does, with the same fault, and is otherwise the sum of the collected scores |
| Scoring.ScoreBatch | serifs/gen/train.py:170-182 | a batch gives its mean QED and mean fingerprint score, or a fault: first an empty batch (line 174), then the first fp_score fault |
| Scoring.SumBatchMeans | serifs/gen/train.py:159-183 | the batch loop sums the per-batch means in order, or stops with the first batch's fault |
| Scoring.GetScores | serifs/gen/train.py:141-187 | get_scores returns the mean over batches of the batch means, or the first fault, and an empty scoring set is a division by zero (lines 185-186) |
| Scoring.MeansStep | serifs/gen/train.py:175-183 | one more batch adds its two means to the running sums |
| Scoring.BatchScoreOk | serifs/gen/train.py:170-182 | a batch has scores exactly when it is non-empty and every molecule's fingerprint can be scored |
| Scoring.ScoresOfOk | serifs/gen/train.py:157-186 | get_scores returns a result exactly when the scoring set has a batch, no batch is empty and every fingerprint can be scored |
| Scoring.ScoresOfIsTwoLevelMean | serifs/gen/train.py:157-186 | mean_qed and mean_fp_recon are each the mean over batches of the mean over the batch's molecules |
| Scoring.QedMeansAre | serifs/gen/train.py:170-175 | the per-batch QED means are the means of the batches' QED values |
| Scoring.FpMeansAre | serifs/gen/train.py:178-183 | the per-batch fingerprint means are the means of the batches' scores |
| Scoring.BatchMeansAt | serifs/gen/train.py:170-183 | batch i's means are the means of its QED values and of its fingerprint scores |
| Scoring.BatchValues | serifs/gen/train.py:170-182 | a batch whose fingerprints all score gives the means of its QED values and of those scores |
| Scoring.ScoresInUnitInterval | serifs/gen/train.py:157-186 | with QED values in [0, 1] and binary fingerprints, both results lie in [0, 1] |
| Scoring.QedTableBounds | serifs/gen/train.py:170-186 | with QED values in [0, 1], the two-level QED mean lies in [0, 1] |
| Scoring.FpTableBounds | serifs/gen/train.py:178-186 | with binary fingerprints, the two-level fingerprint mean lies in [0, 1] |
| Scoring.ScoresOfConstant | serifs/gen/train.py:157-186 | when every molecule has QED q and fingerprint score c, get_scores returns exactly (q, c) |
| Scoring.QedTableConstant | serifs/gen/train.py:170-186 | the two-level mean of QED values that all equal q is q |
| Scoring.FpTableConstant | serifs/gen/train.py:178-186 | the two-level mean of fingerprint scores that all equal c is c |
| Epoch.TrainPass | serifs/gen/train.py:59-77 | an empty training loader is a division by zero; otherwise the result is the mean batch loss, the last batch's KLD term and its weighted term at the annealer's current step, and, per batch, the objective with the weighted KLD term added exactly when kld_backward is set |
| Epoch.Evaluate | serifs/gen/train.py:116-138 | an empty validation loader is a division by zero; otherwise the result is the mean of the validation batch losses |
| Epoch.ComputeRow | serifs/gen/train.py:56-97 | an epoch's training pass, evaluation and scoring give exactly the row of the epoch, or its first fault |
| Epoch.EpochRowFault | serifs/gen/train.py:77-87 | an epoch fails exactly when the training loader is empty, the validation loader is empty, or it is a scoring epoch and get_scores fails, and the first two faults come in that order |
| Epoch.EpochRowScoring | serifs/gen/train.py:80-97 | the row's epoch is the loop epoch, and the two scores are present exactly on epochs with epoch % 10 == 0, where they are get_scores' results |
| Epoch.ScoringSetUnusedOffSchedule | serifs/gen/train.py:80-87 | off the scoring epochs the scoring set does not affect the epoch |
| Epoch.EpochRowKld | serifs/gen/train.py:65-92 | the logged kld_loss is the last training batch's, and the logged kld_weighted is that value times kld_weight, passed through the annealer at its current step only when annealing is on |
| Epoch.AnnealerUnusedWhenOff | serifs/gen/train.py:67-69 | with annealing off, neither the annealer nor its step count affects an epoch |
| Epoch.ObjectiveWithoutKld | serifs/gen/train.py:70-73 | the back-propagated objective includes the weighted KLD term exactly when kld_backward is set |
| Epoch.EpochRowLossBounds | serifs/gen/train.py:75-78 | the logged training and validation losses lie within any bounds on the batch losses |
| Epoch.EpochRowScoresInUnitInterval | serifs/gen/train.py:80-96 | on a scoring epoch with QED values in [0, 1] and binary fingerprints, the logged scores lie in [0, 1] |
| Writes.WriteLog | serifs/gen/train.py:103-108 | a run has written nothing exactly when it has no row, and its last write is the CSV file holding the whole table |
| Writes.EpochWritesContents | serifs/gen/train.py:104-108 | an epoch writes a checkpoint exactly on a scoring epoch, then one CSV table holding all rows so far |
| Writes.CheckpointsFollowSchedule | serifs/gen/train.py:104-106 | the checkpoints of a run from start_epoch are exactly its scoring epochs, in order |
| Writes.SnapshotsArePrefixes | serifs/gen/train.py:103-108 | the CSV file is written once per epoch, and the k-th write holds the first k + 1 rows |
| Writes.ScheduledCheckpointsAre | serifs/gen/train.py:104-106 | an epoch is checkpointed exactly when it lies in the epoch range and epoch % 10 == 0 |
| Writes.ScheduledCheckpointsIncrease | serifs/gen/train.py:55-106 | checkpoint epochs increase strictly and lie in the epoch range, so none is written twice |
| Writes.ScheduledCheckpointCount | serifs/gen/train.py:55-106 | n epochs from start save ceil((start + n) / 10) - ceil(start / 10) checkpoints |
| Writes.CheckpointCountFromZero | serifs/gen/train.py:34-106 | a run of n epochs from epoch 0 saves ceil(n / 10) checkpoints |
| Writes.CheckpointThenTable | serifs/gen/train.py:103-108 | every checkpoint is followed at once by a CSV write whose last row is the checkpoint's epoch |
| Training.RanAt | serifs/gen/train.py:55-103 | row k of a run is the row of epoch start_epoch + k, computed with the annealer's step count after k epochs |
| Training.Trainer.constructor | serifs/gen/train.py:31-45 | an empty metrics table, an annealer at step 0 and nothing written |
| Training.Trainer.RunEpoch | serifs/gen/train.py:55-108 | one epoch gives the row of epoch start_epoch + (rows so far) or its fault; on a fault nothing changes, otherwise the row is appended, the annealer steps once when annealing is on, and the epoch's writes follow |
| Training.Trainer.Record | serifs/gen/train.py:99-108 | after the row is fixed the annealer steps once when annealing is on, the row is appended, a checkpoint is saved on a scoring epoch, and the CSV file is rewritten with the table |
| Training.AppendRow | serifs/gen/train.py:103-108 | appending the next epoch's row keeps the rows consecutive and adds exactly that epoch's writes to the log |
| Training.RanStep | serifs/gen/train.py:55-103 | a run extended by the row of its next epoch is a run |
| Training.NextRowAt | serifs/gen/train.py:55-100 | the trainer's next epoch after k epochs is the run's k-th epoch, at the annealer's step count after k epochs |
| Training.Advance | serifs/gen/train.py:55-108 | one pass of the epoch loop adds the run's next row, or stops with that epoch's fault and changes nothing |
| Training.RunEpochs | serifs/gen/train.py:55-111 | the rows are those of the run; on completion there is one per epoch of the range, and on a fault the faulting epoch is the first one not logged |
| Training.LogOfRun | serifs/gen/train.py:55-108 | a run's checkpoints are its scoring epochs, and its CSV writes are the growing prefixes of the table, one per epoch |
| Training.Train | serifs/gen/train.py:14-113 | train() logs one row per epoch of the range, in epoch order, unless a fault ends it early; it checkpoints exactly the scoring epochs it ran, and rewrites the CSV file after each epoch with all rows so far |

## Left out

- The network, the `CCE` loss, `backward` and the Adam optimiser are not modelled. Each epoch's losses and KLD terms are inputs, given per epoch by `observe`. The model does not capture how training changes later epochs' outputs.
- The `Annealer` class (serifs/utils/annealing.py) is not part of this model. Its weighting is an input function of its step count and the value, and its `__call__` is taken not to change it. `annealing_max_epoch` and `annealing_shape` configure it and are left out with it.
- RDKit (`MolFromSmiles`, `MolFromSmarts`, `HasSubstructMatch`, `QED.qed`), selfies decoding and `SELFIESVectorizer.devectorize` are foreign code. QED values and key-pattern matches are inputs.
- The key table is read from disk on every `fp_score` call. Only its row count and the matches of its patterns are modelled.
- Invalid molecules, where `MolFromSmiles` returns `None`, are not modelled: the code has no guard for them, and the model invents no policy.
- Checkpoint contents, the file paths' run name, timing, `print` and device selection are left out. Writes are an event log.
- Floating point is replaced by exact `real` arithmetic.
- Fingerprint entries are modelled as integers.
- `learn_rate` and the optimiser's state are left out.
- Configuration parsing is left out, and so is train_RNN.py at the repository root, the entry point that imports `train`: it reads the data, splits it and parses the command line.
- The two-level mean of get_scores is not proved equal to the pooled mean when batch sizes are equal. Only a counterexample with unequal sizes is given (`Means.TwoLevelMeanOfUnequalGroups`).
