# Step schedule of the DDP training loop

This project models the bookkeeping of one rank of the multi-process
training script `train_DDP.py`, with the tensors taken out. It covers the
loop in `main` and the start-up checks of the `__main__` block.

- `Schedule` holds the step counter's schedule. The counter starts at
  `restore_step` and rises by 2 after every micro-batch. The module says
  when each periodic action is due:
  - the optimizer update at multiples of `grad_acc_step`;
  - the log at multiples of `log_step`, on rank 1;
  - synth and validate at multiples of their intervals, on rank 1, never at
    step 0 or at the restore step;
  - save at multiples of `save_step`, on every rank, never at step 0 or at
    the restore step.

  It also says when the loop stops.
- `StepEngine` models one micro-batch as a pure transition, and a run as
  that transition folded over the micro-batches a rank receives. The
  transition emits the side effects in the order of the loop body, and the
  fold stops at `quit()` or at an exception. Three exceptions are modelled:
  - the length assertion on fields 8 and 5 fails;
  - an interval is zero, so `step % 0` raises;
  - the log reads `lr` before any update has assigned it.
- `RunTheorems` proves the run-level properties by keeping an invariant
  across the fold. The invariant says that the recorded events of each
  action are exactly the visited steps where that action is due.
- `Checkpoint` and `Decimal` model the checkpoint file name
  `"<step>.pth.tar"`, its placement by `os.path.join`, and its decoding
  back to the step.
- `RunConfig` models the start-up checks and the path suffixes.

Four facts about the code shape the gates and the failure model:

- The log gate skips neither step 0 nor the restore step. Only synth,
  validate and save skip them.
- Log, synth and validate all test `rank == 1`. Save tests no rank.
- Any exception ends the rank. The model records such a stop as a `Crash`
  outcome carrying the events emitted before the failure.
- The gates are tested on every micro-batch, whether or not an update
  fired on it.

## Model

| member | source | states |
|---|---|---|
| Schedule.FiringStepsMembers | train_DDP.py:100-182 | The step list of an action holds exactly the visited steps (restore_step, restore_step+2, … up to micro-batch n) at which that action's gate fires, and no other value. |
| Schedule.UpdateCadence | train_DDP.py:100-106 | Once an update fires at micro-batch i, a later micro-batch j updates exactly when j−i is a multiple of lcm(2, grad_acc_step)/2. That is grad_acc_step/2 micro-batches for an even interval and grad_acc_step for an odd one. |
| Schedule.UpdatesFromAlignedStart | train_DDP.py:69-106 | From a restore step that is a multiple of grad_acc_step, updates fire exactly at micro-batches 0, p, 2p, … with p = lcm(2, grad_acc_step)/2. |
| Schedule.OddStartNeverUpdates | train_DDP.py:100 | From an odd restore step with an even grad_acc_step, no visited step passes the update test. |
| Schedule.OddStartNoUpdateSteps | train_DDP.py:100-182 | Hence such a rank's list of update steps is empty however long it runs. |
| Schedule.FirstAtLeast | train_DDP.py:180-182 | The first value of start, start+2, … that reaches the bound: it is at least the bound, has the parity of start, and its predecessor in the sequence is below the bound. |
| Schedule.QuitBatches | train_DDP.py:180-182 | The number of micro-batches until quit is at least 1. The last one visits FirstAtLeast(restore_step, total_step), and every earlier one is below total_step. |
| Schedule.SaveStepsIgnoreRank | train_DDP.py:168 | The save steps do not depend on the rank. |
| Schedule.NonReporterNeverReports | train_DDP.py:108-166 | A rank other than 1 never has a log, synth or validate step. |
| Schedule.FiringStepsLast | train_DDP.py:180-181 | The latest visited step ends an action's step list exactly when that action is due there. |
| StepEngine.FirstFault | train_DDP.py:90-178 | Names the first exception a micro-batch raises, in body order, or none. There is none only if the batch is aligned, every interval is nonzero, and `lr` is bound whenever the log fires. A misalignment is reported exactly when the batch is misaligned, with no events emitted. A zero-interval fault names the first gate in body order whose interval is 0; every earlier gate has a nonzero interval, the log before it found `lr` bound, and the events emitted are exactly those of the earlier gates. An unbound `lr` happens only on a log step with no earlier update and no update on this step, after the text line alone. |
| StepEngine.Transition | train_DDP.py:86-183 | One micro-batch. It crashes exactly when FirstFault finds an exception, with FirstFault's fault and partial events, and then leaves the state unchanged. Otherwise it appends the batch's events. It quits at a step ≥ total_step without incrementing, and otherwise the next step is the current step + 2. |
| StepEngine.Run | train_DDP.py:83-186 | The loop over micro-batches. The step never decreases, and events are only ever appended. While running, the step is the start plus 2 per micro-batch. |
| Checkpoint.CheckpointNameRoundTrip | train_DDP.py:169 | The file name `"{step}.pth.tar"` decodes back to its step. |
| Checkpoint.CheckpointNameInjective | train_DDP.py:169 | Distinct steps get distinct checkpoint file names. |
| Checkpoint.JoinPathBaseName | train_DDP.py:169 | Joining a slash-free name onto the checkpoint directory leaves that name as the last path component. |
| Checkpoint.SavePathIdentifiesStep | train_DDP.py:169 | The full save path determines the step: its last component decodes to the step, and two steps never share a save path. |
| Decimal.IntRoundTrip | train_DDP.py:169 | The decimal text of an integer parses back to it. |
| RunTheorems.ChunkInOrder | train_DDP.py:100-178 | A micro-batch emits its effects in body order: update, log, synth, eval mode, validation, training mode, save. |
| RunTheorems.StepKeepsConsistent | train_DDP.py:86-183 | A transition that does not crash preserves the invariant: each action's recorded steps equal its firing steps, `lr` holds the result of the latest update, the metrics logs are one per visited log step after the first update, each reporting the `lr` of the latest update at or before it, the saved records match the save steps, and the model is in training mode. |
| RunTheorems.TrainSchedule | train_DDP.py:69-186 | For every run, each action's recorded steps equal the steps where it fires, and `lr` comes from the last update step. A running rank has seen every micro-batch below total_step. A crash happens at the visit of a micro-batch in the input. |
| RunTheorems.TrainStepParity | train_DDP.py:69-182 | The final step is at least restore_step, has its parity, and is the visit of the last processed micro-batch. |
| RunTheorems.TrainQuitStep | train_DDP.py:180-182 | A rank that quits does so at FirstAtLeast(restore_step, total_step), after QuitBatches micro-batches. |
| RunTheorems.TrainProgress | train_DDP.py:180-186 | Unless it crashes, a rank processes min(\|bs\|, QuitBatches) micro-batches, and it quits exactly when the input lasts that long. |
| RunTheorems.TrainRestoredPastTotal | train_DDP.py:69-181 | Resuming at or past total_step processes exactly one micro-batch, or crashes on it. |
| RunTheorems.QuitBatchFullyProcessed | train_DDP.py:100-181 | On the quitting micro-batch, every action due at that step is recorded before the loop stops. |
| RunTheorems.TrainOddStartNeverUpdates | train_DDP.py:100-106 | From an odd restore step with an even grad_acc_step, a run records no update and `lr` stays unset. |
| RunTheorems.TrainNonReporterSilent | train_DDP.py:108-166 | A rank other than 1 never logs, synthesizes or validates, and so never fails on an unset `lr`. |
| RunTheorems.TrainSavesIgnoreRank | train_DDP.py:168-178 | Two ranks that get through the same micro-batches write the same checkpoint records. |
| RunTheorems.TrainSavedCheckpoints | train_DDP.py:168-178 | Every saved record sits at a save step: a multiple of save_step, not 0, not the restore step. Each is written to `<ckpt_path>/<step>.pth.tar`, its file name is exactly the decimal checkpoint name of its own step, and it holds exactly the model and optimizer entries. The records come in increasing step order with pairwise distinct paths. |
| RunTheorems.TrainLogsLatestLr | train_DDP.py:100-120 | Every metrics log of a run sits at a visited log step and reports the `lr` of an update the run recorded at or before that step, and no recorded update between the two. |
| RunTheorems.TrainEndsInTrainingMode | train_DDP.py:159-166 | Every run ends with the model in training mode, because validation switches back after evaluating. |
| RunTheorems.TrainUnboundLr | train_DDP.py:100-120 | A crash on an unset `lr` happens only on rank 1, at a log step, when no visited step so far (that one included) was an update step. |
| RunTheorems.TrainNeverCrashes | train_DDP.py:90-181 | With aligned micro-batches and nonzero intervals, a rank that is not the reporter, or that starts at a multiple of grad_acc_step, never raises. |
| RunTheorems.LogBeforeFirstUpdateFails | train_DDP.py:100-120 | A concrete run: rank 1, resuming at 2 with grad_acc_step 4 and log_step 2, fails on its first micro-batch after writing the text line. |
| RunConfig.Configure | train_DDP.py:211-222 | Accepts exactly naive, aux, and shallow resumed at or past total_step_aux. Refuses shallow before total_step_aux with RestoreBeforeAux. Each accepted path extends its base path. |
| RunConfig.SuffixRoundTrip | train_DDP.py:219-221 | The suffix `"_{train_tag}{path_tag}"` decodes back to the training family and the user tag. |
| RunConfig.ConfigurePaths | train_DDP.py:213-222 | The checkpoint and log paths carry the family tag (shallow for aux and shallow, naive for naive) plus the path tag, both recoverable. The result path carries the model kind itself. |
| RunConfig.AuxAndShallowShareCheckpoints | train_DDP.py:213-222 | Accepted aux and shallow runs with the same tag share checkpoint and log directories but not result directories. |

## Left out

- Process-group bootstrap, the master address and port, `mp.spawn`, DDP wrapping and cross-rank gradient synchronisation: these are concurrency and library calls. Ranks are modelled one at a time.
- The shard assignment of `DistributedSampler`: its code is not part of this model. A rank's micro-batches are an arbitrary input sequence, with all epochs flattened into one.
- The forward pass, loss values, loss scaling, gradient clipping, optimizer internals and the learning-rate schedule: floating-point numerics. An update is an opaque event. `lr` is represented by the step of the update that produced it.
- Tensorboard, tqdm bars, appending to `log.txt`, `torch.save` serialisation, `evaluate` and `synth_one_sample`: I/O and foreign calls. They appear only as events. Exceptions raised inside them are not modelled.
- The epoch counter and the inner progress bar: they feed only tqdm.
- The dictionary lookups in the YAML configuration, including `total_step_{model}`, and the KeyError they may raise: the configuration is a record given to the model.
- Command-line parsing: `--model` is restricted to naive, aux and shallow there, so `UnknownModel` is reachable only through direct calls.
- CWT pitch setup: float numerics from a module that is not part of this model.
- The checkpoint loader `get_model` and the restore of weights and optimizer state: it is not part of this model.
- `freevc/__init__.py` and `cluster/__init__.py`: model loading and neural or sklearn inference wrappers with I/O.
- Schedule.UpdateCadence: stated for a positive grad_acc_step only. A negative interval also divides in Python, but it has no period in micro-batches worth stating. The gates themselves (`Fires`) handle every sign, because they test only divisibility.
- Schedule.UpdatesFromAlignedStart: stated for a positive grad_acc_step only, for the same reason.
- RunTheorems.TrainUnboundLr: gives necessary conditions for the unset-`lr` crash, not sufficient ones. LogBeforeFirstUpdateFails shows that the crash is reachable.
- RunTheorems.TrainNeverCrashes: gives a sufficient condition for a clean run, not a characterisation.
