# ml-toolkit core in Dafny

This project models three self-contained parts of the ml-toolkit training
templates and proves properties about them.

1. **Metric accumulation.**
   - `Loss.update` keeps an example-weighted epoch sum, a window sum and an example count (module `LossMetric`).
   - The helpers of `train/train_separate_train_val.py` cover the rest (module `SeparateTrainVal`):
     - `update_metrics` keeps unweighted per-batch sums and flushes the log window when `i % log_interval == 0`;
     - `get_results` turns the sums into epoch means and resets them;
     - the epoch loop of `main` tracks `best_loss` and saves once per epoch.
2. **The training-loop driver** of `src/train_temp.py` (module `TrainLoop`).
   - `train_and_validate` and `main` are a function that emits the trace of calls the driver makes on its collaborators: model, optimizer, `MetricTracker`, `util` and the RNGs.
   - Those collaborators are functions of an abstract world. Tensors, parameters and RNG states are opaque tokens.
3. **The project scaffolders** `init_proj.py` (module `InitProject`) and `tensorflow/init_proj.py` (module `TfInitProject`).
   - Both run over an abstract file system: a map from normalised paths to directories and files (module `FileSystem`).
   - Python's substring test and `str.replace(p, '')` come from module `Strings`.
   - `string.Template.substitute` is an uninterpreted function parameter. `os.listdir` orders and `os.walk` listings are parameters too.

Python exceptions become `Result.Failure` values. `np.inf` is `Option.None`. Floating-point values are Dafny `real`s.

Some behaviour of the code is easy to misread; the model does exactly what the code does:

- **Window flushing.** A window is flushed when `i % log_interval == 0`. That includes batch 0, after a single batch. The flush always divides by `log_interval`, even for a window that holds fewer batches. `SeparateTrainVal.LogIntervalTwo` shows the logged values for interval 2 and four batches: batch 0 divided by 2, then the mean of batches 1 and 2. `SeparateTrainVal.ConstantStreamFlush` shows that a constant stream logs `v / k` first and `v` afterwards.
- **Epoch means.** In `train_separate_train_val.py` they are unweighted means over batches: `num_examples` is `len(loader)`, the number of batches. Only `Loss.update` weights by batch size.
- **Resume epoch.** `train_separate_train_val.py` resumes at the checkpoint's own epoch, so that epoch is re-run. `src/train_temp.py` resumes one past the tracker's epoch.
- **Best loss on resume.** `best_loss` is not restored on resume in `train_separate_train_val.py`. The first epoch of every run is therefore flagged best.
- **Preset keys.** The presets of `tensorflow/init_proj.py` map a path inside the destination (the key) to a source file (the value).

## Model

| member | source | states |
|---|---|---|
| LossMetric.Update | pytorch/src/metrics/loss.py:9-14 | the batch loss is returned unchanged; the epoch sum grows by loss times batch size and the window sum grows by exactly the same amount; the example count grows by the batch size and is positive after a positive batch; nothing else about the metric changes |
| LossMetric.AccumulateSums | pytorch/src/metrics/loss.py:11-13 | folding `update` over batches adds Σ vᵢ·bᵢ to both sums and Σ bᵢ to the example count, leaving the rest alone |
| LossMetric.Lockstep | pytorch/src/metrics/loss.py:11-12 | between resets the window sum and the epoch sum keep the difference they had |
| LossMetric.WeightedMean | pytorch/src/metrics/loss.py:11-13 | from a fresh metric, epoch sum divided by example count is the example-weighted mean Σ vᵢ·bᵢ / Σ bᵢ |
| LossMetric.ConstantMean | pytorch/src/metrics/loss.py:11-13 | batches that all have loss v give an epoch mean of v whatever their sizes, including a partial last batch |
| LossMetric.PartialLastBatch | pytorch/src/metrics/loss.py:11-13 | sizes 10, 10, 10, 5 with losses 1.0, 0.5, 0.5, 0.4 give epoch sum 22, count 35 and mean 22/35 |
| SeparateTrainVal.Matches | train/train_separate_train_val.py:86 | the count of rows whose prediction equals the target is at most the batch size; it equals the batch size iff every row matches and is zero iff none does |
| SeparateTrainVal.BatchAccuracy | train/train_separate_train_val.py:86 | the batch accuracy lies in [0, 1]; it is 1 iff every row matches and 0 iff none does |
| SeparateTrainVal.UpdateMetrics | train/train_separate_train_val.py:85-96 | a zero interval raises; otherwise the same loss and accuracy go into the epoch sums and the other fields stay put; writes happen iff `i mod log_interval == 0`, and they are the window sums divided by the interval at step `(epoch-1)*num_examples + i`; a flush zeroes only the window sums, and without one they grow like the epoch sums |
| SeparateTrainVal.Pass | train/train_separate_train_val.py:37-46 | a pass over the batches in order succeeds iff the loader is empty or the interval is nonzero, and keeps epoch, example count and interval |
| SeparateTrainVal.PassSums | train/train_separate_train_val.py:87-90 | over a pass the epoch sums receive every batch loss and accuracy exactly once |
| SeparateTrainVal.PassWindow | train/train_separate_train_val.py:88-96 | after a pass the window sums hold exactly the batches since the last flush |
| SeparateTrainVal.FlushValue | train/train_separate_train_val.py:92-96 | the last batch of a pass appends nothing unless its index is a multiple of the interval; if it is, it appends the sum of the current window divided by the interval, at step `(epoch-1)*num_examples + i` |
| SeparateTrainVal.WindowOfFlush | train/train_separate_train_val.py:92 | every flush after the one at index 0 covers exactly `log_interval` batches |
| SeparateTrainVal.ConstantStreamFlush | train/train_separate_train_val.py:92-96 | a stream with constant loss v logs v / k at the flush at index 0 and v at every later flush |
| SeparateTrainVal.LogIntervalTwo | train/train_separate_train_val.py:85-96 | interval 2 over four batches: writes at steps 0 and 2, holding batch 0 over 2 and the mean of batches 1 and 2; the last batch stays in the window; the epoch sums hold all four |
| SeparateTrainVal.GetResults | train/train_separate_train_val.py:102-109 | raises iff `num_examples` is zero; the returned loss times `num_examples` is the epoch loss sum; it writes that loss and 100 × accuracy sum / `num_examples` at step `epoch`, and resets the four sums |
| SeparateTrainVal.Reset | train/train_separate_train_val.py:108 | `metrics.reset()`; `EpochMean` states that `get_results` leaves every sum zero and the epoch, count and interval as they were |
| SeparateTrainVal.SetNumExamples | train/train_separate_train_val.py:35 | `metrics.set_num_examples(len(loader))`; `EpochMean` states that the count afterwards is the number of batches |
| SeparateTrainVal.RunLoader | train/train_separate_train_val.py:33-60 | the metric side of `train_model` and `validate_model`; `EpochMean` states when it raises, the mean it returns and the state it leaves |
| SeparateTrainVal.EpochMean | train/train_separate_train_val.py:33-47 | a pass with `set_num_examples(len(loader))` and `get_results` fails iff the loader is empty or the interval is zero; otherwise it returns the unweighted mean batch loss, logs 100 × the mean batch accuracy, and leaves every sum zero |
| SeparateTrainVal.AccuracyPercentBounds | train/train_separate_train_val.py:104 | batch accuracies in [0, 1] give a logged epoch accuracy in [0, 100] |
| SeparateTrainVal.CheckBest | train/train_separate_train_val.py:74-75 | `is_best` iff the validation loss is strictly below `best_loss` (inf counts as above everything); the new `best_loss` is the smaller of the two |
| SeparateTrainVal.TrackBest | train/train_separate_train_val.py:67-75 | one flag per epoch; `best_loss` is still inf iff no epoch ran |
| SeparateTrainVal.TrackBestIsMin | train/train_separate_train_val.py:75 | `best_loss` is always the minimum validation loss seen so far |
| SeparateTrainVal.BestNeverIncreases | train/train_separate_train_val.py:75 | `best_loss` never increases from one epoch to the next |
| SeparateTrainVal.BestIffStrictlyBelowAll | train/train_separate_train_val.py:74 | an epoch is flagged best iff its validation loss is strictly below every earlier one; ties are not best |
| SeparateTrainVal.EpochRange | train/train_separate_train_val.py:68 | `range(start, last + 1)` holds `last - start + 1` consecutive epochs from `start`, or none |
| SeparateTrainVal.Main | train/train_separate_train_val.py:28-82 | one save per epoch from the checkpoint epoch (or 1) to `args.epochs` inclusive, each storing its loop epoch and the run name (from the checkpoint if there is one); a save is best iff its validation loss beats every earlier epoch of the run; the first epoch of every run is best; a resumed run re-runs the saved epoch |
| TrainLoop.Pass | src/train_temp.py:25-52 | the pass trace is: set the mode, `set_num_examples(len(loader))`, the calls of each batch, then `get_epoch_results(mode)`; the returned loss and world are what `get_epoch_results(mode)` answers in the world the batch calls left (`Replay`) |
| TrainLoop.BatchEvents | src/train_temp.py:36-50 | the calls of one batch; its counts are stated by `BatchEventsCount` and its only metric update by `BatchEventsUpdates` |
| TrainLoop.BatchEventsCount | src/train_temp.py:38-48 | a TRAIN batch makes one zero_grad, forward, loss, backward, step and `batch_update`; a VAL batch makes only forward, loss and `batch_update` |
| TrainLoop.BatchEventsUpdates | src/train_temp.py:48 | the only metric update of batch i is `batch_update(i, data, mode)`, the batch's last call |
| TrainLoop.Batches | src/train_temp.py:34-50 | the batch loop in loader order; counts by `BatchesCount`, metric updates by `BatchesUpdates`, and none of its calls returns a value the driver uses (`BatchesSilent`) |
| TrainLoop.BatchesSilent | src/train_temp.py:35-50 | no call of the batch loop is a `get_epoch_results`, `update_best_metric` or save |
| TrainLoop.PassCallsReplay | src/train_temp.py:26-50 | the calls of a pass before `get_epoch_results` replay exactly as they run |
| TrainLoop.BatchesCount | src/train_temp.py:35-50 | over a loader each batch call kind occurs once per batch, and the optimizer calls occur only in TRAIN |
| TrainLoop.BatchesUpdates | src/train_temp.py:35-48 | the metric updates of a loop are one per batch, in loader order, with indices 0..n-1 |
| TrainLoop.PassOrder | src/train_temp.py:26-52 | a pass starts by setting the mode and declaring the batch count, ends with `get_epoch_results`, and every `batch_update` lies strictly between |
| TrainLoop.PassCounts | src/train_temp.py:33-52 | a pass makes one `set_num_examples`, one `get_epoch_results`, one metric update per batch, and one optimizer step per batch in TRAIN but none in VAL |
| TrainLoop.PassUpdates | src/train_temp.py:35-52 | the metric updates of a pass are exactly its batches in loader order with indices 0..n-1 |
| TrainLoop.Epoch | src/train_temp.py:74-90 | one epoch is a TRAIN pass over the training loader and a VAL pass over the validation loader, and saves a bundle carrying the run name and the model's init parameters; replaying its trace against the collaborators reproduces both losses, the flag `update_best_metric` answers to the VAL loss, the model, optimizer and RNG states captured at the save, and the world it returns |
| TrainLoop.EpochReplays | src/train_temp.py:74-90 | an epoch trace replays to the world after the save when its passes replay, its flag is `update_best_metric`'s answer to the VAL loss, and its bundle holds the states captured at that point |
| TrainLoop.TraceOrder | src/train_temp.py:74-90 | within a well-formed epoch record: next_epoch, then the TRAIN pass, then the VAL pass; the best check carries the recorded VAL loss, and the save that follows carries its verdict |
| TrainLoop.EpochOrder | src/train_temp.py:74-90 | in the epoch `train_and_validate`'s loop body actually runs: next_epoch, the TRAIN pass, the VAL pass, `update_best_metric(val_loss)` with the loss `get_epoch_results(VAL)` returned, then the save carrying the flag `update_best_metric` answered and the states captured at that point (`Replay`) |
| TrainLoop.EpochCounts | src/train_temp.py:74-90 | one epoch makes one next_epoch, best check and save, two passes, and one optimizer step per training batch only |
| TrainLoop.Epochs | src/train_temp.py:72-90 | the loop runs exactly `count` epochs, numbered consecutively from `start`, each well-formed; their traces in order replay against the collaborators to the world it returns |
| TrainLoop.FlattenCons | src/train_temp.py:72-90 | the trace of a run of epochs is the first epoch's trace followed by the rest's |
| TrainLoop.Flatten | src/train_temp.py:72-90 | the epochs' traces one after another; counted by `FlattenCount`, split by `FlattenCons`, replayed by `Epochs` |
| TrainLoop.FlattenCount | src/train_temp.py:72-90 | the calls of n epochs are n times the calls of one epoch |
| TrainLoop.Setup | src/train_temp.py:61-70 | the calls before the loop, ending in the single `set_rng_state`; counted by `SetupCount`, ordered and named by `RestoreBeforeBatches` |
| TrainLoop.SetupCount | src/train_temp.py:61-70 | the set-up before the loop restores the RNG state once and makes no pass calls |
| TrainLoop.Main | src/train_temp.py:64-92 | the loop starts at the restored tracker epoch + 1, runs exactly `args.epochs` epochs numbered `start..start+epochs-1`, all using the run name; the trace is set-up, the epochs, then `visualize_trained`; replaying the trace against the collaborators reproduces every loss, best flag and saved state in it and the final world |
| TrainLoop.RunReplays | src/train_temp.py:61-92 | the set-up calls return nothing the driver uses, so when the epochs replay, set-up, epochs and `visualize_trained` replay as a whole |
| TrainLoop.RunTraceCounts | src/train_temp.py:55-92 | a run makes one save, best check and next_epoch per epoch, `epochs × len(train_loader)` optimizer steps of the driver's own batch loop, one metric update per batch and a single RNG restore |
| TrainLoop.RunCounts | src/train_temp.py:55-92 | the trace `main` produces has exactly those counts |
| TrainLoop.RestoreBeforeBatches | src/train_temp.py:64-72 | the RNG state is restored before any forward pass or metric update the driver itself makes; the tracker gets the checkpoint's run name when present (else a fresh one) and its metric snapshot, which is empty by default |
| TrainLoop.SaveFollowsValidation | src/train_temp.py:77-90 | every save is directly preceded by the best check fed that epoch's VAL loss, is marked best iff the check said so, and carries the run name; the whole run's trace replays against the collaborators, so each VAL loss, flag and saved state is the one they returned |
| Strings.ContainsIffOccurs | init_proj.py:35 | Python's `t in s` holds iff `t` occurs in `s` at some index |
| Strings.RemoveAll | init_proj.py:55 | `s.replace(p, '')` never lengthens `s`, and shortens it by at least `len(p)` when `s` starts with `p` |
| Strings.RemoveAllAbsent | init_proj.py:55 | a string without the pattern is returned unchanged |
| Strings.RemoveAllShrinks | init_proj.py:55 | when the pattern occurs, the result is shorter by at least one occurrence |
| Strings.RemoveAllSplit | init_proj.py:55 | removal distributes over a seam where the right part starts with a character the pattern does not use |
| Strings.RemoveAllBehind | init_proj.py:55 | a prefix without the pattern, followed by a separator, is left in place |
| Strings.RemoveAllSinglePass | init_proj.py:55 | removal is one left-to-right pass: removing "_temp" from "_te_tempmp" leaves "_temp", which still contains the pattern |
| FileSystem.JoinSplit | init_proj.py:38-39 | `dirname` and `basename` of `join(d, name)` give back `d` (normalised) and `name` |
| FileSystem.ReadFile | init_proj.py:51-52 | reading succeeds iff the path is a file and yields its content; a directory raises IsADirectoryError and a missing path FileNotFoundError |
| FileSystem.WriteFile | init_proj.py:56-57 | writing succeeds iff the parent is an existing directory and the path is not a directory; the path then holds the text, nothing else changes, and no directory is replaced |
| FileSystem.RemoveFile | init_proj.py:46 | `os.remove` succeeds iff the path is a file, removes it, and changes nothing else |
| FileSystem.RemoveTree | init_proj.py:44 | `shutil.rmtree` succeeds iff the path is a directory; nothing below it survives and everything outside it does |
| FileSystem.MakeDirs | init_proj.py:30-31 | `os.makedirs` fails on an existing path; on success the path is a directory, every old entry is kept, and only directories at the path or above it are added |
| FileSystem.CopyTree | init_proj.py:62 | `shutil.copytree` fails unless the source is a directory and the target is absent; every entry below the source reappears at the same place below the target, anything else below the target was there before, and everything outside the target is left alone; so a copy to a target with nothing below it holds exactly the source tree (`Replica`) |
| FileSystem.CopyFile | init_proj.py:64 | `shutil.copy` fails unless the source is a file; its target (the directory plus the base name, or the path itself) then holds the source's content, nothing else changes, and no directory is replaced |
| FileSystem.CopyTargetUnder | init_proj.py:64 | a copy to `dst` writes at `dst` or directly below it |
| FileSystem.RemoveExisting | init_proj.py:42-46 | after removing an existing entry the path is gone, everything outside it is kept, and nothing is added; a directory goes with everything below it, and so does any path that, as in a real file system, has entries below it only when it is a directory (`TreeAt`) |
| FileSystem.WriteInto | init_proj.py:56-57 | with nothing at or below `d/name`, writing there succeeds and adds exactly that file to the existing directory `d` |
| FileSystem.CopyTreeInto | init_proj.py:62 | with nothing at or below `d/name`, `copytree` to it succeeds, keeps every old entry and holds exactly the source tree there |
| InitProject.Init | init_proj.py:28-75 | `init_project`: create the destination when it is not a directory, handle each listed entry, then copy the presets; `InitMakesDestination` states that a successful run leaves the destination a directory |
| InitProject.EntryStep | init_proj.py:34-64 | a name containing 'data' is skipped and leaves the tree as it was; the other branches are stated by `TemplateStep`, `FileStep`, `DirStep`, `EntryReplaces` and `StepKeepsDestination` |
| InitProject.CopyEntries | init_proj.py:34-64 | the copy loop, stopping at the first exception; `SkipsData` and `EntriesKeepDestination` state its properties |
| InitProject.AddPresets | init_proj.py:66-75 | the preset loop; each step is stated by `PresetStep`, and `PresetsKeepDestination` states that the destination stays a directory |
| InitProject.ChosenFile | init_proj.py:70-72 | the chosen preset file name contains '.py'; it is the name unchanged iff the name already contained '.py', and otherwise the name with '.py' appended |
| InitProject.PresetStep | init_proj.py:68-75 | a preset whose key is not a directory changes nothing; otherwise `destination/dataset.py` receives the content of `key/<chosen file>` |
| InitProject.SelectConfig | init_proj.py:98-103 | a configuration is chosen iff the project is 'rnn' or 'cnn' |
| InitProject.Main | init_proj.py:96-107 | any other project name raises ValueError |
| InitProject.MainDispatch | init_proj.py:98-107 | 'rnn' runs `init_project('src/', 'output_rnn/', RNN_CONFIG)`, and 'cnn' runs the same with 'output_cnn/' and CNN_CONFIG |
| InitProject.SkipsData | init_proj.py:34-36 | the run equals the run with every name containing 'data' left out |
| InitProject.TemplateStep | init_proj.py:49-57 | a template's destination path, with every '_temp' removed, receives the substitution of the source text; the entry under the template's own name is gone |
| InitProject.TemplatePathShrinks | init_proj.py:55 | a filled template never lands on the template's own path |
| InitProject.TemplateStaysInOutput | init_proj.py:55 | under `main`, '_temp' removal changes only the file name, never the `output_<project>/` part |
| InitProject.FileStep | init_proj.py:42-64 | on success a plain file's content is at `destination/name`; when neither path has entries below it, `destination/name` holds exactly that file and nothing below it |
| InitProject.DirStep | init_proj.py:42-62 | on success every entry below the source directory reappears at the same place below `destination/name`; since the namesake is removed first, when it was a directory or had nothing below it, nothing else is below `destination/name` |
| InitProject.EntryReplaces | init_proj.py:38-64 | a plain file or directory of the source replaces its namesake in the destination directory, whatever the namesake was: the step succeeds, `destination/name` holds exactly what `source/name` held, and nothing outside it changes |
| InitProject.StepKeepsDestination | init_proj.py:38-64 | handling one entry keeps the destination a directory |
| InitProject.EntriesKeepDestination | init_proj.py:34-64 | the copy loop keeps the destination a directory |
| InitProject.PresetsKeepDestination | init_proj.py:67-75 | copying presets keeps the destination a directory |
| InitProject.InitMakesDestination | init_proj.py:28-75 | after a successful `init_project` the destination is a directory, created when absent |
| TfInitProject.RemoveDuplicateFiles | tensorflow/init_proj.py:39-46 | afterwards nothing exists at `destination/filename`; a missing entry leaves the tree alone; everything outside that path is kept; a directory goes with everything below it |
| TfInitProject.CopyFileOrFolder | tensorflow/init_proj.py:49-56 | a missing source, or a directory whose target exists, raises; a file lands at `destination/filename` with its content; a directory's entries reappear below `destination/filename`, and when nothing was below the target, nothing else is there |
| TfInitProject.FillFile | tensorflow/init_proj.py:65-66 | a file whose name lacks '_temp.py' is left alone |
| TfInitProject.FillFileLands | tensorflow/init_proj.py:66-76 | a filled template holds the substituted text at its full path with every '_temp' removed, and the template file is gone |
| TfInitProject.FillRoot | tensorflow/init_proj.py:63-64 | a walked root whose path contains 'data', 'checkpoints' or 'cache' is skipped |
| TfInitProject.SkipsGeneratedDirs | tensorflow/init_proj.py:62-64 | the fill equals the fill over the walk with data, checkpoint and cache roots removed |
| TfInitProject.PlainFilesUntouched | tensorflow/init_proj.py:65-66 | files without '_temp.py' in their name leave the tree exactly as it was |
| TfInitProject.PresetStep | tensorflow/init_proj.py:82-87 | a source that is not a file changes nothing and prints "Path not found."; otherwise nothing is printed and `destination/key` receives the source's content |
| TfInitProject.PresetLands | tensorflow/init_proj.py:79-87 | preset j ends up at `destination/key` with its source's content, provided no earlier preset writes over its source and no later one writes over its target |
| TfInitProject.CopyStepKeeps | tensorflow/init_proj.py:98-100 | replacing one entry changes nothing outside the destination |
| TfInitProject.CopyAllKeeps | tensorflow/init_proj.py:98-100 | the copy loop changes nothing outside the destination |
| TfInitProject.FillKeepsOutside | tensorflow/init_proj.py:60-76 | filling the templates of a walk of the destination changes nothing outside it |
| TfInitProject.BuildKeepsOutside | tensorflow/init_proj.py:94-102 | creating, copying and filling change nothing outside the destination |
| TfInitProject.FillFileKeepsDir | tensorflow/init_proj.py:66-76 | filling one template keeps every directory a directory |
| TfInitProject.FillFilesKeepDir | tensorflow/init_proj.py:65-76 | filling the files of one root keeps every directory a directory |
| TfInitProject.FillKeepsDir | tensorflow/init_proj.py:60-76 | `fill_template_files` keeps every directory a directory |
| TfInitProject.CopyStepKeepsDestination | tensorflow/init_proj.py:98-100 | replacing one listed entry keeps the destination a directory |
| TfInitProject.CopyAllKeepsDestination | tensorflow/init_proj.py:98-100 | the copy loop keeps the destination a directory |
| TfInitProject.BuildMakesDestination | tensorflow/init_proj.py:94-102 | after creating, copying and filling, the destination is a directory, created when it was not one |
| TfInitProject.CreateMakesDestination | tensorflow/init_proj.py:90-103 | after a successful `create_project_folder` the destination is a directory |
| TfInitProject.CreateProjectFolder | tensorflow/init_proj.py:90-103 | `create_project_folder`: build the tree, then copy the presets; `CreateMakesDestination` and `RunPresetLands` state its properties |
| TfInitProject.BuildTree | tensorflow/init_proj.py:94-102 | the first three steps of `create_project_folder`; `BuildMakesDestination` and `BuildKeepsOutside` state its properties |
| TfInitProject.CopyStep | tensorflow/init_proj.py:99-100 | one listed entry: remove its namesake, then copy it (`RemoveDuplicateFiles`, `CopyFileOrFolder`); `CopyStepReplaces`, `CopyStepKeeps` and `CopyStepKeepsDestination` state its properties |
| TfInitProject.CopyStepReplaces | tensorflow/init_proj.py:98-100 | a file or directory of `source` replaces its namesake in the destination directory, whatever the namesake was: the step succeeds, `destination/name` holds exactly what `source/name` held, and nothing outside it changes |
| TfInitProject.CopyAll | tensorflow/init_proj.py:98-100 | the copy loop, stopping at the first exception; `CopyAllKeeps` and `CopyAllKeepsDestination` state its properties |
| TfInitProject.FillTemplateFiles | tensorflow/init_proj.py:60-76 | the fill over the walk; `SkipsGeneratedDirs`, `FillKeepsOutside` and `FillKeepsDir` state its properties |
| TfInitProject.FillFiles | tensorflow/init_proj.py:65-76 | the fill of one root's files; `PlainFilesUntouched`, `FillFilesKeep` and `FillFilesKeepDir` state its properties |
| TfInitProject.AddConfigFiles | tensorflow/init_proj.py:79-87 | the preset loop; `PresetLands`, `PresetsKeep` and `PresetsKeepDirs` state its properties |
| TfInitProject.PresetsKeep | tensorflow/init_proj.py:82-85 | a path no preset target lies above is left as it was by the preset loop |
| TfInitProject.PresetsKeepDirs | tensorflow/init_proj.py:82-85 | the preset loop keeps every directory a directory |
| TfInitProject.RunPresetLands | tensorflow/init_proj.py:90-103 | a preset whose source lies outside the destination lands exactly as its source was before the run |
| TfInitProject.CnnDatasetVerbatim | tensorflow/init_proj.py:98-103 | for the cnn configuration, `output_cnn/src/dataset.py` receives `datasets/dataset_cnn.py` exactly as it was before the run, never template-substituted |
| TfInitProject.CnnVizVerbatim | tensorflow/init_proj.py:98-103 | for the cnn configuration, `output_cnn/src/viz.py` receives `visualizers/viz_cnn.py` exactly as it was before the run |
| TfInitProject.Main | tensorflow/init_proj.py:106-119 | `--all` builds the cnn project; a known project with an empty output path builds it; with a non-empty output path only "SPECIFY DESTINATION" is printed; anything else raises ValueError |

## Left out

- Torch work is opaque. Model forward and backward, optimizer internals, `torchsummary` and `verify_model` appear as trace events or opaque tokens, never as computations.
- `source/src/verify.py`, the visualisers (`example/viz.py`, `output_cnn/viz.py`, the `visualize` calls), `sklearn-models/runner.py` and `setup.py` are not part of this model. They are autograd checks, plotting, a thin sklearn wrapper and packaging metadata.
- tqdm progress bars and `print` calls are left out of the training scripts. A SummaryWriter write is an appended `Write(tag, value, step)`.
- Floating-point rounding, NaN and infinity are not modelled: losses and accuracies are reals, and `np.inf` is `None`.
- SeparateTrainVal.BatchAccuracy: requires a non-empty batch. The mean over an empty batch is NaN in the source, which reals cannot represent, and a data loader never yields one.
- SeparateTrainVal.Matches: the row-wise argmax is taken as given, so its tie-breaking is not modelled.
- `MetricTracker` and `util` are not part of this model. This covers checkpoint serialisation, RNG state contents, `update_best_metric` and `get_epoch_results`. In `TrainLoop` they are collaborator functions of an abstract world, and `Replay` ties the trace to their answers without stating anything about how they compute them.
- SeparateTrainVal: `util.Metrics` is assumed to behave as its use in train/train_separate_train_val.py suggests. `update(name, v)` adds `v` to the named sum. `reset()` zeroes exactly the four sums and keeps `epoch`, `num_examples` and `log_interval`. `reset(names)` zeroes only the named sums. `EpochMean` and the other pass properties rely on these assumptions.
- TrainLoop: the set-up calls `verify_model`, `add_network` and `visualize` (src/train_temp.py:61,67-68) also draw from `train_loader`, and `verify_model` steps the optimizer. Each is one opaque event before `set_rng_state`. Their inner forward passes, metric updates and optimizer steps are not counted, and `RestoreBeforeBatches` and `RunTraceCounts` speak only of the driver's own batch loop.
- SeparateTrainVal.Main: the call site at train/train_separate_train_val.py:71 uses the undefined `train_and_validate`. The validation loss of each epoch is therefore a parameter, and `SeparateTrainVal.RunLoader` models what `validate_model` computes.
- The swapped `i`/`pbar` arguments at train/train_separate_train_val.py:59 are modelled as intended: the batch index is passed as `i`.
- Python's `%` for a negative `log_interval` is not modelled separately. It is zero for the same indices as Dafny's `%`, and that is all the flush test reads.
- FileSystem: absolute paths are handled by `Join`, but `..`, repeated separators, symbolic links, permissions and copy metadata are not modelled.
- InitProject.EntryReplaces and TfInitProject.CopyStepReplaces require `TreeAt` at the source and target paths and a destination with at most one trailing separator (`Canonical`). The abstract file system has no global tree invariant: a map may hold entries below a file. It also does not collapse repeated separators. Both conditions hold in every real file system and for every destination the scripts use.
- FileSystem.CopyFile: `shutil.copy` raising SameFileError when source and target coincide is not modelled. The model rewrites the same content instead.
- FileSystem: one error kind is chosen per failure. Python may report a different exception class in corner cases, such as a file in the middle of a `makedirs` path.
- The order of `os.listdir` and the roots and files `os.walk` yields are parameters, not derived from the file system. The walk is not re-read as the fill creates and deletes files. The properties about it assume only that every root lies in the destination and every file name is plain (`TfInitProject.WalkOf`).
- `string.Template.substitute` is an uninterpreted parameter. `None` stands for the KeyError or ValueError it raises.
- `init_pipeline` argument parsing is not modelled. `main` receives the parsed values directly.
- TfInitProject.Main: `CONFIGS` has the single entry 'cnn', so `--all` builds exactly that project.
