# Per-video top-k error rates of the YouTube-8M inference driver

This project models the pure parts of `inference-sample-error.py`. That
driver restores a trained video classifier and runs it over a dataset of
videos. For each video it writes one line to a text file: the video id and
an error rate.

- The error rate is computed from the video's true labels and the model's
  class scores.
- Let k be the number of true labels, but at least 1. The driver takes the
  k classes with the highest scores (`numpy.argpartition`).
- It writes `1 - hits / k`, where hits is how many of those k classes are
  true labels.

Around this metric the model covers:

- the output file: a fixed header line, then each batch's lines in the order
  the batches arrive, with a running example counter;
- the decisions the driver makes before reading data: the mandatory options,
  the lookup of the model and transformer classes by name, the rejection of
  an input glob that matched nothing, and the checkpoint choice.

Modules:

- `Errors` (errors.dfy): `Option`, `Result` and the errors a run can end with.
- `TopK` (topk.dfy): `IsTopK` says what a valid answer of the partition call
  is: k distinct in-range classes, none outscored by a class left out.
  Nothing is said about ties. `SelectTopK` is one deterministic selection
  meeting it.
- `ErrorRate` (error_rate.dfy): k, hits and `1 - hits / k`, computed over
  exact reals.
- `Batches` (format_lines.dfy): rows, batches and `FormatLines`.
- `OutputFile` (output.dfy): the header, body lines, their text and how it
  is read back.
- `Config` (config.dfy): the checks made before the data is read.
- `Driver` (driver.dfy): the `inference` loop and the whole `main` run.

The session returns a batch as three row-aligned arrays: ids, predictions and
labels. The model keeps a batch as a list of `Row`s instead, so the three
arrays always have the same length. Scores and label rows share the width
`num_classes`, so every operation on a row requires `|predictions| == |labels|`.

A record's error rate is stated through `Scored`: it is the error rate of
*some* valid top-k selection. The contracts therefore hold whatever order
numpy's partition gives classes with equal scores. `TopKUnique` shows that
this tie-breaking is the only freedom.

Two details of the code's ordering are modelled as written:

- The output file is opened, and so emptied, before the checkpoint is looked
  up (line 195). A run with no checkpoint leaves an empty file, not an
  untouched one.
- `num_examples_processed` grows (line 240) before the batch is formatted
  (line 243). On a failing batch the counter already includes that batch.

## Model

| member | source | states |
|---|---|---|
| TopK.SelectTopK | youtube-8m-wangheda/inference-sample-error.py:95 | for every k up to the row width, the selection holds exactly k distinct class indices of the row |
| TopK.SelectTopKIsTopK | youtube-8m-wangheda/inference-sample-error.py:95 | the deterministic selection is a valid partition answer: no unchosen class scores strictly higher than a chosen one |
| TopK.TopKFitsRow | youtube-8m-wangheda/inference-sample-error.py:95 | a valid selection of k classes exists only if the row has at least k classes, which is why the partition call fails beyond that |
| TopK.ExchangeOnTie | youtube-8m-wangheda/inference-sample-error.py:95 | two valid selections differ only by exchanging classes of equal score |
| TopK.TopKUnique | youtube-8m-wangheda/inference-sample-error.py:95 | when no two classes tie, all valid top-k selections are the same set |
| ErrorRate.CountTrue | youtube-8m-wangheda/inference-sample-error.py:94 | the sum of a 0/1 label row is the number of true-labelled classes and never exceeds the row width |
| ErrorRate.TopKSize | youtube-8m-wangheda/inference-sample-error.py:94 | k is at least 1, equals the number of true labels when there is one, is 1 otherwise, and never exceeds the number of classes of a non-empty row |
| ErrorRate.HitsBounds | youtube-8m-wangheda/inference-sample-error.py:96-97 | hits never exceed the selection size, equal it exactly when every selected class is a true label, and are 0 exactly when none is |
| ErrorRate.RowErrorRate | youtube-8m-wangheda/inference-sample-error.py:94-97 | the reported value lies in [0, 1]; it is 0 exactly when every selected class is a true label, 1 exactly when none is, and with at least one label 0 exactly when the selection is the label set |
| ErrorRate.ScoreRow | youtube-8m-wangheda/inference-sample-error.py:94-97 | a row fails exactly when it has no classes, and then no valid selection exists; otherwise its value lies in [0, 1] and is 1 for a video with no true labels |
| ErrorRate.ScoreRowSelects | youtube-8m-wangheda/inference-sample-error.py:94-97 | the value a scorable row gets is the error rate of some valid top-k selection of its scores |
| ErrorRate.PerfectRankingHasNoError | youtube-8m-wangheda/inference-sample-error.py:94-97 | if every true label outscores every other class, every valid selection gives error rate 0 |
| ErrorRate.BuriedLabelsAllMissed | youtube-8m-wangheda/inference-sample-error.py:94-97 | if k classes that are not labels each outscore every true label, every valid selection gives error rate 1 |
| Batches.FormatLines | youtube-8m-wangheda/inference-sample-error.py:90-98 | one record per video in batch order, carrying that video's id; the batch fails, with the partition error, exactly when some video has no class scores |
| Batches.FormatLinesScored | youtube-8m-wangheda/inference-sample-error.py:90-98 | each record of a formatted batch carries the error rate of some valid top-k selection of its video's scores, and that rate lies in [0, 1] |
| OutputFile.OneLineBreak | youtube-8m-wangheda/inference-sample-error.py:98 | a line's text holds exactly one line break when its id and printed rate hold none, and the header holds one |
| OutputFile.RenderedLineCount | youtube-8m-wangheda/inference-sample-error.py:98 | if ids and printed rates contain no newline, each line becomes exactly one line of text, so the file's text has as many line breaks as the model has lines |
| OutputFile.ParseRenderedBody | youtube-8m-wangheda/inference-sample-error.py:98 | a body line is read back, at its first tab and final newline, as the id and printed rate it was written from, provided the id holds no tab |
| Config.FindClassByName | youtube-8m-wangheda/inference-sample-error.py:85-88 | the result is the value from the first module in list order that has a truthy attribute of that name; the lookup fails exactly when no module has one |
| Config.FindClassByNameAppend | youtube-8m-wangheda/inference-sample-error.py:85-88 | searching front + back gives the front's answer if it has one and the back's otherwise |
| Config.ValidateOptions | youtube-8m-wangheda/inference-sample-error.py:272-278 | the run may continue exactly when both options are non-empty; an empty output file is reported even when the input pattern is empty as well |
| Config.CheckInputFiles | youtube-8m-wangheda/inference-sample-error.py:118-121 | an empty glob result is rejected with an error naming the pattern; any other result is passed through unchanged |
| Config.ChooseCheckpoint | youtube-8m-wangheda/inference-sample-error.py:197-203 | a non-empty explicit path is chosen whatever the directory lookup would give; otherwise the latest checkpoint is chosen; the choice fails, naming the train directory, exactly when neither exists |
| Driver.FlattenLength | youtube-8m-wangheda/inference-sample-error.py:240 | the counter, a sum of batch lengths, equals the number of rows across all batches |
| Driver.FlattenPosition | youtube-8m-wangheda/inference-sample-error.py:243 | row r of batch j comes right after all rows of the earlier batches |
| Driver.FormatBatch | youtube-8m-wangheda/inference-sample-error.py:243 | formatting one batch inside the loop fails, with the partition error, exactly when some video of the batch has no class scores |
| Driver.RecordsUpToWritten | youtube-8m-wangheda/inference-sample-error.py:237-243 | the header followed by the formatted records of the first i batches holds one correct record per row of those batches, in batch and row order |
| Driver.WriteBatches | youtube-8m-wangheda/inference-sample-error.py:237-248 | the loop stops exactly at the first batch that cannot be formatted. If there is none, the file holds the header and one correct record per row of every batch, and the counter is the summed batch lengths, which is the number of body lines. Otherwise only the earlier batches' lines are in the file, and the counter includes the failing batch |
| Driver.Inference | youtube-8m-wangheda/inference-sample-error.py:193-254 | a missing checkpoint leaves an empty file and processes nothing. Otherwise the run finishes exactly when every batch can be formatted; a finished run has the header first and one correct record per row after it, and a failed run ends with the partition error and only the earlier batches' lines |
| Driver.Run | youtube-8m-wangheda/inference-sample-error.py:258-294 | an empty output option is reported first, then an empty input pattern, then a failed model lookup, then a failed transformer lookup (told apart in the model by the class name), then an empty glob, and none of these opens the output file. Once the file is opened, the run finishes exactly when a checkpoint is found and every batch can be formatted. A missing checkpoint ends it with the error naming the train directory and an empty file; a batch that cannot be formatted ends it with the partition error, leaving the header and the earlier batches' correct records; a finished run's file holds the header and a correct record for every row |

## Left out

- The TensorFlow graph is not modelled: `build_graph`, `create_model`, the feature transformer, dropout and noise placeholders, and the graph collections. They belong to framework and model code outside this file. The driver loop receives the scored batches as an input list.
- The reader threads are not modelled: `string_input_producer`, `batch_join`, queue runners and the `Coordinator`. They are concurrency whose batch sizing lives in TensorFlow. No link is modelled between the globbed files and the batches.
- Checkpoint restore and variable initialisation are not modelled (`saver.restore`, `set_up_init_ops`). `latest_checkpoint` is an abstract optional input.
- The printed form of an error rate (Python's `str` of a float) is not modelled. Rendering takes it as a function, and scores and error rates are exact reals, not float32.
- UTF-8 decoding of ids, which can fail, is not modelled. Ids are treated as ready-made strings.
- Labels are modelled as booleans, not the float32 cast of the boolean label tensor.
- Opening, flushing and closing the file, logging, timing, and flag definitions are not modelled.
- Feature-list parsing through `utils` and the construction of the reader (lines 262-270) run before the option checks and are not modelled; they belong to code outside this file. The `Run` contract's "first" means first among the modelled checks. `FLAGS.feature_transformer` (line 282) is read but not defined among this file's flags (lines 40-82); the model takes it as an ordinary option.
- The `is ""` comparisons at lines 272 and 276 are modelled as string emptiness.
- Batches.FormatLines: a failing row fails the whole batch. The records of earlier rows are never written, because the list comprehension at line 243 raises before `writelines` runs. The generator's partial output is not modelled separately.
