# Synthetic-data back end: configurator, trainer wrapper, API handlers and training job

This project models the sequential core of a FastAPI back end. The back end trains synthetic-data generators on uploaded CSV files. It supports a CTGAN tabular model and a DoppelGANger ("dgan") sequence model.

The model covers five parts.

- **Column classifier and auto-configurator** (`AutoSyntheticConfigurator`, model_helpers.py), module `ModelHelpers`.
  - The datetime detector scores each column by the share of its distinct non-null values that parse as a date. It picks the first column with the highest score.
  - The numeric detector keeps the columns that coerce fully to numbers and contain no ASCII letter.
  - The string detector keeps the object columns in which at least half of the distinct non-null values are non-numeric strings.
  - `get_dgan_config` merges the three detector results into the configuration document. The CTGAN literal is modelled too.
- **Older configurator** (helpers.py), module `LegacyHelpers`.
  - Its three detectors are the same code and reuse the `ModelHelpers` members.
  - Its `get_dgan_config` leaves the model sizes as the placeholder `'default'`.
- **DoppelGANger wrapper** (`DGANER`, dgan_model.py), module `DganModel`. It is a class with these operations:
  - resolution of `'default'` sizes;
  - ordinal encoding of the encodable columns before training;
  - the loop that counts how many sequences to request;
  - decoding of the generated columns.
- **HTTP handlers** (main.py), module `MainApi`:
  - the `CSV`→`csv` rename on upload;
  - the "first `.csv` in the folder" lookup;
  - the required-model-file check;
  - the versioned export file name;
  - the 404 paths of the three handlers.
- **Training orchestration** (api_helpers.py), module `ApiHelpers`:
  - `get_model_configuration`;
  - the `log_to_database` capture of stdout/stderr into the log record, modelled as a `LogCapture` class;
  - `start_model_training`, modelled as a `TrainingJob` class. It walks the stages in order and moves the project status to `"training"`, then to `"completed"` or `"training_failed"`.

Modules `Common` and `Frames` hold the shared data model:
- configuration values and keys;
- errors;
- string predicates;
- the CSV frame as named columns of possibly-missing cells.

**Library calls are parameters.** Each library the core calls enters the model as a function-typed parameter:

| library call | parameter | what it gives |
|---|---|---|
| dateutil `parse` | `parse` | parsed, rejected with ValueError/TypeError, or crashed with any other exception |
| `pd.to_numeric` | `coerce` | whether the value converts to a number |
| sklearn `OrdinalEncoder` | `categorize` | the category list |
| gretel `generate_dataframe` | `generate` | the generated table |
| SDV metadata detection | `metadata` | the metadata |

**The training job's environment.** In the training job, each collaborator is a stage that may raise. These collaborators are:
- the database session;
- Google Drive;
- the trainer and the sampler;
- the quality report;
- `os.remove`.

An environment value says which stages raise. It also carries the generated identifiers and the values that the collaborators return.

**Rates are exact.** Success rates are kept as exact fractions and compared as rationals, not as floats.

## Model

| member | source | states |
|---|---|---|
| Frames.DistinctItemsSpec | model_helpers.py:130 | `dropna().unique()` yields exactly the non-null values of a column, each once; it is empty iff every cell is null |
| ModelHelpers.TallyParses | model_helpers.py:127-139 | the per-column loop reports a crash iff some distinct value's parse raises an exception other than ValueError/TypeError; otherwise it counts exactly the distinct values that parse |
| ModelHelpers.SuccessesBound | model_helpers.py:127-139 | the success count never exceeds the number of distinct values tried |
| ModelHelpers.RateEntriesAreRates | model_helpers.py:126-143 | every stored rate has total > 0 and success ≤ total, and belongs to a column of the frame with that column's own rate |
| ModelHelpers.RateEntryIffNonNull | model_helpers.py:141-143 | a column gets a rate entry iff it has at least one non-null value |
| ModelHelpers.Best | model_helpers.py:145 | `max(..., default=None)` returns None iff the rate map is empty, otherwise an index of the map |
| ModelHelpers.BestIsFirstMaximum | model_helpers.py:145 | the chosen rate is ≥ every stored rate and every earlier entry's rate is strictly smaller: ties go to the first column in column order |
| ModelHelpers.ChooseBest | model_helpers.py:145 | the selection loop returns the first maximal entry, as `Best` specifies |
| ModelHelpers.DetectDatetimeColumn | model_helpers.py:120-147 | the detector (column loop, value loop, argmax) returns the pair that `DatetimeDetection` specifies, including the escaping parse exception; helpers.py:51-78 is the same code |
| ModelHelpers.DetectionChoosesMaximum | model_helpers.py:141-147 | the returned column is None iff no column has a non-null value; otherwise it is a stored column whose rate is maximal |
| ModelHelpers.DetectNumericColumns | model_helpers.py:149-169 | the detector returns the numeric columns in column order, None instead of `[]`; helpers.py:80-100 is the same code |
| ModelHelpers.NumericColumnsMembership | model_helpers.py:157-166 | a column is listed iff every cell coerces to a number (a null fails) and no value's string form contains `[a-zA-Z]` |
| ModelHelpers.RemoveFirstDot | model_helpers.py:185 | `replace('.', '', 1)` is one character shorter when the string has a dot and leaves it unchanged otherwise |
| ModelHelpers.RemoveFirstDotExact | model_helpers.py:185 | `replace('.', '', 1)` removes the first '.' and keeps every other character in order |
| ModelHelpers.CountNonNumeric | model_helpers.py:183-186 | the counting loop counts the distinct values that are strings and not all digits after the first dot is removed |
| ModelHelpers.DetectStringColumns | model_helpers.py:171-198 | the detector returns the string-like columns in column order, None instead of `[]`, or the ZeroDivisionError of line 188; helpers.py:102-129 is the same code |
| ModelHelpers.StringColumnsErrPersists | model_helpers.py:188 | once a column divides by zero, the whole detection raises that error |
| ModelHelpers.StringColumnsMembership | model_helpers.py:177-196 | detection raises iff some object column has no non-null value; otherwise a column is listed iff it is object-typed and 2·nonNumeric ≥ distinct non-null values |
| ModelHelpers.StringColumnsDistinct | model_helpers.py:177-196 | with distinct column names, the string-like list has no duplicates |
| ModelHelpers.RemoveFirst | model_helpers.py:113-114 | `list.remove` shortens the list by one when the element is present, leaves it unchanged otherwise, and adds nothing |
| ModelHelpers.RemoveFirstDropsFirst | model_helpers.py:113-114 | `list.remove` drops exactly the first occurrence of the element and keeps the order of the rest |
| ModelHelpers.RemoveFirstRemoves | model_helpers.py:113-114 | on a list without duplicates, the removed name is gone afterwards |
| ModelHelpers.AssignColumnRoles | model_helpers.py:100-116 | the in-place updates of `time_column`, `feature_columns` and `encodable_columns` (with `remove` and `+=`) give the document `ColumnRoles` specifies, or its exception |
| ModelHelpers.ColumnRolesFrame | model_helpers.py:100-116 | the column step writes only the three role keys; its result depends only on the frame and the starting feature/encodable values |
| ModelHelpers.ColumnRolesContents | model_helpers.py:100-116 | from a literal with None roles, the time column is always the detector's column (possibly None or a zero-rate column, since the returned pair is truthy); without string columns encodable stays None and features are the numeric list or None; with string columns the numeric list is non-empty, encodable is the string list minus the time column, and features are numeric ++ encodable |
| ModelHelpers.GetDganConfig | model_helpers.py:74-118 | the method returns the document `DganConfig` specifies, or its exception |
| ModelHelpers.SizedDefaultsShape | model_helpers.py:75-98 | after the size assignments the literal keeps its keys and its None roles, holds rows // 4 and min(100, columns) as sizes, and is otherwise unchanged |
| ModelHelpers.DganConfigContents | model_helpers.py:75-118 | the returned document has exactly the literal's keys; `max_sequence_len` = rows // 4 and `batch_size` = min(100, columns); every other non-role key keeps its literal value; the role keys are as in `ColumnRolesContents` |
| ModelHelpers.DganConfigFails | model_helpers.py:100-116 | `get_dgan_config` raises iff a date parse crashes, an object column is entirely null (division by zero), or string columns exist but no numeric column does (`None += list`) |
| ModelHelpers.ColumnRolesFails | model_helpers.py:100-116 | from any literal whose `feature_columns` is None, the column step raises iff a date parse crashes, an object column is entirely null, or string columns exist but no numeric column does |
| ModelHelpers.TimeColumnNotEncodable | model_helpers.py:113-115 | with distinct column names, the chosen time column is never among the encodable columns |
| ModelHelpers.GetCtganConfig | model_helpers.py:40-72 | it fails iff metadata detection fails; otherwise it returns the literal's keys, the detected metadata, the validation verdict, and every other literal value unchanged |
| LegacyHelpers.GetLegacyDganConfig | helpers.py:8-49 | the older `get_dgan_config` performs the same column step on its own literal, with no size arithmetic |
| LegacyHelpers.SizedDefaultsDiffer | helpers.py:9-29 | the two literals have the same keys and differ only in `max_sequence_len`, `sample_len` and `batch_size`, which the older one sets to `'default'` |
| LegacyHelpers.ColumnRolesAgree | helpers.py:30-47 | two literals that agree outside keys the column step does not write give results that fail together and agree outside those keys |
| LegacyHelpers.LegacyAgreesWithCurrent | helpers.py:8-49 | the older configurator fails on exactly the frames on which the newer one fails; otherwise the two documents agree on every key except the three size keys, which the older one leaves at `'default'` |
| DganModel.TableOf | dgan_model.py:36 | the frame read by the trainer has one entry per CSV column and no other |
| DganModel.FirstMissing | dgan_model.py:28-34 | `__init__` raises KeyError iff a key it reads is missing, and the key it names is a missing one |
| DganModel.Dganer.constructor | dgan_model.py:17-42 | a trainer keeps the configuration and the mappings it is given, reads the frame, and resolves the sizes |
| DganModel.Dganer.Create | dgan_model.py:16-54 | construction fails with the KeyError of the first missing key; otherwise it keeps the configuration unchanged, starts with empty mappings unless in load mode, and resolves `'default'` sizes |
| DganModel.ResolvedSizes | dgan_model.py:39-42 | for an older-configurator document, `'default'` resolves to rows // 2, 1 and min(100, columns); a newer-configurator document passes its own rows // 4, 1 and min(100, columns) through unchanged |
| DganModel.TrainingCorrectsOnlyNull | dgan_model.py:56-63 | the corrected loop header changes `train` only for a None `encodable_columns`: there it encodes nothing and records no mapping, where the written loop raises TypeError; for every other value the two agree |
| DganModel.IndexOf | dgan_model.py:61 | a value's ordinal code is the first index of that value in the category list |
| DganModel.Encode | dgan_model.py:61 | encoding keeps a column's length; a cell becomes NaN exactly when it is blank or outside the categories, otherwise it becomes its category's index |
| DganModel.Assign | dgan_model.py:63 | storing a mapping under a new column appends it; storing under an existing column keeps the number of mappings |
| DganModel.AssignReplaces | dgan_model.py:63 | storing under a column already in the dictionary replaces its mapping in place and keeps every other mapping, in order |
| DganModel.EncodeErrorPersists | dgan_model.py:59-63 | once a column fails to encode, the rest of the loop is skipped and that error is the result |
| DganModel.EncodeColumnsStep | dgan_model.py:59-63 | one more, previously unmapped column encodes its cells and appends exactly its mapping |
| DganModel.EncodeColumnsSpec | dgan_model.py:58-63 | `train` resets the mappings, encodes exactly the listed columns in place, leaves other columns alone, and records one mapping per encodable column, in order |
| DganModel.Dganer.Train | dgan_model.py:56-63 | the method leaves the data, mappings and error that `Training` specifies, and keeps the configuration and settings |
| DganModel.RevertColumn | dgan_model.py:87-92 | decoding keeps a column's length |
| DganModel.RevertErrorPersists | dgan_model.py:86-92 | once a column's `astype(int)` raises on a NaN, decoding stops with that error |
| DganModel.RevertEncodeRoundTrip | dgan_model.py:86-92 | decoding the ordinal codes of a column without blank cells whose values are all in the category list gives the column back |
| DganModel.EncodedColumnsRevert | dgan_model.py:86-92 | every encoded column without blank cells holds numbers and decodes back to its original cells when the categories cover its values |
| DganModel.RevertAllSpec | dgan_model.py:86-92 | with distinct mapped columns that hold numbers, decoding succeeds, rewrites exactly the mapped columns, and leaves the other columns unchanged |
| DganModel.RevertEncodings | dgan_model.py:86-92 | the decoding loop returns the table `RevertAll` specifies |
| DganModel.TrainThenRevert | dgan_model.py:56-95 | when no encodable column has a blank cell, training's encoding, followed by decoding with the mappings it recorded, gives back the original frame |
| DganModel.BlankCellBreaksRevert | dgan_model.py:86-92 | a column with a blank cell encodes that cell as NaN, so decoding it raises |
| DganModel.BlankColumnBreaksRoundTrip | dgan_model.py:56-95 | when some encodable column has a blank cell, training succeeds but decoding with the recorded mappings raises |
| DganModel.BlankProgressBreaksRevert | dgan_model.py:86-92 | the same for any progress that encodes the columns as `train` does: decoding reaches the first blank column and raises there |
| DganModel.RevertFailsAt | dgan_model.py:86-92 | if the columns before position i decode and the column at i does not, the whole decoding raises |
| DganModel.RevertPrefixKeeps | dgan_model.py:86-92 | decoding distinct numeric columns before position i succeeds and leaves the column at i as it was |
| DganModel.RevertRestores | dgan_model.py:56-95 | any frame without blank cells in its encodable columns, encoded as `train` encodes it, with the mappings recorded in column order, decodes back to the original frame |
| DganModel.SequenceCount | dgan_model.py:77-80 | the counting loop returns the least n ≥ 0 with n · max_sequence_len ≥ num_examples |
| DganModel.CountIsCeiling | dgan_model.py:77-80 | that least n equals ⌈num_examples / max_sequence_len⌉ (0 when num_examples ≤ 0) |
| DganModel.CountNeverStops | dgan_model.py:77-80 | with a length ≤ 0 and a positive request, no count reaches the request, so the loop never stops |
| DganModel.SmallFrameNeverStops | dgan_model.py:77-80 | for a frame of fewer than four rows the newer configurator gives length rows // 4 = 0, so a positive request is an input on which the loop never stops |
| DganModel.Dganer.GenerateSyntheticData | dgan_model.py:76-97 | generation asks the model for the ceiling count of sequences; it decodes the mapped columns only when `encodable_columns` is truthy |
| DganModel.NoStringColumnsBreaksTraining | dgan_model.py:59 | for a newer-configurator document without string columns, `encodable_columns` is None, the loop as written raises TypeError, and the corrected loop trains unchanged with no mappings |
| DganModel.LegacyConfigBreaksGeneration | dgan_model.py:78 | for an older-configurator document, the count loop as written multiplies by `'default'` and raises TypeError, while the corrected loop counts with the resolved rows // 2 |
| DganModel.NumericFrameMeetsFindings | dgan_model.py:59 | a two-row, one-numeric-column frame meets both findings' conditions |
| MainApi.Lower | main.py:34 | the replacement character is never an upper-case letter |
| MainApi.ReplaceCsv | main.py:33-34 | the rename keeps the path's length |
| MainApi.ContainsCsvIff | main.py:33 | `"CSV" in path` holds iff "CSV" occurs at some index |
| MainApi.ReplaceCsvPointwise | main.py:34 | every character of the renamed path is either the original character or its lower-case form |
| MainApi.ReplaceCsvClean | main.py:34 | the renamed path contains no "CSV" at all |
| MainApi.ReplaceCsvAbsent | main.py:33-34 | a path without "CSV" is left unchanged |
| MainApi.ReplaceCsvExact | main.py:33-34 | `replace("CSV", "csv")` lower-cases a character exactly when it lies inside an occurrence of "CSV", and keeps every other character |
| MainApi.UploadPathSpec | main.py:26-34 | the saved path is `client/<id>/<filename>` with exactly the characters of each "CSV" lower-cased and every other character kept; it contains no "CSV", and is unchanged when there was none |
| MainApi.FirstCsv | main.py:51-55 | the lookup returns None iff no listed name ends in `.csv`; otherwise it returns the first such name in listing order |
| MainApi.ModelFilesReady | main.py:104-118 | generation may proceed iff the model is ctgan with `model.pkl` and `ctgan_config.json`, or dgan with `model.pt`, `dgan_config.json` and `encoding_mappings.pkl` |
| MainApi.ExportBaseName | main.py:134 | `rsplit('.', 1)[0]` strips only the last extension; a name without a dot is unchanged |
| MainApi.ExportNameInjective | main.py:136 | different versions give different export names |
| MainApi.VersionBound | main.py:137-139 | the version search cannot pass the number of existing exports plus one, so the loop ends |
| MainApi.NextExportName | main.py:133-139 | the chosen name is `<base>_<v>.csv` with v ≥ 1; it is not among the existing exports, and every earlier version is |
| MainApi.ExportVersionUnique | main.py:135-139 | only one version satisfies that description |
| MainApi.GetConfig | main.py:43-68 | a missing folder gives 404 "Key not found"; a folder without CSV gives 404; otherwise ctgan raises AttributeError (the imported helpers.py configurator has no `get_ctgan_config`), dgan answers the older configurator's document or its exception, and any other model reads an unbound name |
| MainApi.TrainModel | main.py:70-99 | a missing folder gives 404 "Project key not found"; a folder without CSV gives 404; otherwise it answers that training started, with the model and key |
| MainApi.GenerateSyntheticData | main.py:101-156 | missing model files or an unknown model give 404; a folder without CSV gives 404; otherwise a generator error propagates, or the response is the least free versioned export name built from the base name of the first CSV in listing order |
| ApiHelpers.GetModelConfiguration | api_helpers.py:21-32 | a failed read gives None; ctgan gives the CTGAN document, or None when metadata inference raises; dgan gives the newer configurator's document, or None when it raises; any other model type gives None (unbound result) |
| ApiHelpers.LogCapture.constructor | api_helpers.py:36-37 | a capture starts with the record's current text, an empty buffer and the process streams |
| ApiHelpers.LogCapture.Enter | api_helpers.py:37-49 | entering saves the current streams and redirects both to the capturer |
| ApiHelpers.LogCapture.Write | api_helpers.py:40-43 | each write appends to the buffer and sets the record's text to the concatenation of all writes so far |
| ApiHelpers.LogCapture.Exit | api_helpers.py:52-53 | leaving restores the saved stdout and stderr and keeps the record's text |
| ApiHelpers.Capture | api_helpers.py:34-53 | after a captured run, the record holds the concatenation of the writes (the header survives only when nothing was written), and both streams are the ones before entry |
| ApiHelpers.CapturedLogGrows | api_helpers.py:40-43 | the first write replaces the header; each later write extends the record by exactly its text |
| ApiHelpers.FirstFailure | api_helpers.py:57-226 | the first stage that raises ends the try block: every earlier stage succeeded |
| ApiHelpers.ExecuteFailsAt | api_helpers.py:226-230 | when stage i raises first, the stages before it take effect, and the handler sets `"training_failed"` and changes nothing else |
| ApiHelpers.ExecuteSucceeds | api_helpers.py:57-224 | when no stage raises, every stage takes effect in order |
| ApiHelpers.ExecuteAllPass | api_helpers.py:57-224 | a fresh run in which no stage raises completes every stage of the plan, in order, and applies their effects |
| ApiHelpers.TrainingJob.constructor | api_helpers.py:56-58 | a job starts from the project's stored status, with nothing done, removed or recorded |
| ApiHelpers.TrainingJob.Perform | api_helpers.py:68-222 | running one stage changes the job as that stage's `Effect` says and leaves the process streams alone |
| ApiHelpers.TrainingJob.CaptureTraining | api_helpers.py:117-135 | a training run under capture leaves the log record holding the captured output, and restores the streams |
| ApiHelpers.TrainingJob.FailAt | api_helpers.py:226-230 | the handler reached from stage i leaves exactly the state `Execute` specifies |
| ApiHelpers.TrainingJob.Advance | api_helpers.py:68-222 | a stage that does not raise takes its effect and joins the completed stages |
| ApiHelpers.TrainingJob.RunStages | api_helpers.py:68-222 | the stage loop leaves exactly the state `Execute` specifies for the plan |
| ApiHelpers.TrainingJob.Run | api_helpers.py:55-230 | a missing project raises AttributeError and changes nothing; otherwise status is set to `"training"` with no check of the previous status, then the plan for the model type runs |
| ApiHelpers.ApplyStatus | api_helpers.py:205 | status becomes `"completed"` exactly when the final commit stage has run |
| ApiHelpers.ApplyRecords | api_helpers.py:79-207 | the model record (id `type + "_model_" + uuid`, `.pkl` for ctgan, else `.pt`), the requested row count (`num_rows`), the stored synthetic row count and the score are each set by their own stage |
| ApiHelpers.EffectRecords | api_helpers.py:79-207 | each record field is set by exactly one stage: the model record, the requested rows, the synthetic row count and the score |
| ApiHelpers.ApplyRemovals | api_helpers.py:218-222 | the removed files are exactly the removal stages' files, in order |
| ApiHelpers.ApplyKeepsLog | api_helpers.py:94-135 | only log-record creation and training write the log text |
| ApiHelpers.CleanupRemovesScratch | api_helpers.py:218-222 | cleanup removes the downloaded data, the model file, the encodings file for dgan only, and the synthetic CSV |
| ApiHelpers.PlanShape | api_helpers.py:68-222 | the final commit is the last stage before cleanup; only cleanup removes files; log creation, record linking and training happen only in the head |
| ApiHelpers.PlanStages | api_helpers.py:68-222 | the stages run in source order, with the encodings upload after the model upload and the encodings removal after the model removal for dgan only |
| ApiHelpers.PlanMembers | api_helpers.py:142-222 | every plan generates, records the synthetic artifact and commits; the encodings are uploaded and removed iff the model type is dgan |
| ApiHelpers.JobOutcome | api_helpers.py:205-230 | a run ends `"completed"` iff no stage raises; otherwise it ends `"training_failed"`; no other status is left behind |
| ApiHelpers.JobCleanup | api_helpers.py:217-230 | a completed run removes exactly the scratch files; a run that failed before the final commit removes nothing (the handler deletes nothing) |
| ApiHelpers.CompletedRunRemoves | api_helpers.py:205-222 | a completed run's removals are exactly the cleanup stages' files |
| ApiHelpers.UncommittedRunKeeps | api_helpers.py:217-230 | a run that stops before the final commit removes no file |
| ApiHelpers.FailureAfterMain | api_helpers.py:210-230 | a failure in the removals after the commit overwrites `"completed"` with `"training_failed"` and keeps the recorded score |
| ApiHelpers.CleanupFailureOverwritesCompletion | api_helpers.py:210-230 | the same for the actual plan: a failing scratch-file removal turns a committed run into `"training_failed"` |
| ApiHelpers.JobRecords | api_helpers.py:79-209 | every record stage that completed left its value: the requested rows, the generated file's row count, the score and the model record |
| ApiHelpers.CompletedJobRecordsAll | api_helpers.py:152-209 | a completed run ran every stage, requested `num_rows` rows, and stored the generated row count and the score |
| ApiHelpers.LogAfterHead | api_helpers.py:94-135 | for any tail without log stages: before log creation the log is untouched; between creation and training it holds the header; after record linking it holds the captured training output |
| ApiHelpers.JobLog | api_helpers.py:94-135 | the same three cases for the actual plan |
| ApiHelpers.UnknownModelTypeFails | api_helpers.py:61-66 | a model type other than ctgan/dgan always fails (unbound model path at the upload), never reaches the final commit and removes nothing; it captures no output |
| Common.ConcatAppend | api_helpers.py:42 | joining the buffer after one more write extends the joined text by exactly that write |
| Common.DecimalStringInjective | main.py:136 | different versions print as different decimal strings |

## Left out

- Floating point: success rates, learning rates and quality scores. Rates are exact real quotients (`success / total` as a Dafny `real`), compared exactly; float rounding is not modelled. The score is an opaque real.
- The libraries behind the core. dateutil `parse`, `pd.to_numeric`, pandas dtype inference, sklearn's category order, SDV metadata detection and validation, the gretel model's training and `generate_dataframe`, and the quality report are all parameters. Their internals are not modelled.
- `str.isdigit` is modelled as ASCII digits only; Unicode digits are not modelled.
- ModelHelpers.DganConfigContents: does not state the `sample_len` literal (1) separately, because it falls under "every other key keeps its literal value".
- DganModel.Dganer.GenerateSyntheticData: counts with the resolved `max_sequence_len`, which is the corrected behaviour of the dgan_model.py:78 finding. The as-written count is `GenerationCountAsWritten`. Non-integer lengths other than `'default'` (floats, lists) are not modelled.
- DganModel.Dganer.Train: `train_dataframe` (the gretel training call) is not modelled; the method stops after building the mappings.
- DganModel.Dganer.Train: runs the corrected loop header (`ColumnsToEncode`), so a None `encodable_columns` encodes nothing, where dgan_model.py:59 raises TypeError. This is the dgan_model.py:59 finding; the as-written loop is `TrainingAsWritten`, and `TrainingCorrectsOnlyNull` shows the two differ only on None.
- DganModel.TrainThenRevert: the round trip is promised only when the encodable columns have no blank cells. With a blank cell, `Encode` keeps it NaN and decoding raises on `astype(int)`, as the code does; `BlankColumnBreaksRoundTrip` states it.
- DganModel.SequenceCount: requires a positive length or a request of at most 0. On the other inputs the loop at dgan_model.py:77-80 never stops, which a terminating method cannot model; `CountNeverStops` states it. `SmallFrameNeverStops` shows a newer configurator document for a frame under four rows is such an input (and an older one under two rows, whose resolved length rows // 2 is 0, is another).
- DganModel.Dganer.GenerateSyntheticData: has the same precondition as `SequenceCount`, for the same reason; the generation of a length-0 trainer is not modelled.
- The `save` methods, `generate_synthetic_data_csv`, `show_df` and the progress callback write or print files. The model does not cover them, nor pickle, JSON or CSV serialisation, nor the load-mode file reads. Load mode takes the saved configuration and mappings as a value.
- `os.path.join` is modelled as `/` concatenation.
- ApiHelpers.TrainingJob.Run: SQLAlchemy session semantics are not modelled: commits, rollbacks, autoflush, and the re-query of the project in the handler. A stage that raises has no visible effect, except the training run, whose captured output is already in the log record. The model tracks the in-memory record values.
- ApiHelpers.JobOutcome: assumes the handler's re-query and commit at api_helpers.py:228-230 succeed. When a commit fails during flush (the 409 paths at api_helpers.py:88, 102, 111, 173, 198 and 211, or the commit in `LogCapturer.write` at api_helpers.py:44), the session needs a rollback first. The re-query then raises, `"training_failed"` is never written, and a project whose status was committed as `"training"` stays there. The model does not capture this.
- ApiHelpers.TrainingJob.Run: `model_config_data` (api_helpers.py:70) is not modelled. The same goes for the `ast.literal_eval` of it and the training-time measurement with `time.time()`.
- ApiHelpers.TrainingJob.Run: the generated UUIDs, the buffer folder and the collaborator results come from the environment value.
- Google Drive. google_drive_api.py defines no `download_file` or `upload_file`. The download and uploads are therefore stages that may raise, and whether they raise is part of the environment.
- Concurrency. The FastAPI background task and the process-wide `sys.stdout` swap are not modelled, so logs interleaving across concurrent jobs is not covered. One job's capture is modelled.
- The handler's own `print` after the streams are restored goes to the real stdout. It is not modelled, beyond the fact that it does not reach the log record.
- main.py's `generate_quality_report` option, the quality-report endpoint, the upload's file contents, and the background training task (`train_and_save_model`) are not modelled. `TrainModel` answers only the synchronous reply.
- ctgan_model.py, synthetic_quality_report.py, database.py, auth.py and models.py are not part of this model. They are wrappers over SDV, sdmetrics, SQLAlchemy, bcrypt/JWT and pydantic.
- The argument mismatches in the glue code fall inside the stages that may raise. These are api_helpers.py:185 against synthetic_quality_report.py:8, and model_helpers.py:30,33 against the trainer constructors.

## Findings

| source | as written | input that shows it | evidently intended | confidence | as-written member | corrected member |
|---|---|---|---|---|---|---|
| dgan_model.py:59 | `for column in self.encodable_columns` iterates the configuration value | a document from model_helpers.py `get_dgan_config` for a frame without string-like columns, e.g. one numeric column `x = [1, 2]`: `encodable_columns` is None and `train` raises TypeError | no encodable columns means nothing to encode | not executed | DganModel.NoStringColumnsBreaksTraining | DganModel.TrainingCorrectsOnlyNull |
| dgan_model.py:78 | the count loop multiplies by the raw `main_config["max_sequence_len"]` | a document from helpers.py `get_dgan_config` (as main.py's `/config` returns) keeps `'default'`, so `0 * 'default' < num_examples` raises TypeError | count with the resolved length (rows // 2) that the model was built with | not executed | DganModel.LegacyConfigBreaksGeneration | DganModel.Dganer.GenerateSyntheticData |

`DganModel.NumericFrameMeetsFindings` exhibits a concrete frame that satisfies the preconditions of both as-written lemmas.

### Behaviour of the training job worth knowing

- The job sets the project's status to `"training"` whatever it was before (api_helpers.py:59); nothing checks for `"pending"`. `ApiHelpers.TrainingJob.Run` states this.
- When a stage raises, the handler prints the message after the streams are restored (api_helpers.py:226-227), so the log record never receives it. `ApiHelpers.JobLog` states what the log holds in each case.
- The scratch files are removed only after the final commit (api_helpers.py:217-222). A failing removal there turns `"completed"` into `"training_failed"` (api_helpers.py:226-230). `ApiHelpers.CleanupFailureOverwritesCompletion` states this.
