# xLearn solver lifecycle, modelled in Dafny

This project models `Solver::Initialize` of xLearn, the controller that prepares a run of a
linear, factorization-machine ("fm") or field-aware factorization-machine ("ffm") predictor.
It also models the controller's `StartWork`/`Finalize` mode dispatch. `Initialize` runs these steps:

- it assembles the list of reader files: the cross-validation folds, or the training file plus an optional test file;
- it looks up a parser and readers in the component registry;
- it pre-scans every batch of every reader for the largest feature index and, for "ffm", the largest field id;
- it sizes the parameter vector with the family's formula and builds a fresh model;
- it constructs the updater, the score and the loss, in that order;
- in inference mode it instead loads a model and overwrites the configuration from the model's accessors.

The model is functional. Configurations, rows, batches and readers are immutable datatypes.
A reader is a fixed sequence of batches with a cursor. Each step is a pure function.
Failures are explicit: a `CHECK` abort or an unregistered registry key becomes a `Result` failure.

Modules (one per file):

- `Wrappers` (`wrappers.dfy`): `Option` and `Result`.
- `Errors` (`errors.dfy`): the five component families, the CHECK failures and the initialisation error.
- `Config` (`config.dfy`): the run configuration `HyperParam` and the loaded model's accessor values `ModelMeta`.
- `Data` (`data.dfy`): entries, rows, the batches `Samples` yields, and reader cursor, rewind and delivered rows.
- `MaxScan` (`maxscan.dfy`): `find_max_field` and `find_max_feature`, both as written and corrected.
- `DimensionScan` (`dimscan.dfy`): the pre-scan loop over all readers.
- `Sizing` (`sizing.dfy`): the `num_param` table.
- `FileList` (`filelist.dfy`): the reader file list and fold names, with `%d` decimal formatting and its inverse.
- `Registry` (`registry.dfy`): registry lookup and the `create_*` helpers.
- `Solver` (`solver.dfy`): reconciliation, the training and inference halves of `Initialize`, and `StartWork`/`Finalize`.

These are parameters rather than modelled code:

- `disk: string -> seq<Pull>` gives the batches each file yields.
- `load: string -> ModelMeta` gives the accessor values of the model stored in a checkpoint file.

## Model

| member | source | states |
|---|---|---|
| FileList.ReaderFiles | src/solver/solver.cc:78-103 | With cross-validation it succeeds iff the training path is non-empty and `num_folds > 0`. Otherwise it fails with the CHECK that broke. On success the list has exactly `num_folds` pairwise-distinct names, entry `i` being `train + "_" + decimal(i)` (the loop is `FileList.FoldNames`). Without cross-validation it succeeds iff the training path is non-empty. The list is then `[train]`, or `[train, test]` exactly when the test path is non-empty. |
| FileList.Decimal | src/solver/solver.cc:90-92 | The `%d` rendering of a fold index is at least one decimal digit, all digits, with no leading zero unless the index is 0. |
| FileList.NumReaderMatchesFiles | src/solver/solver.cc:85-104 | The separately counted `num_reader` (`FileList.NumReader`) equals the length of the file list. Without cross-validation it is 2 exactly when a test file is given. |
| FileList.DecimalRoundTrip | src/solver/solver.cc:90-92 | The `%d` rendering of a fold index reads back as the same number. |
| FileList.FoldNameInjective | src/solver/solver.cc:89-94 | Two fold names of one training file are equal only for the same fold index. |
| MaxScan.MaxOfRowsBounds | src/solver/solver.cc:309-320 | The reference column maximum is at least every key in the rows, and is either 0 or equal to one of them. |
| MaxScan.FindMaxColumn | src/solver/solver.cc:309-320 | The double loop returns a value that is at least every key in the first `num_samples` rows. It is 0 when those rows hold no entries, and otherwise equal to one of the keys. On the field column this is `find_max_field`. On the index column it is the corrected `find_max_feature`. |
| MaxScan.FindMaxFeatureAsWritten | src/solver/solver.cc:295-306 | `find_max_feature` as written: compare `idx`, assign the truncated value `X`. The result is 0 or the truncation of some feature value, not necessarily an index. |
| MaxScan.AsWrittenIsAValue | src/solver/solver.cc:300-301 | The as-written fold only ever holds 0 or a truncated feature value. |
| MaxScan.AsWrittenOnBinaryData | src/solver/solver.cc:297-303 | When every value is 1.0, the as-written scan returns 1 if any index is positive and 0 otherwise. |
| MaxScan.AsWrittenMissesMaxIndex | src/solver/solver.cc:300-301 | On binary data whose largest index is at least 2, the as-written scan reports 1, which is strictly below the largest index. |
| DimensionScan.Absorb | src/solver/solver.cc:120-130 | One do-while iteration raises the running maxima to include the batch's filled rows. The field maximum is left untouched unless the family is "ffm". |
| DimensionScan.SentinelAbsorbsNothing | src/solver/solver.cc:119-131 | A batch with `num_samples == 0` leaves the maxima unchanged, so the loop's final iteration cannot change them. |
| DimensionScan.ScanReader | src/solver/solver.cc:119-131 | The do-while over one reader keeps its content. The running maxima only grow, and the field maximum does not move unless the score is "ffm". |
| DimensionScan.ScanReaderFolds | src/solver/solver.cc:119-131 | One pass over a reader joins into the running maxima exactly the rows the reader delivers before the sentinel. |
| DimensionScan.PreScanFrom | src/solver/solver.cc:116-136 | Across readers the maxima never decrease. The field maximum does not move unless the family is "ffm". One reader comes back per input reader; `DimensionScan.PreScanRewinds` proves each is rewound. |
| DimensionScan.PreScan | src/solver/solver.cc:116-136 | The outer loop starts its maxima at 0 and returns one reader per input reader; `DimensionScan.PreScanRewinds` proves each is rewound. Unless the score is "ffm", the field maximum stays 0. |
| DimensionScan.PreScanFromFolds | src/solver/solver.cc:116-133 | Maxima are threaded across readers and never reset. The result is the starting value joined with the maxima of the concatenation of all readers' rows. |
| DimensionScan.PreScanMaxima | src/solver/solver.cc:116-133 | Starting from 0, the maxima are the largest index over all readers' rows together, and the largest field id for "ffm" (0 otherwise). |
| DimensionScan.PreScanIgnoresBatching | src/solver/solver.cc:117-131 | Two reader lists delivering the same rows yield the same maxima, however the rows are cut into batches or files. |
| DimensionScan.PreScanRewinds | src/solver/solver.cc:134-135 | After the pre-scan every reader holds its original batches with its cursor back at the first batch. |
| DimensionScan.RescanSameMaxima | src/solver/solver.cc:134-135 | Readers that start at their first batch come back unchanged, so scanning them again yields the same maxima. |
| Sizing.NumParam | src/solver/solver.cc:140-148 | The parameter count always reserves the bias: `num_param >= max_feat + 1`. |
| Sizing.NumParamLayout | src/solver/solver.cc:140-148 | For every family the count is one bias plus, per feature index, a linear weight and the family's latent block: K for "fm", `max_field * K` for "ffm", none otherwise. |
| Sizing.NumParamMonotone | src/solver/solver.cc:140-148 | Larger feature, field or K dimensions never shrink the parameter count. |
| Sizing.NumParamIgnoresForeignDims | src/solver/solver.cc:140-148 | The field count affects only "ffm". K affects only "fm" and "ffm". |
| Sizing.NumParamDegenerate | src/solver/solver.cc:140-148 | "ffm" with one field is sized like "fm". With K = 0, "fm" and "ffm" are sized like "linear". |
| Sizing.NumParamExamples | src/solver/solver.cc:140-148 | Worked values: fm(100, K=4) = 501; ffm(50, 3 fields, K=8) = 1251; linear(7) = 8. |
| Registry.Create | src/solver/solver.cc:242-247 | A lookup yields nothing exactly when the key is unregistered for that family. Otherwise it yields a component of that family built under that key. |
| Registry.ReaderKey | src/solver/solver.cc:253 | The reader key is "disk" exactly when `on_disk`, else "memory". |
| Registry.CreateParser | src/solver/solver.cc:240-248 | Null exactly when `file_format` is unregistered as a parser. |
| Registry.CreateReader | src/solver/solver.cc:251-259 | Null exactly when the storage-mode key is unregistered as a reader. Otherwise the reader is built under "disk" when `on_disk` and under "memory" otherwise. |
| Registry.CreateUpdater | src/solver/solver.cc:262-270 | Null exactly when `updater_type` is unregistered as an updater. |
| Registry.CreateScore | src/solver/solver.cc:273-281 | Null exactly when `score_func` is unregistered as a score. |
| Registry.CreateLoss | src/solver/solver.cc:284-292 | Null exactly when `loss_func` is unregistered as a loss. |
| Registry.Require | src/solver/solver.cc:243-246 | A null lookup becomes an error naming the family and the key used. A found component passes through unchanged. |
| Solver.Reconcile | src/solver/solver.cc:188-197 | `score_func` and `num_feature` always come from the model. `num_K` does exactly when the model's family is "fm" or "ffm", and `num_field` exactly when it is "ffm". Every other field is unchanged. |
| Solver.ReconcileAgrees | src/solver/solver.cc:188-197 | Afterwards the configuration agrees with the model on every field its family defines. An already agreeing configuration is left alone, and reconciling twice equals reconciling once. |
| Solver.Sized | src/solver/solver.cc:132-148 | Writing the maxima and the parameter count changes only `num_feature`, `num_field` and `num_param`, and the count covers the bias. |
| Solver.InitializeTrain | src/solver/solver.cc:73-171 | Training succeeds iff the file list can be built and all five keys are registered. A file-list CHECK failure is returned as is. A lookup failure names an unregistered family and key that the configuration really selects. When the file list is built and several keys are missing, the failure is the first missing one in the order the source uses them: reader, parser, updater, score, loss (`Solver.FirstMissing`, `Solver.TrainUseOrder`). |
| Solver.TrainReaders | src/solver/solver.cc:104-113 | There is one reader per listed file, in order, as many as `num_reader`. Each is the reader component built under the "disk"/"memory" key that `on_disk` selects. Each is bound to the shared parser and the batch size, and is back at its first batch after the pre-scan. |
| Solver.TrainDimensions | src/solver/solver.cc:115-148 | `num_feature` and `num_field` are the maxima over all rows of all listed files (the field maximum only for "ffm", else 0). `num_param` follows the table and covers the bias. No other configuration field changes. |
| Solver.TrainComponents | src/solver/solver.cc:149-170 | The model is fresh, with a zero start only for "linear". Construction order is parser, readers, updater, score, loss. Updater and score are initialised with the sized configuration and the loss with the score. |
| Solver.InitializeInference | src/solver/solver.cc:173-208 | Inference succeeds iff the parser and reader keys are registered, the inference path is non-empty, and the loaded model's family and `loss_func` are registered. An empty inference path wins over a missing parser or reader. With a non-empty path, the failure is the first missing key, under the reconciled configuration, in the order reader, parser, score, loss. On success the configuration is the reconciled one and the model is the loaded one. There is no updater. The parser is the one built under `file_format`. There is one reader: the component built under the `on_disk` key, bound to the inference file, `batch_size` and that parser. Score (keyed by the model's family, initialised with the reconciled configuration) and loss (initialised with the score) are built in that order. |
| Solver.Initialize | src/solver/solver.cc:59-209 | The mode is preserved. An updater exists exactly in training. The loss is always initialised with the score. |
| Solver.InitializeErrorsAreTrue | src/solver/solver.cc:78-207 | Every failure is truthful. An empty-path or fold CHECK failure names a condition that holds in that mode. A registry failure names a family and the key it was looked up by, and that key is unregistered. |
| Solver.StartWork | src/solver/solver.cc:212-218 | Dispatches to the training loop exactly when in training mode. |
| Solver.Finalize | src/solver/solver.cc:221-227 | Dispatches to the training teardown exactly when in training mode. |
| Solver.ModeIsStable | src/solver/solver.cc:212-227 | After a successful `Initialize`, work and teardown dispatch to the mode the caller asked for, and to the same mode as each other. |

## Left out

- Console and process output (`print_logo`, `printf`, `LOG`, `exit(0)`) is not modelled. It has no effect on the assembled pipeline.
- Argument parsing and validation by `checker_` is an external collaborator. `Initialize` starts from the already-validated configuration.
- Fold-file creation by `splitor_.split` writes files and is external. Only the fold-name convention is modelled.
- Reader and parser internals are abstracted. A file is the fixed sequence of batches `disk` gives. Past its end a reader keeps returning the empty sentinel.
- Model construction is not modelled: no parameter storage, no Gaussian random start, no checkpoint parsing. A fresh model records its size and whether it starts Gaussian. A loaded model is its accessor values, given by `load`.
- The bodies of `start_train_work`, `finalize_train_work`, `start_inference_work` and `finalize_inference_work` are empty in the source. Only the dispatch to them is modelled.
- Fixed-width integers are unbounded here. The model ignores `index_t` and `int` overflow, signedness in `num_param` and in `int tmp`, and the signed/unsigned comparison `tmp > max_feat`.
- MaxScan.TruncIndex: converting a feature value of -1 or below, or one too large for `index_t`, is undefined in C++. The model maps every negative value to 0, which matches the defined truncation of values in (-1, 0). It does not cap large values.
- Solver.InitializeTrain: the source assigns `num_feature`/`num_field` after every reader. The model assigns them once after the last reader. This gives the same values because the file list is never empty.
- Registry.Require: after logging "Cannot create …", the source hands NULL on. For a reader, updater, score or loss it then dereferences NULL at once. For the parser it passes NULL to the readers, which dereference it when they parse. The model stops initialisation with `CannotCreate(kind, key)` where the source first uses the NULL: the descriptive error the log line announces, not the crash. The reader is called at once (lines 110 and 182) while the parser is only handed on, so a missing reader is reported before a missing parser. In inference, both come after the inference-file CHECK at line 181. That a missing parser is reported before a missing score or loss assumes the reader uses its parser as it is initialised at lines 182-184. Reader internals are not part of this model. A reader that parses lazily would let the source reach the score's initialisation at line 202 first, or even finish `Initialize` holding a NULL parser, since the inference work at line 235 does nothing. The construction order recorded in `built` is unchanged: parser first.
- FileList.ReaderFiles: `%s` stops at a NUL character in the training path. The model appends the whole string.

## Findings

| source | as written | input that shows it | evidently intended | confidence | as-written member | corrected member |
|---|---|---|---|---|---|---|
| src/solver/solver.cc:300-301 | `find_max_feature` tests `idx[j] > res` but then assigns `res = X[j]`, the feature value converted to `index_t`. | One row with one entry of index 5 and value 1.0 gives 1, while the largest index is 5. On all-1.0 (binary) data the result is 1 whenever any index is positive, so `num_feature` and `num_param` come out far too small. | `res = idx[j]`: the largest feature index, as `find_max_field` does for fields. | high; not executed | MaxScan.FindMaxFeatureAsWritten, MaxScan.AsWrittenMissesMaxIndex | MaxScan.FindMaxColumn |

The pre-scan (`DimensionScan`) and `Solver` use the corrected maximum of the index column.
