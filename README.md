# EasyBakeML training and file bookkeeping, in Dafny

EasyBakeML is a Django site. A user uploads a CSV file, marks its columns as inputs or targets,
and asks for a model: one of twelve scikit-learn algorithms, or `AUTOMATIC`, which tries a whole
family of them and keeps the best. This project models two parts of the site and proves
properties of them.

**1. The training orchestrator (`easyml/helpers/model_builder.py`).**
- `create_model` first refuses a file without eligible cells.
- It then picks the candidate codes: the requested one, or the classification or regression family.
- It sends each candidate to its trainer through an if-chain.
- It keeps a running best with the test `not best_acc or acc > best_acc`.
- It labels the winner, adding `Automatic_` in automatic mode.
- `save_model` stores the winner under a display name derived from the file's display name.

**2. The twelve `create_*` trainers (`easyml/helpers/model_builder.py`).**
- Each reads its hyperparameters from the caller's parameter bag, with defaults.
- Each records `accuracy` and `accuracy_type` into that same bag.
- Each refits the scored configuration on all the data and returns it.
- The tree and forest trainers can search the depth ladder `1, 10, …, 10000`. They keep the first depth whose score is closest to 1.

**3. Three views (`easyml/mainsite/views.py`).**
- `upload_csv` checks the name and the size. It names the file after its raw name, adding a ` (k)` suffix for the owner's duplicates, exactly as line 41 does it, including the `%`-formatting fault described under Findings. It flattens the table into one cell record per present cell.
- `rename_file` is guarded by ownership and by the owner's existing display names.
- `delete_file` is guarded by the id and by ownership.

### Modules

| file | module | what it holds |
|---|---|---|
| `results.dfy` | `Results` | `Option` and `Result` |
| `text.dfy` | `Text` | decimal rendering and reading of counts, `str.replace(' ', '_')`, `str.endswith`, `str` ordering, the ` (k)` suffix |
| `pyvalues.dfy` | `PyValues` | the Python values in a bag, and the operations applied to them: truth value, `int()`, `>`, `dict.get`, `dict[k]`, `%` |
| `store.dfy` | `Store` | the records (`CsvFile`, and `CellRecord` and `ModelRecord` for the site's `CsvFileData` and `MLModel`), the algorithm codes, and the record store as a `Database` object |
| `trainers.dfy` | `Trainers` | the parameter bag as a mutable object, hyperparameter reading, the depth search, the trainer contract, the twelve trainers |
| `model_builder.dfy` | `ModelBuilder` | `create_model` and `save_model` |
| `views.dfy` | `Views` | `upload_csv`, `rename_file`, `delete_file` |

### How the model is built

**Imperative code stays imperative, and each method is proved against a pure definition.**
- The bag the trainers update in place is a class, `Trainers.ParameterBag`.
- The loop of `create_model` is the method `ModelBuilder.RunCandidates`. It is proved equal to the pure `ModelBuilder.Run`.
- The depth search is the method `Trainers.SearchDepth`. It is proved equal to `Trainers.ChosenDepth`.
- The cell flattening is the method `Views.FlattenTable`. It is proved equal to `Views.TableRecords`.

**The learning library is an oracle, `Trainers.Library`.**
- It gives the held-out score of a configured estimator.
- It gives the out-of-bag score of a forest.
- It gives the model refit on all the data.
- Each score takes a `draw` argument: the position of the candidate in the loop. It stands for that trainer's own random split.
- Each of the three may raise, as a fit does for an unusable hyperparameter (a `C` of 0, an unknown kernel or criterion). A score that raises leaves the bag untouched. A refit that raises comes after the bag was written, so the new `accuracy` stays behind.

**Exceptions.**
- An exception that escapes `create_model` is a `ModelBuilder.Halt`. It carries the bag as it stood when the exception was raised.
- The views' effects are stated on the `Store.Database` fields.

### Where the code and the design disagree (the model follows the code)

- **The saved bag holds the LAST candidate's accuracy, not the winner's.** The bag is saved after the loop, and every trainer overwrites `accuracy`. See `ModelBuilder.RunSelectsWinner` and `ModelBuilder.CreateModelSavesWinner`.
- **A candidate code without a trainer runs no trainer, yet still takes part in the comparison.** On a bag without `accuracy` it raises KeyError, at line 89 when the best is truthy and at line 90 while it is still falsy. Otherwise it compares the bag's existing `accuracy` and may adopt it together with whatever `temp_model` the previous candidate left: no model for a lone request, the previous candidate's model inside a family. See `ModelBuilder.UnmatchedCodeReadsStaleAccuracy` and `ModelBuilder.UnmatchedCodeKeepsPreviousModel`.
- **A best accuracy of exactly `0.0` counts as unset.** The next candidate replaces it even when that candidate is worse. See `ModelBuilder.ZeroBestIsReplaced` and `ModelBuilder.ZeroThenNegativeSelectsNegative`.
- **`save_model`'s duplicate count is not limited to the file.** It counts every model record with the same name (the file's display name) and the same label, across all files.
- **`int()` truncates a custom `logreg_C`.** A `C` of 0.5 becomes 0.
- **`logreg_C_select` chooses the grid search for anything but `'custom'`.**
- **The depth choice searches for any value other than `'none'` and `'custom'`.**
- **The random-forest regressor reads the classifier's `rfc_*` keys.** Its criterion defaults to `'mse'`.
- **Upload display names are not unique per owner.** The suffix counts the owner's files with the same raw name, and deleting a file lowers that count. The rename view, by contrast, refuses a display name the owner already uses.

## Model

| member | source | states |
|---|---|---|
| Text.NatToString | easyml/helpers/model_builder.py:108 | a count renders as a non-empty run of decimal digits, with a leading `0` only for zero |
| Text.ParseNatOfNatToString | easyml/helpers/model_builder.py:108 | reading the rendered digits back gives the count |
| Text.ReplaceSpaces | easyml/helpers/model_builder.py:110 | the length is kept; each space becomes `_`; every other character is kept |
| Text.ReplaceSpacesRemovesSpaces | easyml/helpers/model_builder.py:110 | no space is left after the rewrite |
| Text.CountSuffixReadsBack | easyml/mainsite/views.py:41 | the ` (k)` suffix can be taken apart: the base is a prefix, then ` (`, the decimal digits of k (which read back as k), and `)` |
| PyValues.Trunc | easyml/helpers/model_builder.py:152 | `int()` of a float truncates toward zero: the result lies within 1 of x, on the zero side |
| PyValues.Truthy | easyml/helpers/model_builder.py:89 | definition of Python's truth value (`None`, `False`, zero and `''` are false); stated by `ModelBuilder.Replaces` and `ModelBuilder.ZeroBestIsReplaced` |
| PyValues.ToInt | easyml/helpers/model_builder.py:152 | definition of `int()` on the value kinds a bag holds: booleans, ints, truncated floats and decimal strings convert, `None` raises TypeError and other strings ValueError; stated by `PyValues.Trunc` and the settings functions' contracts |
| PyValues.Greater | easyml/helpers/model_builder.py:89 | `a > b` raises exactly when the two values are neither both numeric nor both strings |
| PyValues.PercentFormatLiteral | easyml/mainsite/views.py:41 | a leading stretch without `%` is copied unchanged in front of the formatted rest |
| PyValues.PercentFormat | easyml/mainsite/views.py:41 | definition of `template % arg` for one argument: `%%`, one `%s`, and the errors for other directives and for a missing or unused argument; stated by `PyValues.PercentFormatLiteral`, `Views.SuffixTemplateRenders`, `Views.PercentInNameFails` and `Views.EscapedPercentCollapses` |
| Store.FindFile | easyml/mainsite/views.py:87 | finds a record with the id when one exists; returns none exactly when no record has it |
| Trainers.LinearRegressionSettings | easyml/helpers/model_builder.py:126-130 | `fit_intercept` and `normalize` are the truth values of their keys when present, and false by default |
| Trainers.LogisticRegressionSettings | easyml/helpers/model_builder.py:142-167 | solver `liblinear` iff the penalty is `'l1'`, else `lbfgs`; for `'custom'` selection (the default), C is `int(logreg_C)` and the call fails iff that conversion fails; any other selection grid-searches C over the 8-value list with 5 folds; a present penalty and `fit_intercept` are used; the all-defaults configuration |
| Trainers.DiscriminantAnalysisSettings | easyml/helpers/model_builder.py:180-181 | the solver is the bag's `lda_solver` when present, `'svd'` by default |
| Trainers.DepthModeOf | easyml/helpers/model_builder.py:197-206 | an absent key means no limit; the search happens iff the value is neither `'none'` nor `'custom'`; `'custom'` reads the custom depth, defaulting to None |
| Trainers.DecisionTreeSettings | easyml/helpers/model_builder.py:195-197 | criterion, presort and depth mode come from the `dtr_*` keys when present; the defaults: criterion `'mse'`, no presort, no depth limit |
| Trainers.ForestSettingsOf | easyml/helpers/model_builder.py:252-254 | fails iff `int(rfc_n_estimators)` fails; a present tree count is `int()` of its value and a present criterion is used as given, the depth mode comes from the `rfc_*` keys; 100 trees, the given criterion and no depth limit by default |
| Trainers.NeighborsSettingsOf | easyml/helpers/model_builder.py:345-348 | fails iff `int()` of k or of p fails; present keys give k and p through `int()` and weights and algorithm as given; the defaults k=5, `'uniform'`, `'auto'`, p=2 |
| Trainers.VectorClassifierSettings | easyml/helpers/model_builder.py:403-407 | fails iff `int(svc_degree)` fails; present keys give the kernel and C as given and the degree through `int()`; the defaults `'rbf'`, 3, C=1.0 |
| Trainers.VectorRegressorSettings | easyml/helpers/model_builder.py:421-424 | fails iff `int(svr_degree)` fails; present keys give the kernel as given and the degree through `int()`; the defaults `'rbf'`, 3 |
| Trainers.DepthLadder | easyml/helpers/model_builder.py:207-213 | the candidate depths are exactly `[1, 10, 100, 1000, 10000]` |
| Trainers.FirstClosestToOne | easyml/helpers/model_builder.py:221 | the index returned has a minimal distance to 1, and every earlier index is strictly farther |
| Trainers.FirstRaising | easyml/helpers/model_builder.py:216-219 | the first position whose fit raised: every earlier one succeeded; none exactly when all succeeded |
| Trainers.ClosestDepth | easyml/helpers/model_builder.py:221-222 | with every fit succeeding, the chosen depth is on the ladder; no ladder depth scores closer to 1; every shallower depth scores strictly farther |
| Trainers.ChosenDepth | easyml/helpers/model_builder.py:216-222 | the search fails iff some ladder depth's fit raises, and then with the error of the first such depth in ladder order; otherwise it picks `ClosestDepth` |
| Trainers.ChosenDepthIsClosest | easyml/helpers/model_builder.py:216-222 | a successful search had every ladder fit succeed, and its depth scores closest to 1 and strictly closer than every shallower depth |
| Trainers.SearchDepth | easyml/helpers/model_builder.py:207-222 | the two loops (build the ladder, score each depth, stopping at the first fit that raises) and the minimum pick return `ChosenDepth` |
| Trainers.DepthOf | easyml/helpers/model_builder.py:200-222 | the depth a tree or forest trainer uses is `ResolveDepth` of its mode: none, the custom value, or the search's outcome |
| Trainers.TreeProbe | easyml/helpers/model_builder.py:216-219 | definition of the decision tree's search criterion: the held-out score of a tree of that depth, with the trainer's presort and criterion, on the trainer's own split; stated through `Trainers.ChosenDepth` and `Trainers.TrainContract` |
| Trainers.ForestClassifierProbe | easyml/helpers/model_builder.py:273-279 | definition of the forest classifier's search criterion: the out-of-bag score of a forest of that depth fitted with `oob_score=True`; stated through `Trainers.ChosenDepth` and `Trainers.TrainContract` |
| Trainers.ForestRegressorProbe | easyml/helpers/model_builder.py:319-325 | definition of the forest regressor's search criterion, the same out-of-bag score for a regressor; stated through `Trainers.ChosenDepth` and `Trainers.TrainContract` |
| Trainers.ResolveDepth | easyml/helpers/model_builder.py:200-222 | definition of the depth a mode gives: `None`, the custom value as read, or the searched depth with the search's exception; stated by `Trainers.DepthOf`, `Trainers.ChosenDepth` and `Trainers.ChosenDepthIsClosest` |
| Trainers.ConfigureReadsOnlyReadKeys | easyml/helpers/model_builder.py:125-434 | a trainer's configuration depends only on the hyperparameter keys it reads |
| Trainers.AccuracyKind | easyml/helpers/model_builder.py:135 | definition of the `accuracy_type` a trainer writes (`'R^2'` for the regressors, `'Accuracy [%]'` for the classifiers, lines 135-430); stated by `Trainers.TrainContract` |
| Trainers.Configure | easyml/helpers/model_builder.py:125-434 | definition of the estimator each of the twelve trainers builds from the bag, including the depth search; stated by `Trainers.TrainContract`, `Trainers.ConfigureReadsOnlyReadKeys` and `Trainers.TrainOnAgreeingBag` |
| Trainers.ScoreAndRefit | easyml/helpers/model_builder.py:132-138 | definition of the shared tail (score, record, refit); stated by `Trainers.FitScoreRefit` and `Trainers.TrainContract` |
| Trainers.Recorded | easyml/helpers/model_builder.py:134-135 | definition of the two writes every trainer makes, `accuracy` and `accuracy_type`; stated by `Trainers.RecordKeepsReadKeys` and `Trainers.TrainContract` |
| Trainers.Train | easyml/helpers/model_builder.py:125-434 | definition of one trainer call; stated by `Trainers.TrainContract`, `Trainers.TrainWithNeverRaisingLibrary` and the twelve `Create*` methods |
| Trainers.RecordKeepsReadKeys | easyml/helpers/model_builder.py:134-135 | writing `accuracy` and `accuracy_type` changes no key any trainer reads |
| Trainers.TrainContract | easyml/helpers/model_builder.py:125-138 | the contract of every trainer: it fails iff configuring fails (a hyperparameter does not convert, or a depth-search fit raises) or the library raises while scoring or refitting; a failure before the score is written leaves the bag as it was, and a failing refit leaves the new `accuracy` and `accuracy_type` in it; on success the bag gains exactly `accuracy` and `accuracy_type` and keeps every other entry; `accuracy_type` is `'R^2'` for regressors and `'Accuracy [%]'` for classifiers; `accuracy` is the held-out score of the configured estimator; the returned model is the refit of that same configuration |
| Trainers.TrainWithNeverRaisingLibrary | easyml/helpers/model_builder.py:125-434 | given a library that never raises, a trainer fails iff a hyperparameter does not convert, then only with TypeError or ValueError and with the bag unchanged |
| Trainers.TrainOnAgreeingBag | easyml/helpers/model_builder.py:125-138 | a trainer run on a bag that agrees with another on the read keys fits the other bag's configuration and records into its own bag |
| Trainers.FitScoreRefit | easyml/helpers/model_builder.py:132-138 | the shared tail does what `ScoreAndRefit` says: a score that raises leaves the bag unchanged; otherwise the bag gets the held-out score and its kind, and then the refit is returned or its error raised |
| Trainers.CreateLinearRegressionModel | easyml/helpers/model_builder.py:125-138 | does what `Train` says: the model and the new bag on success; on an exception the error, with the bag as the trainer left it |
| Trainers.CreateLogisticRegressionModel | easyml/helpers/model_builder.py:141-176 | as above, for logistic regression |
| Trainers.CreateLinearDiscriminantAnalysis | easyml/helpers/model_builder.py:179-191 | as above, for linear discriminant analysis |
| Trainers.CreateDecisionTreeRegressor | easyml/helpers/model_builder.py:194-235 | as above; the depth comes from `SearchDepth` on the tree's held-out scores |
| Trainers.CreateGaussianNaiveBayes | easyml/helpers/model_builder.py:238-248 | as above, for Gaussian naive Bayes |
| Trainers.CreateRandomForestClassifier | easyml/helpers/model_builder.py:251-294 | as above; the depth search uses the out-of-bag score of forests fitted with `oob_score=True` |
| Trainers.CreateRandomForestRegressor | easyml/helpers/model_builder.py:297-341 | as above, with the `rfc_*` keys and the default criterion `'mse'` |
| Trainers.CreateKNearestNeighborsClassifier | easyml/helpers/model_builder.py:344-363 | as above, for the neighbours classifier |
| Trainers.CreateKNearestNeighborsRegressor | easyml/helpers/model_builder.py:366-385 | as above, for the neighbours regressor |
| Trainers.CreateNearestCentroid | easyml/helpers/model_builder.py:388-399 | as above, for nearest centroid |
| Trainers.CreateSupportVectorMachineClassifier | easyml/helpers/model_builder.py:402-417 | as above, for the support vector classifier |
| Trainers.CreateSupportVectorMachineRegressor | easyml/helpers/model_builder.py:420-434 | as above, for the support vector regressor |
| ModelBuilder.Candidates | easyml/helpers/model_builder.py:39-45 | a non-automatic request tries exactly the requested code; an automatic one raises KeyError without `auto_alg_type`, tries the classification family iff it is `'auto_classification'`, and otherwise the regression family |
| ModelBuilder.Replaces | easyml/helpers/model_builder.py:89 | a falsy best is always replaced; otherwise a missing `accuracy` raises KeyError, and the answer is Python's `accuracy > best` |
| ModelBuilder.WinnerLabel | easyml/helpers/model_builder.py:93-96 | the label is `'Automatic_' + name` iff the request was automatic, else the name; KeyError iff the code has no name |
| ModelBuilder.Consider | easyml/helpers/model_builder.py:89-96 | the bag and `temp_model` are never changed; a kept best leaves the state unchanged; an error in the test escapes; a replacement takes the bag's accuracy, its kind, `temp_model` and the winner's label, and fails iff a key or the name is missing |
| ModelBuilder.Dispatched | easyml/helpers/model_builder.py:53-87 | definition of the if-chain: a code with a trainer runs `Train`, any other code leaves the bag and `temp_model` as they were; stated by `ModelBuilder.Dispatch`, `ModelBuilder.ChainTrainsAs` and `ModelBuilder.UnmatchedCodeKeepsPreviousModel` |
| ModelBuilder.Initial | easyml/helpers/model_builder.py:47-51 | definition of the loop state before the first candidate: no best accuracy, kind or model, no `temp_model`, and the requested code's label; stated through `ModelBuilder.Training` by `ModelBuilder.RunSelectsWinner` and `ModelBuilder.UnmatchedCodeReadsStaleAccuracy` |
| ModelBuilder.Step | easyml/helpers/model_builder.py:52-96 | definition of one loop iteration (dispatch, then `Consider`); stated by `ModelBuilder.UnmatchedCodeKeepsPreviousModel`, and through `ModelBuilder.Run` by `ModelBuilder.RunCandidates` and `ModelBuilder.RunSelectsWinner` |
| ModelBuilder.Run | easyml/helpers/model_builder.py:52-96 | definition of the loop over the candidates, stopping at the first exception; stated by `ModelBuilder.RunCandidates`, `ModelBuilder.RunSelectsWinner` and `ModelBuilder.FailingTrainerHalts` |
| ModelBuilder.Training | easyml/helpers/model_builder.py:32 | a requested code with no name raises KeyError before any trainer runs |
| ModelBuilder.Select | easyml/helpers/model_builder.py:47-96 | the running best over recorded float accuracies exists exactly for a non-empty run and is one of its positions |
| ModelBuilder.SelectFirstMaximum | easyml/helpers/model_builder.py:89 | with no zero score, the winner has the maximum score, and every earlier candidate scored strictly less (ties keep the earlier) |
| ModelBuilder.StrictlyIncreasingSelectsLast | easyml/helpers/model_builder.py:89 | strictly increasing accuracies select the last candidate |
| ModelBuilder.ZeroBestIsReplaced | easyml/helpers/model_builder.py:89 | a running best of exactly 0.0 is replaced by the next candidate, whatever its score |
| ModelBuilder.ZeroThenNegativeSelectsNegative | easyml/helpers/model_builder.py:89 | accuracies `0.0, -0.5` select the second candidate |
| ModelBuilder.RunSelectsWinner | easyml/helpers/model_builder.py:47-96 | when every candidate trains, the loop ends with the candidate `Select` picks as the best, with its accuracy, kind, model and label; the bag holds the last candidate's accuracy |
| ModelBuilder.ChainTrainsAs | easyml/helpers/model_builder.py:53-87 | the if-chain trains every trainable candidate: each records its own score and kind into the bag it is given and returns its refit |
| ModelBuilder.UnmatchedCodeReadsStaleAccuracy | easyml/helpers/model_builder.py:52-96 | a code without a trainer raises KeyError when the bag has no `accuracy`; otherwise it adopts the bag's existing accuracy and kind, with no model |
| ModelBuilder.UnmatchedCodeKeepsPreviousModel | easyml/helpers/model_builder.py:52-96 | at any point of the loop, an unmatched code that replaces the best adopts the bag's accuracy and kind together with the PREVIOUS candidate's `temp_model`, under its own label, and changes neither the bag nor `temp_model` |
| ModelBuilder.FailingTrainerHalts | easyml/helpers/model_builder.py:52-87 | a trainer whose hyperparameters do not convert ends `create_model` with that error, and the bag is as the trainer found it |
| ModelBuilder.FailingRefitKeepsAccuracy | easyml/helpers/model_builder.py:132-136 | a refit that raises after scoring ends `create_model` with that error, and the bag keeps the `accuracy` and `accuracy_type` just written |
| ModelBuilder.ModelDisplayName | easyml/helpers/model_builder.py:104-110 | the name has no spaces; it is `<file>_<label>` with spaces turned into `_`, followed by `_(n)` iff n > 0 |
| ModelBuilder.SameNameCount | easyml/helpers/model_builder.py:106 | the count is positive iff some model record has this name and this label |
| ModelBuilder.SaveRecord | easyml/helpers/model_builder.py:102-122 | DoesNotExist iff the file is missing; otherwise the record carries the file's display name, the derived display name, the label, the requested code, the model, the bag, the file id and the best accuracy and kind |
| ModelBuilder.SaveModel | easyml/helpers/model_builder.py:102-122 | appends exactly `SaveRecord` to the model table and changes nothing else |
| ModelBuilder.CreateModelEffect | easyml/helpers/model_builder.py:21-99 | without eligible cells nothing happens; a record is saved iff training succeeds, a best model exists and the file exists; the record carries the REQUESTED code, the file id and the final bag; otherwise the model table is unchanged |
| ModelBuilder.HasEligibleData | easyml/helpers/model_builder.py:22-27 | definition of the no-data test: some cell of the file is not in an ignored column; stated by `ModelBuilder.CreateModelEffect` |
| ModelBuilder.Dispatch | easyml/helpers/model_builder.py:53-87 | the if-chain over the twelve trainer methods does what `Dispatched` says to the bag and `temp_model` |
| ModelBuilder.UpdateBest | easyml/helpers/model_builder.py:89-96 | the imperative update of the running best does what `Consider` says |
| ModelBuilder.RunCandidates | easyml/helpers/model_builder.py:52-96 | the loop returns `Run` of the candidates, and the caller's bag ends as `Run` leaves it |
| ModelBuilder.CreateModel | easyml/helpers/model_builder.py:21-99 | returns, leaves in the bag and leaves in the model table exactly `CreateModelEffect`; files, cells and ids unchanged |
| ModelBuilder.CreateModelSavesWinner | easyml/helpers/model_builder.py:21-99 | with eligible cells, an existing file and trainable candidates, the saved record holds the refit, accuracy, kind and label of the candidate `Select` picks, under the requested code; the saved bag has the last candidate's accuracy |
| Views.Count | easyml/mainsite/views.py:40-41 | a `filter(...).count()` is at most the table size, and positive iff some record matches |
| Views.SameRawCount | easyml/mainsite/views.py:40-41 | definition of the owner's files with this raw name, the count line 41 formats; stated by `Views.UploadedNameCountsDuplicates` and `Views.PercentInNameFails` |
| Views.SameDisplayCount | easyml/mainsite/views.py:105 | definition of the owner's files shown under this display name; stated by `Views.RenameCheck` and `Views.RenameToOwnNameRefused` |
| Views.Stem | easyml/mainsite/views.py:38 | `name[:-4]` is a prefix of the name, four characters shorter, or empty for a shorter name |
| Views.StemOfCsvName | easyml/mainsite/views.py:30-38 | `<s>.csv` passes the extension check, and its stem is `s` |
| Views.CsvNameIsStemAndExtension | easyml/mainsite/views.py:30-38 | a name that passes the check is its stem followed by `.csv` |
| Views.CsvDisplayName | easyml/mainsite/views.py:38-43 | the corrected naming rule: with no earlier upload the name is the stem; otherwise the stem, then ` (`, the decimal digits of the count (which read back as it), and `)` |
| Views.PercentFreeNamesAgree | easyml/mainsite/views.py:41 | for a stem without `%`, the line as written gives the intended display name |
| Views.AsWrittenCsvDisplayName | easyml/mainsite/views.py:40-41 | definition of line 41 as written, the stem `%`-formatted with the suffix; stated by `Views.PercentFreeNamesAgree`, `Views.PercentInNameFails`, `Views.EscapedPercentCollapses` and `Views.UploadedNameCountsDuplicates` |
| Views.PercentInNameFails | easyml/mainsite/views.py:40-44 | a second upload of `50%.csv` raises ValueError at line 41 instead of being named `50% (1)`, so the upload ends with no file record saved |
| Views.EscapedPercentCollapses | easyml/mainsite/views.py:41-43 | a second upload of `a%%.csv` is saved under the name `a% (1)` instead of `a%% (1)` |
| Views.FlattenTable | easyml/mainsite/views.py:49-60 | the nested loop emits exactly `TableRecords` of the whole table |
| Views.TableRecords | easyml/mainsite/views.py:49-60 | definition of the cell records of the first n rows; stated by `Views.TableRecordsSound`, `Views.TableRecordsComplete`, `Views.TableRecordsRowMajor`, `Views.TableRecordsCount` and `Views.FlattenTable` |
| Views.TableRecordsSound | easyml/mainsite/views.py:53-59 | every record belongs to a present cell, with that cell's value, its row number, its column position and that column's header |
| Views.TableRecordsComplete | easyml/mainsite/views.py:50-60 | every present cell has its record |
| Views.TableRecordsRowMajor | easyml/mainsite/views.py:50-51 | the records come row by row, and by ascending column within a row |
| Views.TableRecordsCount | easyml/mainsite/views.py:53-54 | there are exactly as many records as present cells, and none for a missing cell |
| Views.UploadOutcomeOf | easyml/mainsite/views.py:29-46 | no file, a name not ending in `.csv`, a file in several chunks, line 41 raising (with its error), an unreadable table, or success; a file record is written exactly when the name and size checks pass and line 41 names the file, under the next id |
| Views.UploadedRecord | easyml/mainsite/views.py:38-43 | definition of the record line 43 creates, named by the line as written; stated by `Views.UploadedNameCountsDuplicates`, `Views.UploadOutcomeOf` and `Views.UploadCsv` |
| Views.UploadedNameCountsDuplicates | easyml/mainsite/views.py:38-43 | line 41 names the new file by its stem when the owner has no upload of that raw name; for a stem without `%` it never raises, and for a duplicate the name is the stem, ` (`, the decimal digits of the number of such uploads (which read back as it), and `)` |
| Views.AppendingKeepsIdsUnique | easyml/mainsite/views.py:43-44 | a record saved under the next id keeps the ids distinct |
| Views.UploadCsv | easyml/mainsite/views.py:22-62 | the outcome is `UploadOutcomeOf`; rejected uploads and a naming error at line 41 change nothing; an accepted one appends its file record named as line 41 is written (and consumes one id), then appends `TableRecords` of the table when it reads; the store stays valid |
| Views.RenameCheck | easyml/mainsite/views.py:102-107 | DoesNotExist iff there is no such file; refused iff the caller is not the owner; taken iff the owner has any file of that display name, the file itself included; otherwise renamed |
| Views.WithDisplayName | easyml/mainsite/views.py:110-111 | definition of the table after the rename; stated by `Views.RenameFile` and `Views.RenameKeepsNamesDistinct` |
| Views.RenameKeepsNamesDistinct | easyml/mainsite/views.py:105-111 | a rename that passes the guards keeps each owner's display names distinct when they were distinct before (uploads do not keep them distinct) |
| Views.RenameToOwnNameRefused | easyml/mainsite/views.py:105-107 | renaming a file to its current name is refused as taken |
| Views.RenameFile | easyml/mainsite/views.py:98-114 | the outcome is `RenameCheck`; only a successful rename changes anything, and it changes that file's display name only |
| Views.DeleteCheck | easyml/mainsite/views.py:82-91 | a falsy id is invalid; otherwise `int(id)` must convert and the file must exist; only the owner may delete it |
| Views.WithoutFile | easyml/mainsite/views.py:93 | definition of the table after the delete; stated by `Views.WithoutFileShifts`, `Views.RemovingKeepsTheOthers`, `Views.RemovedIdIsGone` and `Views.DeleteRemovesExactlyThatFile` |
| Views.RemovingKeepsTheOthers | easyml/mainsite/views.py:93 | removing a record adds nothing and keeps every record with another id |
| Views.RemovedIdIsGone | easyml/mainsite/views.py:93 | with distinct ids, no record left has the removed id |
| Views.DeleteRemovesExactlyThatFile | easyml/mainsite/views.py:86-93 | a delete that passes the guards removes exactly the file with that id, keeps all others, and keeps the ids distinct |
| Views.DeleteFile | easyml/mainsite/views.py:81-95 | the outcome is `DeleteCheck`; only a passed guard changes anything, and it removes that one file record |

## Left out

- **The learning library.** This covers fitting, `score`, `predict`, `oob_score_`, `train_test_split`, `GridSearchCV`, `StandardScaler` and `Pipeline`. They are replaced by the oracle `Trainers.Library`, and an estimator is only its configuration. Which configurations make the library raise, and with which exception type, is the oracle's choice; the model fixes only where an exception can arise and what it leaves in the bag. `train_test_split` itself is taken never to raise. Scores are exact reals. This leaves out the `round(..., 4)` of regressor scores and the match-rate helper `get_match_acc` (in `helpers/util.py`, which is not part of this model).
- **Reading the data.** `get_dataframe` and the input/target split of `create_model` (lines 29-37) are left out; only the eligibility test of lines 22-27 is modelled. `helpers/util.py` is not part of this model.
- **The constants.** The algorithm codes, the name map and the two families live in `helpers/constants.py`, which is not part of this model. The codes are the enumeration `Store.Algorithm`. The name map is a partial map, so a code missing from it raises KeyError as Python would. The families are given sequences.
- **Output and the framework.** This covers `print` (line 26 of the model builder), the `messages` channel, rendering, redirects, and the GET branch of `upload_csv` (lines 23-25). The handler of lines 64-68 is left out as well. Under Python 3, `traceback.format_exc(e)` at line 65 takes the exception as its `limit` argument, and comparing that with 0 raises TypeError. The request then ends in a server error, and neither message of lines 66 and 68 is sent. Only under Python 2 would the user see the error followed by the success message. The store effects modelled are the same either way.
- **The record store.** The Django ORM becomes the in-memory sequences of `Store.Database`. `json.dumps` of the bag is left out: the bag is stored as the map itself. Ids come from a counter that never reuses a value, like an auto-increment key.
- **`pd.read_csv`.** The parsed table is an input. A read error is `None`. A NaN cell is `None`. Rows are numbered by position, as with the default index. Duplicate headers (which pandas renames) are not modelled.
- **The size test.** `multiple_chunks()` is an input flag.
- **`Views.UploadCsv`: the column type of new cell records.** Line 55 leaves it to the field's default, which `mainsite/models.py` defines. That file is not part of this model, so the role is a parameter.
- **`Views.DeleteFile`: deleting a file's cells and models.** Any cascade follows the foreign keys' `on_delete` in `mainsite/models.py`, which is not part of this model. The model removes only the file record.
- **`Views.RenameFile`: a missing form field.** An absent `display_name` (None) and ORM conversion of a non-numeric `file_id` are not modelled. The id is a number, and a missing file raises DoesNotExist.
- **`PyValues.ToInt`: `int()` of a string.** Only an optional sign followed by decimal digits is recognised. Surrounding whitespace and `_` separators are not.
- **`PyValues.PercentFormat`: the exact exception type.** Every directive other than `%%` and `%s` is reported as ValueError. Python raises TypeError for some of them, such as `%d` consuming the only argument. Either way the call raises, which is all the view depends on.
- **`PyValues.Greater`: only numbers and strings are compared.** Python's comparison of other types (lists, tuples) is not modelled; they raise TypeError here.
- **`ModelBuilder.Training`: its own contract states only the name lookup.** What the loop computes is stated by `ModelBuilder.RunSelectsWinner`, `ModelBuilder.UnmatchedCodeReadsStaleAccuracy` and `ModelBuilder.FailingTrainerHalts`, and by `ModelBuilder.RunCandidates`' equality with `Run`.
- **`Views.UploadedNameCountsDuplicates`: nothing general for a duplicate whose stem contains `%`.** There line 41 may raise or rename, depending on the directives in the stem. `Views.PercentInNameFails` and `Views.EscapedPercentCollapses` show one case of each, and `Views.UploadOutcomeOf` covers every case through `PyValues.PercentFormat`.
- **`ModelBuilder.RunSelectsWinner`: only runs in which every candidate trains.** A failing candidate stops the loop, as `ModelBuilder.FailingTrainerHalts` and `ModelBuilder.FailingRefitKeepsAccuracy` show for a single request. No lemma covers a failure part-way through a family.
- **Thin views.** `SignUp`, `index` and `manage_data` have no logic of their own.
- **Concurrency.** Two requests racing on the same names or ids are not modelled; each view runs alone.

## Findings

| source | as written | input that shows it | evidently intended | confidence | as-written member | corrected member |
|---|---|---|---|---|---|---|
| easyml/mainsite/views.py:41 | `(csv_name + ' (%s)') % count` formats the user's file name itself, so a `%` in the name is read as a directive | a second upload of `50%.csv` by the same owner: `'50% (%s)' % 1` raises ValueError before the record is saved at line 44, so the upload is lost (under Python 3 the handler at line 65 then raises too, so the request ends in a server error); `a%%.csv` is silently named `a% (1)` | `csv_name + ' (%s)' % count`: only the suffix is formatted, giving `50% (1)` | high (not executed) | Views.PercentInNameFails | Views.CsvDisplayName |

`Views.UploadCsv` names files by line 41 as written, through `Views.AsWrittenCsvDisplayName`, so the model keeps the fault. `Views.CsvDisplayName` is the corrected rule with its properties proved, and `Views.PercentFreeNamesAgree` shows that the two agree on every name without `%`.
