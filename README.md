# A verified model of the mlops-gcp pipeline triggers and evaluators

This project models the decision logic of the ferneutron/mlops-gcp
repository in Dafny and proves what that logic guarantees. The repository
starts Kubeflow (KFP) pipelines on Vertex AI and picks the model they
deploy. The model covers:

- **The Go trigger** (`cloud-functions/houses/houses.go`), the
  `/run-beans-pipeline` handler:
  - validates the JSON request;
  - builds the Artifact Registry template path;
  - merges the configuration into the pipeline parameters, defaulting
    `email_addresses`;
  - converts the parameters to protobuf values;
  - submits one pipeline job;
  - polls its state up to seven times;
  - answers 200, 400 or 500.

  The job and the service client are classes, and the service's answers
  are scripted. `HousesRequest` holds validation, template and parameter
  handling; `HousesPoll` holds the poll; `HousesHandler` composes them.
- **The Python trigger** (`cloud-functions/beans/main.py`), modelled as
  one pure function from the request and a script of what the
  `aiplatform` SDK does. It returns the reply, the SDK request if one was
  made, and the printed diagnostic (`BeansTrigger`).
- **The custom evaluation component.** Both copies, in
  `vertex-pipelines/` (lines 47-69) and `pipelines/` (lines 35-57), run
  the same logic, modelled once (`CustomEvaluation`). It scores four
  candidate models, keeps the first with the strictly highest AUC (0.0 if
  none is higher), logs every score and the winner, and points the output
  model at the winner's path.
- **The AutoML evaluation component**
  (`src/components/evaluators/automl_evaluation.py`, `AutomlEvaluation`).
  It reads the model's evaluations, records the ROC curve, confusion
  matrix and textual metrics of the first one, and checks the `auRoc` /
  `auPrc` thresholds.
- **The split component's pure parts**
  (`vertex-pipelines/components/utils/custom_split.py`, `CustomSplit`):
  extracting the BigQuery dataset and table from a `bq://` URI, and
  relabelling the bean classes to 0..6 in place.

Shared modules:

- `Text`: Python's `str.split`, `in` and ASCII `lower()`.
- `KeyOrder`: the first missing key, in order.
- `RegistryPath`: registry paths and their parser.
- `PyRuntime`: Python dict subscription, `get`, iteration, `<` and
  append-until-exception loops over JSON values.
- `Kfp`: the KFP `Metrics`, `ClassificationMetrics` and `Model` output
  artifacts. A metrics artifact is a dict from metric name to value, so
  logging a name again overwrites its value.

Where the comments and the code disagree, the model follows the code.
Where the code cannot work as written, the model takes the evident
intent and says so:

- The Go poll loop runs while `attempt <= maxAttemptsStatus`. With the
  constant 6 it fetches the state up to seven times, not six.
- The Python trigger's registry host is written `-kfp.pkg.***` on line 45
  of `main.py`. It is kept as written, and its round-trip is proved for
  that host just as the Go host `-kfp.pkg.dev` is.
- `submitPipelineJob` reads `serviceAccount` on line 330, which is not in
  its scope (its parameter is `stagingBucket`). The model passes the
  handler's `service_account` value, the evident intent.
- The `email_addresses` default is used in its corrected form, a
  `[]interface{}` holding the address, by the handler model. The `[]string`
  the code writes is modelled on its own and shown to block submission
  (see Findings).

## Model

| member | source | states |
|---|---|---|
| HousesRequest.ReadFields | cloud-functions/houses/houses.go:97-192 | The configuration fields are read in order. The read succeeds iff every field is present and a string, and then yields each field's text. Otherwise it stops at the first field that fails, all earlier ones being present strings: a missing field answers 400 FAILED, with no job name, naming that field; a field that is not a string panics with Go's interface-conversion message for it. |
| HousesRequest.ValidateRequest | cloud-functions/houses/houses.go:67-192 | A malformed body answers 400 "Invalid request body: …". A missing `config_values`, then `parameter_values`, answers 400 naming it. With both present, a `config_values` that is not a JSON object, then a `parameter_values` that is not one, panics in the `map[string]interface {}` type assertion (gin answers 500). With both objects, a failed read of the configuration fields gives exactly that read's 400 or `v.(string)` panic. Every rejection is 400 FAILED with a null job name. The request is valid iff both keys hold objects and all eight configuration fields are strings, and the job configuration then holds exactly those eight strings. |
| HousesRequest.FirstAbsentFieldNamed | cloud-functions/houses/houses.go:98-192 | When the first `k` fields are strings and field `k` is absent, the rejection names field `k`. |
| HousesRequest.FirstNonStringPanics | cloud-functions/houses/houses.go:97-192 | With the fields before it present strings, a present field that is not a string makes the read panic in its `v.(string)` assertion. |
| HousesRequest.MissingConfigFieldRejected | cloud-functions/houses/houses.go:93-192 | The whole validation rejects a request whose first absent configuration field is `k` with "Missing required parameter: k". |
| HousesRequest.TemplatePathRoundTrip | cloud-functions/houses/houses.go:195-226 | The template path is the registry path of (location, project, repo, name, tag) under host `-kfp.pkg.dev`. For slash-free segments, parsing it gives back those five coordinates. |
| HousesRequest.PrepareParameters | cloud-functions/houses/houses.go:197-205 | The merged keys are the parameter keys, the configuration keys and `email_addresses`. Configuration values override parameters and other parameters are kept. A missing email gets the default in its corrected `[]interface{}` form (see Findings); the `[]string` as written is modelled by EmailDefaultAsWrittenBlocksSubmission. |
| HousesRequest.AssertStrings | cloud-functions/houses/houses.go:306-310 | A list converts iff every item is a string, and then yields those strings in order; otherwise the panic names the first item that is not a string. |
| HousesRequest.ConvertValue | cloud-functions/houses/houses.go:290-317 | A string, int or float64 becomes a StringValue, IntValue or DoubleValue holding the same value. A non-empty all-string list becomes its first string; an empty list panics on index 0, and a list with a non-string panics at the first one. Every other type is unsupported and reported by its Go type name. |
| HousesRequest.ConvertParameters | cloud-functions/houses/houses.go:288-318 | The conversion completes iff every parameter converts, and then it converts each parameter under its own name. Otherwise it reports the type name of an unsupported parameter, or the panic of a bad list. |
| HousesRequest.EmailDefaultAsWrittenBlocksSubmission | cloud-functions/houses/houses.go:197-200 | With the default written as a `[]string`, any request without `email_addresses` fails conversion with "unsupported parameter type: []string". |
| HousesRequest.DefaultEmailConverts | cloud-functions/houses/houses.go:197-200 | The corrected default converts to the string "dummy@example.com". |
| KeyOrder.FirstMissing | cloud-functions/houses/houses.go:79-90 | The result is None iff every key is present; otherwise it is the first key, in order, that is absent. |
| KeyOrder.FirstMissingIsFirst | cloud-functions/beans/main.py:31-42 | When the first `k` keys are present and key `k` is not, key `k` is the one reported. |
| KeyOrder.FirstMissingOfTwo | cloud-functions/beans/main.py:23-26 | For two required keys, the first is reported if absent, else the second, else none. |
| RegistryPath.RoundTrip | cloud-functions/houses/houses.go:195-226 | Parsing a registry path built from slash-free coordinates gives those coordinates back. |
| RegistryPath.Injective | cloud-functions/houses/houses.go:195-226 | Two different slash-free coordinate sets never share a template path. |
| HousesPoll.PipelineServiceClient.GetPipelineJob | cloud-functions/houses/houses.go:52-54 | Each state fetch takes the service's next scripted answer, counts one call and records the job name it asked for. |
| HousesPoll.PipelineServiceClient.CreatePipelineJob | cloud-functions/houses/houses.go:334-339 | Each creation request is recorded once, in order, and the service's answer is returned. |
| HousesPoll.PipelineJob.constructor | cloud-functions/houses/houses.go:224-228 | A new job has the display name, template path and parameters given, no name and an unspecified state. |
| HousesPoll.PipelineJob.GetPipelineJobState | cloud-functions/houses/houses.go:51-60 | One fetch. A fetched state replaces the job's state; an error is returned and leaves the state unchanged. |
| HousesPoll.PollBounded | cloud-functions/houses/houses.go:343-361 | The poll makes at least one and at most `maxAttemptsStatus + 1` = 7 fetches. A reached state is RUNNING or FAILED. |
| HousesPoll.PollTimesOutIff | cloud-functions/houses/houses.go:343-360 | The poll times out iff all seven fetches succeed with a state other than RUNNING or FAILED. |
| HousesPoll.PollReachedIff | cloud-functions/houses/houses.go:345-354 | The poll ends in state `s` after `n` fetches iff the earlier fetches were quiet and fetch `n` returned `s`, which is RUNNING or FAILED. |
| HousesPoll.PollFetchErrorIff | cloud-functions/houses/houses.go:346-349 | The poll ends with error `e` after `n` fetches iff the earlier fetches were quiet and fetch `n` failed with `e`. |
| HousesPoll.RunningOnThirdFetch | cloud-functions/houses/houses.go:343-361 | A service that reports RUNNING on the third fetch ends the poll in RUNNING after exactly three fetches. |
| HousesPoll.WaitForPipelineJobState | cloud-functions/houses/houses.go:343-361 | The loop makes exactly the fetches the poll specification makes, each asking for the job's own name. It leaves the job in the reached state, returns a fetch error as is, and on timeout returns "pipeline job … did not reach a running or failed state within the timeout". After an error or the timeout the job keeps the last state fetched, or its earlier state when the first fetch failed. |
| HousesPoll.FinalResponse | cloud-functions/houses/houses.go:259-279 | The answer carries the job name. It is 200 iff RUNNING, 400 iff FAILED and 500 for any other state. The status label is RUNNING iff 200, else FAILED. |
| HousesPoll.PollResponseCases | cloud-functions/houses/houses.go:243-279 | Once a job name exists, every answer carries it. A reached state answers 200 RUNNING or 400 FAILED; a fetch error or timeout answers 500 FAILED. |
| HousesPoll.ErrorToGinH | cloud-functions/houses/houses.go:364-381 | A NotFound gRPC error maps to 404 "Resource not found."; any other error maps to 500 with the error's text. |
| HousesHandler.SubmitPipelineJob | cloud-functions/houses/houses.go:286-340 | Nothing is sent unless every parameter converts; a failed conversion returns its error. Otherwise exactly one creation request is sent, carrying the parent, display name, template, service account and a conversion of the parameters. The service's job name or error is returned. |
| HousesHandler.RunValidated | cloud-functions/houses/houses.go:197-279 | A client start failure answers 500 and calls nothing. A failed conversion sends nothing. It then answers 500 "Error submitting pipeline job: unsupported parameter type: T" with a null job name for some unsupported parameter, or panics with some bad list's panic. Otherwise one request is sent, and the answer is the submission error or the poll's outcome, every poll asking for the name the service gave. It merges with the corrected `email_addresses` default (see Findings), so a request without that key can be submitted, where the code as written answers 500. |
| HousesHandler.AwaitAndAnswer | cloud-functions/houses/houses.go:242-279 | The job is named before the wait, so every fetch asks for the name the service gave it, and the answer is the one the poll's outcome calls for. |
| HousesHandler.HandleRunBeansPipeline | cloud-functions/houses/houses.go:66-280 | Rejected or panicking requests touch no service. Only a valid request whose merged parameters all convert sends a job, exactly one, for the configured template. A failed conversion answers the 500 "Error submitting pipeline job: unsupported parameter type: T" or panics, as for RunValidated. Once the job is named, every poll asks for that name and the answer carries it and follows the poll. The merge uses the corrected `email_addresses` default (see Findings). |
| BeansTrigger.RequestData | cloud-functions/beans/main.py:18-20 | The JSON body when there is one, else the form fields as strings. |
| BeansTrigger.TemplatePathRoundTrip | cloud-functions/beans/main.py:44-60 | The template path is the registry path of the configuration's coordinates under the line-45 host. For slash-free coordinates, parsing it gives them back. |
| BeansTrigger.MergeGeneral | cloud-functions/beans/main.py:49-50 | `parameter_values \| general_values` succeeds iff the parameters are a dict, and raises TypeError otherwise. The keys are the parameters' plus `project_id` and `location`, which take the configuration's values; every other parameter is unchanged. |
| BeansTrigger.Classify | cloud-functions/beans/main.py:71-79 | A NotFound whose lower-cased text contains "template path not found" prints the template path. Any other NotFound prints "unexpected NotFound" with its text; any other error prints a creation error. |
| BeansTrigger.AnyCasingIsTemplateMissing | cloud-functions/beans/main.py:71-75 | The check ignores case: a NotFound whose text contains the phrase in any ASCII casing is reported as a missing template. |
| BeansTrigger.Submit | cloud-functions/beans/main.py:52-81 | The SDK is always asked for this job. The reply is 200 "… submitted successfully. Job State …" iff `init`, the job constructor and `submit` all succeed. When `init` or the constructor raised, reading `job` raises UnboundLocalError. When only `submit` raised, reading `job.display_name` raises the SDK's RuntimeError "PipelineJob resource has not been created.". The success line is printed iff no SDK call raised; otherwise the classification of the first raising call's error (init, then the constructor, then submit) is printed. |
| BeansTrigger.MissingTopLevelKey | cloud-functions/beans/main.py:23-26 | A missing `config_values`, then `parameter_values`, answers 400 naming it, before any SDK call. |
| BeansTrigger.MissingConfigKey | cloud-functions/beans/main.py:31-42 | The first absent configuration key answers 400 "Missing required parameter in config_params: 'k'", quoted as `str(KeyError)` renders it. |
| BeansTrigger.SdkUsedIffComplete | cloud-functions/beans/main.py:22-62 | The SDK is used iff the request is complete, and then with the configured template path and the merged parameters. An incomplete request's reply does not depend on the SDK, and nothing is printed. |
| BeansTrigger.CompleteRequestReply | cloud-functions/beans/main.py:52-81 | For a complete request the reply is 200 iff all three SDK calls succeed. Otherwise it is UnboundLocalError on `job` when `init` or the constructor raised, and the SDK's RuntimeError for the uncreated job when only `submit` raised. |
| BeansTrigger.RunBeansPipeline | cloud-functions/beans/main.py:18-81 | The SDK is used iff the request is complete, and then the outcome is the submission of the configured template with the merged parameters. An incomplete request answers 400 or raises TypeError and prints nothing. |
| Text.SplitJoin | vertex-pipelines/components/utils/custom_split.py:51-52 | Joining the pieces of `str.split` with the separator gives back the string. |
| Text.SplitPiecesAreFree | vertex-pipelines/components/utils/custom_split.py:51-52 | No piece of a split contains the separator. |
| Text.SplitLastIsSuffix | vertex-pipelines/components/utils/custom_split.py:51-52 | `split(sep)[-1]` is the whole string when `sep` does not occur, else the suffix right after the last occurrence. |
| Text.LowerKeepsOccurrence | cloud-functions/beans/main.py:72 | Wherever a phrase occurs in a text, its lower-cased form occurs in the lower-cased text, so the `in` test after `lower()` finds every casing. |
| PyRuntime.Get | src/components/evaluators/automl_evaluation.py:37-39 | A dict lookup finds a value iff the key is present, and the value is one stored under it. |
| PyRuntime.Subscript | src/components/evaluators/automl_evaluation.py:58 | `v[key]` succeeds iff `v` is a dict holding `key`. A dict without it raises KeyError(key); any other value raises TypeError. |
| PyRuntime.GetOr | src/components/evaluators/automl_evaluation.py:74-76 | `get(key, default)` returns the stored value if present, else the default. |
| PyRuntime.Iterate | src/components/evaluators/automl_evaluation.py:73 | Iterating a list yields its items, a dict its keys, a string its characters; anything else raises TypeError. |
| PyRuntime.At | src/components/evaluators/automl_evaluation.py:87-90 | `v[i]` gives a list's item or a string's character, which is the i-th value iteration yields. It raises IndexError past the end, KeyError on a dict, and TypeError on anything else. |
| PyRuntime.Less | src/components/evaluators/automl_evaluation.py:58 | `<` is defined on two numbers (bools as 0/1) or two strings, numbers comparing by value; other pairs raise TypeError. |
| PyRuntime.LessIrreflexive | src/components/evaluators/automl_evaluation.py:58 | No value is below itself. |
| PyRuntime.CollectIff | src/components/evaluators/automl_evaluation.py:83-85 | An append loop completes iff no call raises, and then yields one result per item in order. Otherwise it raises what the first failing call raises. |
| PyRuntime.CollectErrorSticks | src/components/evaluators/automl_evaluation.py:84-85 | Once a prefix raises, the loop raises the same. |
| Kfp.Metrics.LogMetric | vertex-pipelines/components/evaluators/custom_evaluation.py:60 | Logging records the name, once, at its first position, and sets its value. |
| Kfp.RecordAllWellFormed | vertex-pipelines/components/evaluators/custom_evaluation.py:55-69 | Logging keeps the metrics a dict: names are distinct and exactly the keys with values. |
| Kfp.RecordAllKeys | vertex-pipelines/components/evaluators/custom_evaluation.py:55-69 | After logging, the keys are the old keys plus every logged name. |
| Kfp.RecordAllFreshNames | vertex-pipelines/components/evaluators/custom_evaluation.py:55-69 | Logging distinct new names appends them in logging order. |
| Kfp.RecordAllFreshValues | vertex-pipelines/components/evaluators/custom_evaluation.py:55-69 | Logging distinct new names stores each logged value under its name and keeps every old value. |
| Kfp.ClassificationMetrics.LogRocCurve | src/components/evaluators/automl_evaluation.py:80 | The artifact holds the three lists logged. |
| Kfp.ClassificationMetrics.LogConfusionMatrix | src/components/evaluators/automl_evaluation.py:87-90 | The loop stores the categories with a zero matrix, checks the row count, then reads, checks and writes each row in turn into its category's first slot. The error it raises and the rows it has written so far are exactly those of `LogMatrix`. |
| Kfp.MatrixErrorIff | src/components/evaluators/automl_evaluation.py:87-90 | The matrix is accepted iff the rows have one entry per category and each row `rows[j]` can be read by position and is as long as there are categories. A wrong row count raises ValueError. |
| Kfp.TooFewRowsRefused | src/components/evaluators/automl_evaluation.py:87-90 | Two categories with the rows `[[1]]` raise ValueError and leave the zero matrix. |
| Kfp.MatrixStoredRows | src/components/evaluators/automl_evaluation.py:87-90 | With distinct categories and the right row count, a matrix refused at row k keeps rows 0..k-1 written and zeros after them. It is accepted iff no row is refused, and it is then stored row for row. |
| Kfp.DuplicateCategoryOverwrites | src/components/evaluators/automl_evaluation.py:87-90 | A repeated category name writes its row over the first occurrence's slot and leaves its own slot at zero. |
| Kfp.DictRowsRaiseKeyError | src/components/evaluators/automl_evaluation.py:87-90 | Rows given as a dict of the right size raise KeyError(0) on the first positional read. |
| CustomEvaluation.ModelsDict | vertex-pipelines/components/evaluators/custom_evaluation.py:47-52 | The dict maps exactly the four candidate names to their input paths. |
| CustomEvaluation.ScoresOf | vertex-pipelines/components/evaluators/custom_evaluation.py:55-58 | The candidates are scored in dict order, each with the score of its own path. |
| CustomEvaluation.BestIsMaximum | vertex-pipelines/components/evaluators/custom_evaluation.py:54-64 | The best AUC is at least 0.0 and at least every score. The best is the initial ("", 0.0) or one of the candidates. |
| CustomEvaluation.BestIsEarliest | vertex-pipelines/components/evaluators/custom_evaluation.py:62-64 | Ties keep the earliest candidate: every candidate before the winner scored strictly less. |
| CustomEvaluation.BestWhenNonePositive | vertex-pipelines/components/evaluators/custom_evaluation.py:54-66 | The initial ("", 0.0) survives iff no score is positive. |
| CustomEvaluation.AucLogs | vertex-pipelines/components/evaluators/custom_evaluation.py:60 | One "… (AUC ROC)" metric per candidate, in order, holding its score. |
| CustomEvaluation.ScoreCandidates | vertex-pipelines/components/evaluators/custom_evaluation.py:54-64 | The loop ends with the best of the four scores and has logged every score in order. |
| CustomEvaluation.WinnerIsCandidate | vertex-pipelines/components/evaluators/custom_evaluation.py:66 | The winner's name is "" or a key of the models dict. |
| CustomEvaluation.Evaluate | vertex-pipelines/components/evaluators/custom_evaluation.py:47-69 | With a positive score, the output model takes the winner's path, and the log holds the four scores, then the winner's name and AUC. With no positive score, `models[""]` raises KeyError, the output path is untouched and only the scores are logged. The identical copy at pipelines/components/evaluators/custom_evaluation.py:35-57 behaves the same way. |
| CustomEvaluation.EvaluationLogOrder | vertex-pipelines/components/evaluators/custom_evaluation.py:55-69 | On a fresh artifact the metric names are the four score names in candidate order, then `best_model_name` and `best_auc_roc`, each with its value. |
| AutomlEvaluation.CheckIgnoresUnwatched | src/components/evaluators/automl_evaluation.py:55-57 | Thresholds other than `auRoc` and `auPrc` never change the outcome. |
| AutomlEvaluation.CheckFailsIff | src/components/evaluators/automl_evaluation.py:55-60 | The check rejects on key `k` iff a `k` threshold is strictly missed and every earlier threshold is met: it stops at the first failure. |
| AutomlEvaluation.CheckPassesIff | src/components/evaluators/automl_evaluation.py:55-63 | The check passes iff every threshold is met and `auRoc` is present, and then it yields `auRoc`. |
| AutomlEvaluation.EqualMetricMeetsThreshold | src/components/evaluators/automl_evaluation.py:58 | A metric equal to its threshold meets it. |
| AutomlEvaluation.ThresholdsCheckAsWritten | src/components/evaluators/automl_evaluation.py:54-63 | As written, a rejection raises TypeError, and the function returns iff the check passes. |
| AutomlEvaluation.ThresholdsDecision | src/components/evaluators/automl_evaluation.py:54-63 | Intended: the decision is made iff the check passes or rejects, and deploys iff it passes. A rejection reports `automl_auc` 0.0, its initial value. |
| AutomlEvaluation.AsWrittenRaisesOnRejection | src/components/evaluators/automl_evaluation.py:58-60 | Both versions agree on every pass. Every rejection the intended version decides against deployment raises TypeError as written. |
| AutomlEvaluation.RejectionExample | src/components/evaluators/automl_evaluation.py:58-59 | For `auRoc` 0.5 against a threshold of 0.9, the code as written raises TypeError; the intended version decides not to deploy, with AUC 0.0. |
| AutomlEvaluation.ThresholdItems | src/components/evaluators/automl_evaluation.py:113-115 | `.items()` works iff the parsed thresholds are a dict, and raises AttributeError otherwise. |
| AutomlEvaluation.RocOf | src/components/evaluators/automl_evaluation.py:70-76 | The curve exists iff every confidence item is a dict, and raises AttributeError otherwise. |
| AutomlEvaluation.RocOfShape | src/components/evaluators/automl_evaluation.py:70-76 | The three lists have one entry per item, in order. Each is the item's false positive rate, recall or confidence threshold, 0.0 when missing. |
| AutomlEvaluation.RocCurveLists | src/components/evaluators/automl_evaluation.py:70-76 | The append loop builds exactly that curve or error. |
| AutomlEvaluation.Annotations | src/components/evaluators/automl_evaluation.py:83-85 | The loop yields the display names in spec order, or the error of the first spec without one. |
| AutomlEvaluation.TextMetricsCover | src/components/evaluators/automl_evaluation.py:93-96 | Every metric except `confidenceMetrics` is logged as its JSON text, and only those are logged. |
| AutomlEvaluation.LogTextMetrics | src/components/evaluators/automl_evaluation.py:93-96 | The loop logs exactly those metrics, in key order. |
| AutomlEvaluation.EvalMetrics | src/components/evaluators/automl_evaluation.py:35-40 | An evaluation yields its metrics iff it has a name, a schema URI and a metrics dict. |
| AutomlEvaluation.GetEvalInfo | src/components/evaluators/automl_evaluation.py:30-50 | No evaluations raises UnboundLocalError. Otherwise the result is the first evaluation's error, or one metrics dict and its JSON text per evaluation, in order, with the last evaluation's name. |
| AutomlEvaluation.LogMetrics | src/components/evaluators/automl_evaluation.py:65-96 | On success the artifacts hold the ROC curve, the confusion matrix of display names and rows, and the textual metrics. On any error (an empty list, a missing key, a wrong type, a confusion matrix whose size does not match its categories) that error is returned and no textual metric is logged. |
| AutomlEvaluation.EvaluateAutoml | src/components/evaluators/automl_evaluation.py:108-123 | The result is an evaluation or recording error if one occurs. Otherwise it is the intended threshold decision on the first evaluation's metrics. |
| CustomSplit.SourceUri | vertex-pipelines/components/utils/custom_split.py:50 | The URI is read iff all four subscripts (`metadata`, `inputConfig`, `bigquerySource`, `uri`) succeed and the URI is a string. Otherwise the error is that of the first failing subscript, or AttributeError for a URI that is not a string. |
| CustomSplit.Remainder | vertex-pipelines/components/utils/custom_split.py:51-52 | The part after the last `bq://<project>.`, or the whole URI if there is none. It contains no further occurrence. |
| CustomSplit.ParseBigQueryUri | vertex-pipelines/components/utils/custom_split.py:51-52 | Parsing succeeds iff the remainder holds a dot, and raises IndexError otherwise. The remainder begins with the dataset id, a dot and the table id, followed by its end or another dot; neither id holds a dot. |
| CustomSplit.ParseRoundTrip | vertex-pipelines/components/utils/custom_split.py:50-52 | `bq://P.D.T` read with project `P` yields dataset `D` and table `T` when `D` and `T` hold no `.` or `/`. |
| CustomSplit.OtherProjectUsesWholeUri | vertex-pipelines/components/utils/custom_split.py:51-52 | A URI without the project prefix is split whole. |
| CustomSplit.TableOf | vertex-pipelines/components/utils/custom_split.py:50-52 | The table is the parse of the URI, or the error of reading it. |
| CustomSplit.ClassLabelsDecode | vertex-pipelines/components/utils/custom_split.py:69-77 | Every class name gets a code 0..6 that gives the name back. |
| CustomSplit.ClassNameEncodes | vertex-pipelines/components/utils/custom_split.py:69-77 | Every code 0..6 is the label of exactly one class name. |
| CustomSplit.ClassLabelsInjective | vertex-pipelines/components/utils/custom_split.py:69-77 | No two class names share a code. |
| CustomSplit.ClassLabelsKeys | vertex-pipelines/components/utils/custom_split.py:69-77 | The map has exactly the seven bean classes as keys. |
| CustomSplit.RelabelColumn | vertex-pipelines/components/utils/custom_split.py:68-79 | A cell holding a class name becomes that class's label, every other cell is kept, and the length is unchanged. |
| CustomSplit.RelabelColumnInvertible | vertex-pipelines/components/utils/custom_split.py:68-79 | A column of class names becomes codes 0..6 from which every name is recovered. |
| CustomSplit.RelabelColumnIdempotent | vertex-pipelines/components/utils/custom_split.py:68-79 | Relabelling twice is relabelling once. |
| CustomSplit.DataFrame.ReplaceClassLabels | vertex-pipelines/components/utils/custom_split.py:68-79 | Only the `Class` column changes, relabelled in place; a frame without it raises KeyError. |

## Left out

- The HTTP servers: the Gin router, Flask's request decoding and the Functions Framework. A malformed Go body is an input carrying its error text. A Python body is a JSON dict or form fields. A top-level JSON value that is not an object (such as a list, where `in` tests membership) is not modelled.
- The 20-second sleep between polls (`time.Sleep`), the context and `client.Close()`. Only the number of fetches is modelled; `WaitIntervalSeconds` is kept as a constant.
- `NewPipelineServiceClient` and the credentials file: the client either fails to start (an input error) or is the scripted service.
- `parseServiceAccountKey` and `getEmailAddresses` (houses.go:383-435): the handler never calls them, and they only read HTTP bodies.
- The Vertex AI SDK calls of the Python trigger are a script of which call raises and what `job.state` prints. `print` output is recorded as a diagnostic value. The SDK's source is not part of this model. Its `PipelineJob` properties are taken to raise RuntimeError "PipelineJob resource has not been created." until `submit` has created the job. After a successful `submit`, the fetch that `job.state` makes on line 81 is assumed to succeed.
- BeansTrigger.Submit: records one diagnostic per call. The `print(job.submit(...))` of cloud-functions/beans/main.py:64-68 prints what `submit` returns before the success line; that value comes from the SDK and is not recorded.
- The candidate models' training, loading and scoring (`joblib.load`, `predict_proba`, `roc_auc_score`): scores are an input function from path to real. NaN and floating-point rounding are not modelled.
- Text.Lower: only ASCII letters are lowered. Python's full Unicode case mapping is not modelled; the phrase searched for is ASCII.
- The AutoML model lookup (`model.metadata["resourceName"]`, `aiplatform.Model`, `list_model_evaluations`, `to_dict`): the evaluations are given as JSON dicts. `json.dumps` is an input function, and a `json.loads` parse error of the thresholds string is not modelled.
- PyRuntime.Less: comparisons between two lists, two tuples or mixed containers, which Python orders element-wise, are reported as TypeError. Floats are exact reals.
- PyRuntime.Get: JSON objects with duplicate keys are not distinguished from Python's last-wins dicts. The first match is returned, which agrees for the distinct keys `json.loads` produces.
- Logging (`logging.info`, `print`) in the evaluation and split components.
- The BigQuery client, row fetching and concatenation, `train_test_split` and the CSV output of the split component (custom_split.py:54-65 and 81-94). The dataset artifact's `resourceName` lookup is also left out.
- CustomSplit.Relabel: pandas' `replace` matches whole values. Only string cells equal to a class name change, and a column's dtype is not modelled.
- Kfp.ClassificationMetrics.LogConfusionMatrix: follows KFP v2's `log_confusion_matrix` and `log_confusion_matrix_row` (`kfp/dsl/types/artifact_types.py`, which is not part of this model): the zero matrix, the row count, then each row checked and written into slot `categories.index(name)`. The `{'row': …}` dicts KFP stores each row in are not modelled, and the zeros are written as JSON numbers. Category names are compared structurally, so Python's `True == 1` is not modelled. `log_roc_curve`'s length check is not modelled either: the three lists the component builds always have equal lengths.
- Go's `int` case of the conversion switch is modelled, although JSON decoding in Go yields `float64` for every number and never reaches it.

## Findings

| source | as written | input that shows it | evidently intended | confidence | as-written member | corrected member |
|---|---|---|---|---|---|---|
| cloud-functions/houses/houses.go:197-200 | The default `email_addresses` is a `[]string`. The conversion switch (lines 306-316) accepts only `[]interface{}`, so the default falls to the `unsupported parameter type: []string` error. | A valid request whose parameters and configuration lack `email_addresses`, and whose other parameters all convert, answers 500 "Error submitting pipeline job: unsupported parameter type: []string". | The default is accepted and sent as the string "dummy@example.com". | not executed | HousesRequest.EmailDefaultAsWrittenBlocksSubmission | HousesRequest.DefaultEmailConverts |
| src/components/evaluators/automl_evaluation.py:58-60 | On a missed threshold, line 59 formats `metrics[k]`. `metrics` is the component's `Metrics` output artifact, which cannot be subscripted, so a TypeError is raised. Even without it, the bare `return False` could not be unpacked into `deploy, automl_auc` at line 114. | Metrics `{"auRoc": 0.5}` with thresholds `{"auRoc": 0.9}` raise TypeError instead of deciding not to deploy. | A missed threshold decides against deployment and returns `automl_auc` 0.0. | not executed | AutomlEvaluation.RejectionExample | AutomlEvaluation.ThresholdsDecision |
