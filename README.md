# SageMaker MLOps glue, modelled in Dafny

This project models the Lambda code behind an MLOps workshop pipeline for Amazon SageMaker:

- **Four CloudFormation custom resources**, each driven by its `ResourceProperties`:
  - The monitoring schedule builds a schedule config and submits it. It polls until the
    schedule is scheduled, and its delete tolerates an absent schedule.
  - The suggest-baseline resource submits a baseline processing job and polls until the job
    completes. Its delete calls an operation SageMaker does not have, so only the
    error-code handling around that call is modelled.
  - The training waiter creates, updates and deletes nothing. Its one shared handler is a
    no-op, and it only polls an existing training job until the job completes.
  - The data-capture resource copies the endpoint's configuration into a new one that
    captures data, and repoints the endpoint to it. It polls until the endpoint is in service
    again, and its delete tolerates an absent configuration. Its update always fails.
- **Two CodeDeploy lifecycle hooks.** A pre-traffic gate and a post-traffic cleanup for
  blue/green deployments of the serving Lambda.
- **The pure builders of `workflow/run.py`.** These produce the training-job request, the
  experiment and trial records, and the CloudFormation parameter files.

How the model represents the program:

- **Remote services.** SageMaker, CodeDeploy and Lambda are not simulated. Each handler takes,
  as a parameter, the reply each remote call gives: a response, or a botocore `ClientError`
  with a code and a message.
- **Call logs.** Each boto3 client is a `Runtime.Client` object. Every call made on it is
  appended to its ghost `log`. Statements such as "nothing is created before the guard
  passes" and "exactly one report" are stated over these logs.
- **crhelper's `Data`.** This is the `data` map of a `Runtime.CfnHelper`.
- **Python exceptions.** These are the `Failure` side of `Runtime.Result`. Dictionary
  literals are built in the source's evaluation order, so the first failing lookup is the
  exception that is raised.

Quirks of the source are modelled as written:

- The duplicated `us-east-2` key in the image table: the later entry wins.
- The misspelled property key that guards `PostAnalyticsProcessorSourceUri`.
- The eager lookup of the default image, even when `ImageURI` is supplied.
- The data-capture update handler, which fails with a TypeError because it takes no
  arguments.
- The pre-traffic hook's "Stagemaker" message, and its passing verdict when a describe error
  has an empty message.
- The post-traffic hook's comparison of a string with an integer is not modelled. It guards
  only a log line, and its two sides are never equal. A comment in the handler marks where
  it stands.
- The exceptions in the post-traffic hook that are not `ClientError`s: they escape its handler
  before the report.

Modules:

- `Runtime` holds the Python and botocore semantics: `d[k]`, `d.get`, `int()`, the
  `ResourceNotFound` rule, the three-way readiness rule, clients and crhelper.
- `Apis` holds the request and response shapes.
- `ModelMonitorImage`, `MonitoringSchedule`, `SuggestBaseline`, `TrainingWaiter` and
  `DataCapture` model the `cfn/` files.
- `PreTrafficHook` and `PostTrafficHook` model the `api/` hooks.
- `Workflow` models `workflow/run.py`.

## Model

| member | source | states |
|---|---|---|
| Runtime.Require | cfn/sagemaker_monitoring_schedule.py:84-85 | `props[key]` succeeds exactly when the key is present and gives its value; otherwise it raises KeyError naming that key |
| Runtime.FirstMissing | api/pre_traffic_hook.py:35-37 | A run of `env[k]` lookups fails exactly when some key is absent, and the KeyError names the first absent key in reading order |
| Runtime.ParseInt | cfn/sagemaker_monitoring_schedule.py:164 | `int(s)` succeeds exactly on an optional `+` or `-` followed by at least one digit, and raises ValueError carrying `s` otherwise; a `-` sign gives a non-positive value and no sign gives a non-negative one |
| Runtime.GetOr | cfn/sagemaker_monitoring_schedule.py:121 | `props.get(key, default)`: the supplied value whenever the key is present, even an empty one, and the default only when it is absent |
| Runtime.Truthy | cfn/sagemaker_monitoring_schedule.py:172 | `if props.get(key)` holds exactly when reading the key with an empty default finds a non-empty string |
| Runtime.IntOr | cfn/sagemaker_monitoring_schedule.py:164 | `int(props.get(key, default))`: the default when the key is absent, otherwise the parse of the supplied string |
| Runtime.ParseDecimalString | cfn/sagemaker_monitoring_schedule.py:164 | Every integer written in decimal is read back by `int()` as itself (proved by induction over the digits) |
| Runtime.LeadingZeroDigitsValue | cfn/sagemaker_monitoring_schedule.py:164 | A leading zero does not change the value of a digit string (proved by induction) |
| Runtime.NonCanonicalSpellings | cfn/sagemaker_monitoring_schedule.py:164 | `int()` reads `+d` and `0d` as the same number as the digit string `d` |
| Runtime.NegativeSpellings | cfn/sagemaker_monitoring_schedule.py:164 | `int()` reads `-d` as the negation of the digit string `d`'s value, and `-0d` as the same number as `-d` |
| Runtime.DigitsValueOfDigits | cfn/sagemaker_monitoring_schedule.py:164 | The decimal digits of a natural number are non-empty, all digits, and denote that number |
| Runtime.SwallowNotFound | cfn/sagemaker_monitoring_schedule.py:184-191 | A delete completes exactly when the call returned or its ClientError code is `ResourceNotFound`; any other ClientError is re-raised unchanged |
| Runtime.Readiness | cfn/sagemaker_monitoring_schedule.py:100-114 | The poll rule: true exactly for the ready status, false exactly for the pending status, and for every other status an exception naming the resource and the status |
| ModelMonitorImage.ImageUri | cfn/sagemaker_monitoring_schedule.py:57-82 | The image URI is the account, then `.dkr.ecr.`, then the region, then the analyzer repository host and path, each at its exact position |
| ModelMonitorImage.ContainerUri | cfn/sagemaker_monitoring_schedule.py:57-82 | The analyzer image exists exactly for the 17 listed regions, and any other region raises KeyError. The image is the requested region's registry under that region's account in the table, and `us-east-2` resolves to the later duplicate account 777275614652 |
| MonitoringSchedule.ScheduleName | cfn/sagemaker_monitoring_schedule.py:84-85 | The schedule name is the `ScheduleName` property; KeyError when it is absent |
| MonitoringSchedule.ScheduleReadiness | cfn/sagemaker_monitoring_schedule.py:100-114 | `Scheduled` means ready, `Pending` means poll again, and any other status raises "Monitoring schedule (name) has unexpected status: status" |
| MonitoringSchedule.ScheduleConfigFor | cfn/sagemaker_monitoring_schedule.py:116-178 | The config builds exactly when the four leading required keys and `PassRoleArn` are present, the region is known, `MaxRuntimeInSeconds` parses, and the misspelled key's branch finds `PostAnalyticsProcessorSourceUri`. It then copies supplied values, sets the run-time limit to the parsed `MaxRuntimeInSeconds` (300 when absent), fixes 1 instance and 20 GB, takes the listed defaults, and sets the two preprocessor fields under their truthiness conditions. After the leading keys and the region, each later read pins its exception: a bad `MaxRuntimeInSeconds` raises ValueError carrying it, then a missing `PassRoleArn` raises KeyError, then the misspelled key's branch raises KeyError for `PostAnalyticsProcessorSourceUri` |
| MonitoringSchedule.ScheduleConfigFirstFailure | cfn/sagemaker_monitoring_schedule.py:119-161 | A failed build raises KeyError for the first missing leading required key; when those are all present, an unknown region raises KeyError before `ImageURI` is consulted |
| MonitoringSchedule.CreateMonitoringScheduleConfig | cfn/sagemaker_monitoring_schedule.py:116-178 | The request built as a dictionary and then extended in place equals the specified config, including every failure |
| MonitoringSchedule.CreateMonitoringSchedule | cfn/sagemaker_monitoring_schedule.py:87-98 | No create call is made unless the name and the config build. Otherwise exactly one `create_monitoring_schedule` call is made, with that name and config; `Data['Arn']` becomes the returned ARN exactly on success, and data is otherwise unchanged. A ClientError from the create is re-raised unchanged |
| MonitoringSchedule.IsScheduleReady | cfn/sagemaker_monitoring_schedule.py:100-114 | One describe call for the named schedule; the result is the readiness decision on its status, or the describe's ClientError |
| MonitoringSchedule.PollCreate | cfn/sagemaker_monitoring_schedule.py:37-46 | Polls the schedule named by `ScheduleName`; KeyError and no call when the property is absent |
| MonitoringSchedule.DeleteMonitoringSchedule | cfn/sagemaker_monitoring_schedule.py:182-191 | One delete call for the named schedule, and `ResourceNotFound` counts as deleted |
| MonitoringSchedule.DeleteHandler | cfn/sagemaker_monitoring_schedule.py:28-34 | Deletes exactly the schedule named by `ScheduleName`; KeyError and no call when the property is absent |
| MonitoringSchedule.UpdateHandler | cfn/sagemaker_monitoring_schedule.py:48-53 | Update succeeds without any call and without touching `Data` |
| SuggestBaseline.ProcessingJobName | cfn/sagemaker_suggest_baseline.py:83-84 | The job name is the `ProcessingJobName` property; KeyError when it is absent |
| SuggestBaseline.ProcessingJobReadiness | cfn/sagemaker_suggest_baseline.py:86-100 | `Completed` means ready, `InProgress` means poll again, and any other status raises "Processing Job (name) has unexpected status: status" |
| SuggestBaseline.ProcessingJobRequestFor | cfn/sagemaker_suggest_baseline.py:102-157 | The request builds exactly when the name, `BaselineInputUri`, `BaselineReportsUri` and `PassRoleArn` are present, `MaxRuntimeInSeconds` parses and the region is known. The first failing read in source order is the exception raised: KeyError for the name, then the input URI, then the reports URI; ValueError for a bad `MaxRuntimeInSeconds`; KeyError for an unknown region, then for `PassRoleArn`. Its job name is the one poll and delete use. The input is `baseline_dataset_input`, an `S3Prefix` read in `File` mode, fully replicated and uncompressed, at `/opt/ml/processing/input/baseline_dataset_input`. The output is `monitoring_output`, uploaded at end of job from `/opt/ml/processing/output`. `dataset_source` and `output_path` are those two local paths, the dataset format is the fixed CSV description, the run-time limit is the parsed `MaxRuntimeInSeconds`, and the defaults are `ml.t3.medium`, 300 and `Disabled` |
| SuggestBaseline.CreateProcessingJob | cfn/sagemaker_suggest_baseline.py:102-165 | No create call is made unless the request builds. Otherwise exactly one call is made with that request; on success `Data['Arn']` is the returned ARN, and that ARN is the result. A ClientError from the create is re-raised unchanged |
| SuggestBaseline.IsProcessingJobReady | cfn/sagemaker_suggest_baseline.py:86-100 | One describe call for the named job; the result is the readiness decision on its status, or the describe's ClientError |
| SuggestBaseline.PollCreate | cfn/sagemaker_suggest_baseline.py:36-45 | Polls the job named by `ProcessingJobName`; KeyError and no call when the property is absent |
| SuggestBaseline.DeleteProcessingJob | cfn/sagemaker_suggest_baseline.py:167-176 | One delete call for the named job, and `ResourceNotFound` counts as deleted |
| SuggestBaseline.DeleteHandler | cfn/sagemaker_suggest_baseline.py:28-34 | Deletes exactly the job named by `ProcessingJobName`; KeyError and no call when the property is absent |
| SuggestBaseline.UpdateHandler | cfn/sagemaker_suggest_baseline.py:47-52 | Update succeeds without any call and without touching `Data` |
| TrainingWaiter.TrainingJobName | cfn/sagemaker_training_waiter.py:43-44 | The job name is the `TrainingJobName` property; KeyError when it is absent |
| TrainingWaiter.TrainingJobReadiness | cfn/sagemaker_training_waiter.py:46-61 | `Completed` means ready, `InProgress` means poll again, and any other status raises "Training job (name) has unexpected status: status" |
| TrainingWaiter.IsTrainingJobReady | cfn/sagemaker_training_waiter.py:46-61 | One describe call; `Data['Arn']` becomes the job's ARN exactly when the answer is true, and `Data` is unchanged otherwise |
| TrainingWaiter.PollCreate | cfn/sagemaker_training_waiter.py:30-39 | Poll-create and poll-update read the job name from `TrainingJobName`; KeyError, no call and no data change when it is absent |
| TrainingWaiter.Handler | cfn/sagemaker_training_waiter.py:21-28 | Create, update and delete share one handler, which succeeds with no call and no data change |
| DataCapture.EndpointName | cfn/sagemaker_data_capture.py:54-55 | The endpoint name is the `EndpointName` property; KeyError when it is absent |
| DataCapture.EndpointReadiness | cfn/sagemaker_data_capture.py:57-71 | `InService` means ready, `Updating` means poll again, and any other status raises "Endpoint (name) has unexpected status: status" |
| DataCapture.DataCaptureConfigFor | cfn/sagemaker_data_capture.py:88-101 | Capture is enabled, writes to `DataCaptureUri`, samples the parsed `InitialSamplingPercentage` (100 when absent), captures exactly Input then Output, and declares CSV and JSON content types. A missing `DataCaptureUri` raises KeyError, and a bad `InitialSamplingPercentage` raises ValueError carrying it |
| DataCapture.EndpointConfigRequestFor | cfn/sagemaker_data_capture.py:103-115 | The new config is named by `EndpointConfigName`, copies the current production variants unchanged, has no tags, and carries `KmsKeyId` exactly when the current config has one, with the same value. A capture-config failure is raised as is; otherwise a missing `EndpointConfigName` raises KeyError |
| DataCapture.InService | cfn/sagemaker_data_capture.py:79-82 | The create guard passes exactly when the endpoint was described with the status that polling the same endpoint reports as ready |
| DataCapture.UpdateEndpoint | cfn/sagemaker_data_capture.py:73-128 | The calls run in order: describe endpoint, then an InService guard, then describe config, then create config, then repoint the endpoint. Nothing is created unless the guard passes, the endpoint is repointed only after the create returns, the old config is never deleted, and success returns `EndpointConfigName`. Each failure is pinned: KeyError for the name, the describe's ClientError, the unexpected-status exception, the config describe's ClientError, the request builder's exception, and the ClientError of the create or of the repoint, re-raised unchanged |
| DataCapture.IsEndpointReady | cfn/sagemaker_data_capture.py:57-71 | One describe call for the named endpoint; the result is the readiness decision on its status, or the describe's ClientError |
| DataCapture.PollCreate | cfn/sagemaker_data_capture.py:37-45 | Polls the endpoint named by `EndpointName`; KeyError and no call when the property is absent |
| DataCapture.DeleteEndpointConfig | cfn/sagemaker_data_capture.py:130-141 | Deletes exactly the config named by `EndpointConfigName`, and `ResourceNotFound` counts as deleted |
| DataCapture.UpdateHandler | cfn/sagemaker_data_capture.py:47-52 | The registered update handler takes no arguments, so update always fails with a TypeError |
| PreTrafficHook.ErrorMessage | api/pre_traffic_hook.py:41-48 | No reason exactly when the endpoint is InService; a describe error gives its message, and any other status gives `Stagemaker endpoint status: <status> not InService` |
| PreTrafficHook.Verdict | api/pre_traffic_hook.py:41-51 | Succeeded exactly when the endpoint is InService or the describe error's message is empty; Failed always comes with a non-empty reason |
| PreTrafficHook.LambdaHandler | api/pre_traffic_hook.py:35-79 | A missing environment variable raises before any call. Otherwise one describe is made, then exactly one report carrying the event's deployment and hook-execution ids with the verdict. The result is 200 for Succeeded, 400 with the reason for Failed, and 500 with the message when the report raised |
| PostTrafficHook.CleanupEscape | api/post_traffic_hook.py:44-46 | The cleanup failures the `except ClientError` clause does not catch: a live `Version` that `int()` rejects, or a live environment without `ENDPOINT_NAME` |
| PostTrafficHook.LambdaHandler | api/post_traffic_hook.py:35-69 | The `live` alias is looked up, and the schedule named by its `ENDPOINT_NAME` is deleted (no delete when the lookup raised). ClientErrors from both calls are swallowed, and exactly one Succeeded report follows unless a non-ClientError escaped. The result is 200 exactly when the report returned |
| Workflow.SliceTo | workflow/run.py:31 | Python's `s[:stop]` is a prefix of `s`, of length `min(stop, len(s))`, or `max(len(s) + stop, 0)` when `stop` is negative |
| Workflow.NameFromBase | workflow/run.py:18-32 | The name is a prefix of the base, then `-`, then the timestamp. It fits in `max_length` whenever the timestamp and its dash fit (`max_length > len(timestamp)`), it is then exactly `max_length` long when the base had to be trimmed, and it keeps the base whole when everything fits |
| Workflow.NameFromBaseNegativeBound | workflow/run.py:31 | When `max_length <= len(timestamp)` the slice bound is negative and the base loses `len(timestamp) + 1 - max_length` characters from its end, all of it when that is at least its length |
| Workflow.NameFromBaseNotMonotone | workflow/run.py:31 | The name is not monotone in `max_length`: bound `len(timestamp) + 1` leaves nothing of the base, while the smaller bound `len(timestamp)` keeps all of it but its last character |
| Workflow.TrainingRequestFor | workflow/run.py:34-67 | The job name is `name_from_base('mlops-<job id>')` at 63 characters with the short timestamp, so it fits and keeps the id whole when there is room. Training input is in `File` mode with the six loss and accuracy metrics, the stopping condition is 360000, and the trial component is shown as `Training`. The request runs one `ml.m4.xlarge` instance with 30 GB, passes role, image, data, hyperparameters and output through, has no tags, and records experiment = model and trial = job id |
| Workflow.ExperimentFor | workflow/run.py:69-74 | The experiment is named after the model, displayed as `Training`, and described as training for it |
| Workflow.TrialFor | workflow/run.py:76-82 | The trial belongs to the model's experiment, shares its display name `Training` and its description, and is named by the job id |
| Workflow.SuggestBaselineParams | workflow/run.py:84-92 | Exactly the four keys ModelName, TrainJobId, MLOpsRoleArn and BaselineInputUri, with the given values |
| Workflow.DevParams | workflow/run.py:94-102 | Exactly the four keys ModelName, TrainJobId, MLOpsRoleArn and ImageRepoUri, with the given values |
| Workflow.PrdParams | workflow/run.py:104-113 | Every development key and value, unchanged, plus exactly `ScheduleMetricName` and `ScheduleMetricThreshold`, whose value is the threshold's string form |
| Workflow.DefaultPrdParams | workflow/run.py:104-105 | Called with its default arguments, the production file adds the drift metric `feature_baseline_drift_class_predictions` with the threshold `"0.4"` to the development keys |

## Left out

- `api/app.py` is not part of this model. It proxies inference requests and has no state
  or decision to verify.
- crhelper's handler registration, its `lambda_handler` dispatch, and its poll timer and
  retry scheduling are not modelled. Each handler is a method of its own, and each poll is
  one call that answers true or false or raises.
- boto3 client construction and the behaviour of the remote services are not modelled.
  Every reply is a parameter, and status transitions are not modelled.
- `main` and the argument parsing in `workflow/run.py` (lines 115-184) are file and
  CodePipeline I/O. They are not modelled. That code writes `request` rather than `params`
  into `deploy-model-dev.json` (line 167).
- The timestamp functions (`workflow/run.py` lines 8-16) read the clock.
  `Workflow.NameFromBase` takes the timestamp string as a parameter.
- `Workflow.PrdParams` takes the threshold already rendered by `str()`, because it is a
  float. `DefaultMetricThreshold` is `"0.4"`.
- Logging and `print` output are not modelled.
- `Runtime.ParseInt` does not accept what Python's `int()` also accepts around the digits:
  surrounding whitespace, `_` separators and non-ASCII digits.
- `SuggestBaseline.CreateProcessingJob` assumes `json.dumps` serialises the dataset format
  to `DatasetFormat`. The module never imports `json`, so the code as written raises
  NameError at line 151 after the image lookup. No end-to-end success of the real create is
  claimed.
- `SuggestBaseline.ProcessingJobRequestFor` carries the same assumption about line 151.
- `SuggestBaseline.DeleteProcessingJob` models only the error-code branching of line 170.
  That line calls a client method with a `MonitoringScheduleName` keyword, and the model
  does not capture what the client library makes of that call.
- The request and response dictionaries are reduced to the fields the code reads or sets.
  A production variant carries only its name, model, instance count and instance type.
  Its other fields are not modelled, and the code copies each variant whole. A response
  is assumed to carry the fields the code reads.
- Event fields are always present in the model. A hook event always has `DeploymentId` and
  `LifecycleEventHookExecutionId`. A `get_function` response always has
  `Configuration.Environment`, and only the absence of `ENDPOINT_NAME` within it is
  modelled. The KeyErrors that missing event fields would raise are not modelled.
- No processing job is stopped before it is deleted, in the source or in the model.
- A remote call either returns or raises a botocore `ClientError`. The other exceptions a
  boto3 call can raise are not modelled: connection errors, timeouts and parameter
  validation errors. Neither hook catches them (`api/pre_traffic_hook.py` lines 42-48,
  `api/post_traffic_hook.py` lines 40-58), so they escape before any report is sent.
  `PreTrafficHook.LambdaHandler` promises exactly one report only under this model, and
  `PostTrafficHook.LambdaHandler` promises that the report still happens only under it.
