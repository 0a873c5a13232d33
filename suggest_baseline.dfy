/**
 * The suggest-baseline custom resource: create submits a model-monitor processing job that
 * computes baseline statistics and constraints, poll reports whether the job has completed,
 * update does nothing. Delete calls an operation SageMaker does not have, with a keyword
 * that belongs to the monitoring-schedule call; only its handling of a ClientError is
 * modelled, where an absent job counts as deleted.
 */
module SuggestBaseline {
  import opened Runtime
  import opened Apis
  import ModelMonitorImage

  const InputLocalPath := "/opt/ml/processing/input/baseline_dataset_input"
  const OutputLocalPath := "/opt/ml/processing/output"
  const DefaultInstanceType := "ml.t3.medium"
  const DefaultMaxRuntimeInSeconds := 300
  const DefaultPublishCloudwatchMetrics := "Disabled"

  /** The serialised `dataset_format` dictionary: CSV with a header, output columns first. */
  const DatasetFormat := "{\"csv\": {\"header\": true, \"output_columns_position\": \"START\"}}"

  /** `get_processing_job_name`: the job is named by the `ProcessingJobName` property. */
  function ProcessingJobName(props: Props): (r: Result<string>)
    ensures r.Ok? <==> "ProcessingJobName" in props
    ensures r.Ok? ==> r.value == props["ProcessingJobName"]
    ensures r.Err? ==> r.failure == KeyError("ProcessingJobName")
  {
    Require(props, "ProcessingJobName")
  }

  /** The decision of `is_processing_job_ready` once the status is known. */
  function ProcessingJobReadiness(name: string, status: string): (r: Result<bool>)
    ensures r == Ok(true) <==> status == "Completed"
    ensures r == Ok(false) <==> status == "InProgress"
    ensures r.Err? <==> status != "Completed" && status != "InProgress"
    ensures r.Err? ==>
      r.failure == UnexpectedStatus("Processing Job (" + name + ") has unexpected status: " + status)
  {
    Readiness("Processing Job", name, status, "Completed", "InProgress")
  }

  /**
   * The request `create_processing_job` submits. It is named by the same property that
   * poll and delete read; the job reads its dataset from the input's local path and writes
   * its report to the output's local path.
   */
  function ProcessingJobRequestFor(props: Props, region: string): (r: Result<ProcessingJobRequest>)
    ensures r.Ok? <==>
      && "ProcessingJobName" in props && "BaselineInputUri" in props && "BaselineReportsUri" in props
      && IntOr(props, "MaxRuntimeInSeconds", DefaultMaxRuntimeInSeconds).Ok?
      && region in ModelMonitorImage.KnownRegions
      && "PassRoleArn" in props
    ensures "ProcessingJobName" !in props ==> r == Err(KeyError("ProcessingJobName"))
    ensures "ProcessingJobName" in props && "BaselineInputUri" !in props ==> r == Err(KeyError("BaselineInputUri"))
    ensures "ProcessingJobName" in props && "BaselineInputUri" in props ==>
      && ("BaselineReportsUri" !in props ==> r == Err(KeyError("BaselineReportsUri")))
      && ("BaselineReportsUri" in props && "MaxRuntimeInSeconds" in props &&
          ParseInt(props["MaxRuntimeInSeconds"]).Err? ==>
            r == Err(ValueError(props["MaxRuntimeInSeconds"])))
      && ("BaselineReportsUri" in props && IntOr(props, "MaxRuntimeInSeconds", DefaultMaxRuntimeInSeconds).Ok? ==>
            && (region !in ModelMonitorImage.KnownRegions ==> r == Err(KeyError(region)))
            && (region in ModelMonitorImage.KnownRegions && "PassRoleArn" !in props ==>
                  r == Err(KeyError("PassRoleArn"))))
    ensures r.Ok? ==>
      var q := r.value;
      && Ok(q.processingJobName) == ProcessingJobName(props)
      && q.inputS3Uri == props["BaselineInputUri"]
      && q.outputS3Uri == props["BaselineReportsUri"]
      && q.roleArn == props["PassRoleArn"]
      && q.datasetSource == q.inputLocalPath
      && q.outputPath == q.outputLocalPath
      && q.instanceCount == 1 && q.volumeSizeInGB == 20
    ensures r.Ok? ==>
      var q := r.value;
      && q.inputName == "baseline_dataset_input"
      && q.inputLocalPath == "/opt/ml/processing/input/baseline_dataset_input"
      && q.s3DataType == "S3Prefix" && q.s3InputMode == "File"
      && q.s3DataDistributionType == "FullyReplicated" && q.s3CompressionType == "None"
      && q.outputName == "monitoring_output"
      && q.outputLocalPath == "/opt/ml/processing/output"
      && q.s3UploadMode == "EndOfJob"
      && q.datasetFormat == DatasetFormat
    ensures r.Ok? ==>
      var q := r.value;
      && q.instanceType == (if "InstanceType" in props then props["InstanceType"] else "ml.t3.medium")
      && q.publishCloudwatchMetrics ==
           (if "PublishCloudwatchMetrics" in props then props["PublishCloudwatchMetrics"] else "Disabled")
      && ("MaxRuntimeInSeconds" !in props ==> q.maxRuntimeInSeconds == 300)
      && Ok(q.maxRuntimeInSeconds) == IntOr(props, "MaxRuntimeInSeconds", DefaultMaxRuntimeInSeconds)
      && ("ImageURI" in props ==> q.imageUri == props["ImageURI"])
      && ("ImageURI" !in props ==> Ok(q.imageUri) == ModelMonitorImage.ContainerUri(region))
  {
    var name :- ProcessingJobName(props);
    var input :- Require(props, "BaselineInputUri");
    var reports :- Require(props, "BaselineReportsUri");
    var maxRuntime :- IntOr(props, "MaxRuntimeInSeconds", DefaultMaxRuntimeInSeconds);
    // The default image is looked up even when `ImageURI` is supplied.
    var defaultImage :- ModelMonitorImage.ContainerUri(region);
    var role :- Require(props, "PassRoleArn");
    Ok(ProcessingJobRequest(
      inputName := "baseline_dataset_input",
      inputS3Uri := input,
      inputLocalPath := InputLocalPath,
      s3DataType := "S3Prefix",
      s3InputMode := "File",
      s3DataDistributionType := "FullyReplicated",
      s3CompressionType := "None",
      outputName := "monitoring_output",
      outputS3Uri := reports,
      outputLocalPath := OutputLocalPath,
      s3UploadMode := "EndOfJob",
      processingJobName := name,
      instanceCount := 1,
      instanceType := GetOr(props, "InstanceType", DefaultInstanceType),
      volumeSizeInGB := 20,
      maxRuntimeInSeconds := maxRuntime,
      imageUri := GetOr(props, "ImageURI", defaultImage),
      datasetFormat := DatasetFormat,
      datasetSource := InputLocalPath,
      outputPath := OutputLocalPath,
      publishCloudwatchMetrics := GetOr(props, "PublishCloudwatchMetrics", DefaultPublishCloudwatchMetrics),
      roleArn := role))
  }

  /**
   * `create_processing_job` (and `create_handler`, which returns its value): nothing is
   * submitted unless the request could be built; after a successful submit `Data['Arn']`
   * is the returned job ARN, and that ARN is the result.
   */
  method CreateProcessingJob(sm: Client<SageMakerCall>, helper: CfnHelper, props: Props,
                             created: Reply<string>)
    returns (r: Result<string>)
    modifies sm, helper
    ensures ProcessingJobRequestFor(props, helper.region).Err? ==>
      && r == Err(ProcessingJobRequestFor(props, helper.region).failure)
      && sm.log == old(sm.log) && helper.data == old(helper.data)
    ensures ProcessingJobRequestFor(props, helper.region).Ok? ==>
      sm.log == old(sm.log) + [SageMakerCall.CreateProcessingJob(ProcessingJobRequestFor(props, helper.region).value)]
    ensures created.Raised? ==> r.Err? && helper.data == old(helper.data)
    ensures ProcessingJobRequestFor(props, helper.region).Ok? && created.Raised? ==>
      r == Err(RemoteError(created.error))
    ensures r.Ok? <==> ProcessingJobRequestFor(props, helper.region).Ok? && created.Returned?
    ensures r.Ok? ==> r.value == created.value && helper.data == old(helper.data)["Arn" := r.value]
  {
    var request :- ProcessingJobRequestFor(props, helper.region);
    var response := sm.Send(SageMakerCall.CreateProcessingJob(request), created);
    match response {
      case Raised(e) =>
        r := Err(RemoteError(e));
      case Returned(arn) =>
        helper.data := helper.data["Arn" := arn];
        r := Ok(helper.data["Arn"]);
    }
  }

  /** `is_processing_job_ready`: one describe call, then the three-way decision on its status. */
  method IsProcessingJobReady(sm: Client<SageMakerCall>, name: string, described: Reply<string>)
    returns (ready: Result<bool>)
    modifies sm
    ensures sm.log == old(sm.log) + [DescribeProcessingJob(name)]
    ensures described.Raised? ==> ready == Err(RemoteError(described.error))
    ensures described.Returned? ==> ready == ProcessingJobReadiness(name, described.value)
  {
    var response := sm.Send(DescribeProcessingJob(name), described);
    match response {
      case Raised(e) => ready := Err(RemoteError(e));
      case Returned(status) => ready := ProcessingJobReadiness(name, status);
    }
  }

  /** `poll_create`, also registered for poll-update: polls the job named by the properties. */
  method PollCreate(sm: Client<SageMakerCall>, props: Props, described: Reply<string>)
    returns (ready: Result<bool>)
    modifies sm
    ensures "ProcessingJobName" !in props ==>
      ready == Err(KeyError("ProcessingJobName")) && sm.log == old(sm.log)
    ensures "ProcessingJobName" in props ==>
      && sm.log == old(sm.log) + [DescribeProcessingJob(props["ProcessingJobName"])]
      && (described.Raised? ==> ready == Err(RemoteError(described.error)))
      && (described.Returned? ==> ready == ProcessingJobReadiness(props["ProcessingJobName"], described.value))
  {
    var name :- ProcessingJobName(props);
    ready := IsProcessingJobReady(sm, name, described);
  }

  /** `delete_processing_job`: a `ResourceNotFound` error means already deleted. */
  method DeleteProcessingJob(sm: Client<SageMakerCall>, name: string, deleted: Reply<()>)
    returns (r: Result<()>)
    modifies sm
    ensures sm.log == old(sm.log) + [SageMakerCall.DeleteProcessingJob(name)]
    ensures r == SwallowNotFound(deleted)
  {
    var response := sm.Send(SageMakerCall.DeleteProcessingJob(name), deleted);
    r := SwallowNotFound(response);
  }

  /** `delete_handler`: deletes the job named by the properties. */
  method DeleteHandler(sm: Client<SageMakerCall>, props: Props, deleted: Reply<()>)
    returns (r: Result<()>)
    modifies sm
    ensures "ProcessingJobName" !in props ==>
      r == Err(KeyError("ProcessingJobName")) && sm.log == old(sm.log)
    ensures "ProcessingJobName" in props ==>
      && sm.log == old(sm.log) + [SageMakerCall.DeleteProcessingJob(props["ProcessingJobName"])]
      && r == SwallowNotFound(deleted)
  {
    var name :- ProcessingJobName(props);
    r := DeleteProcessingJob(sm, name, deleted);
  }

  /** `update_handler`: returns normally and, modifying nothing, makes no call and sets no data. */
  method UpdateHandler(sm: Client<SageMakerCall>, helper: CfnHelper) returns (r: Result<()>)
    ensures r == Ok(()) && sm.log == old(sm.log) && helper.data == old(helper.data)
  {
    r := Ok(());
  }
}
