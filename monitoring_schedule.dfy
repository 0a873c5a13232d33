/**
 * The monitoring-schedule custom resource: create builds a monitoring-schedule config from
 * the resource properties and submits it, poll reports whether the schedule is scheduled,
 * delete removes it (an absent schedule counts as deleted), update does nothing.
 */
module MonitoringSchedule {
  import opened Runtime
  import opened Apis
  import ModelMonitorImage

  const DefaultScheduleExpression := "cron(0 * ? * * *)"
  const DefaultInputLocalPath := "/opt/ml/processing/endpointdata"
  const DefaultOutputLocalPath := "/opt/ml/processing/localpath"
  const DefaultInstanceType := "ml.t3.medium"
  const DefaultMaxRuntimeInSeconds := 300
  const DefaultPublishCloudwatchMetrics := "Enabled"

  /**
   * The key whose presence sets `PostAnalyticsProcessorSourceUri`, spelled as in the source:
   * `PostAnalyticsPro` + the full key + `cessorSourceUri`.
   */
  const MisspelledPostAnalyticsKey := "PostAnalyticsProPostAnalyticsProcessorSourceUricessorSourceUri"

  /** The properties without which the config cannot be built, in the order they are read. */
  const RequiredBeforeImage := ["BaselineConstraintsUri", "BaselineStatisticsUri", "EndpointName", "OutputS3URI"]

  /** `get_schedule_name`: the schedule is named by the `ScheduleName` property. */
  function ScheduleName(props: Props): (r: Result<string>)
    ensures r.Ok? <==> "ScheduleName" in props
    ensures r.Ok? ==> r.value == props["ScheduleName"]
    ensures r.Err? ==> r.failure == KeyError("ScheduleName")
  {
    Require(props, "ScheduleName")
  }

  /** The decision of `is_schedule_ready` once the status is known. */
  function ScheduleReadiness(name: string, status: string): (r: Result<bool>)
    ensures r == Ok(true) <==> status == "Scheduled"
    ensures r == Ok(false) <==> status == "Pending"
    ensures r.Err? <==> status != "Scheduled" && status != "Pending"
    ensures r.Err? ==>
      r.failure == UnexpectedStatus("Monitoring schedule (" + name + ") has unexpected status: " + status)
  {
    Readiness("Monitoring schedule", name, status, "Scheduled", "Pending")
  }

  /**
   * The request `create_monitoring_schedule_config` builds: supplied properties are copied,
   * absent optional ones take their defaults, the cluster is always one instance with a
   * 20 GB volume, and the two preprocessor fields are added under their conditions.
   */
  function ScheduleConfigFor(props: Props, region: string): (r: Result<ScheduleConfig>)
    ensures r.Ok? <==>
      && "BaselineConstraintsUri" in props && "BaselineStatisticsUri" in props
      && "EndpointName" in props && "OutputS3URI" in props
      && region in ModelMonitorImage.KnownRegions
      && IntOr(props, "MaxRuntimeInSeconds", DefaultMaxRuntimeInSeconds).Ok?
      && "PassRoleArn" in props
      && (Truthy(props, MisspelledPostAnalyticsKey) ==> "PostAnalyticsProcessorSourceUri" in props)
    ensures && "BaselineConstraintsUri" in props && "BaselineStatisticsUri" in props
            && "EndpointName" in props && "OutputS3URI" in props
            && region in ModelMonitorImage.KnownRegions ==>
      && ("MaxRuntimeInSeconds" in props && ParseInt(props["MaxRuntimeInSeconds"]).Err? ==>
            r == Err(ValueError(props["MaxRuntimeInSeconds"])))
      && (IntOr(props, "MaxRuntimeInSeconds", DefaultMaxRuntimeInSeconds).Ok? && "PassRoleArn" !in props ==>
            r == Err(KeyError("PassRoleArn")))
      && (IntOr(props, "MaxRuntimeInSeconds", DefaultMaxRuntimeInSeconds).Ok? && "PassRoleArn" in props &&
          Truthy(props, MisspelledPostAnalyticsKey) && "PostAnalyticsProcessorSourceUri" !in props ==>
            r == Err(KeyError("PostAnalyticsProcessorSourceUri")))
    ensures r.Ok? ==>
      var c := r.value;
      && c.constraintsS3Uri == props["BaselineConstraintsUri"]
      && c.statisticsS3Uri == props["BaselineStatisticsUri"]
      && c.endpointName == props["EndpointName"]
      && c.outputS3Uri == props["OutputS3URI"]
      && c.roleArn == props["PassRoleArn"]
      && c.instanceCount == 1 && c.volumeSizeInGB == 20
      && c.s3InputMode == "File" && c.s3DataDistributionType == "FullyReplicated"
      && c.s3UploadMode == "Continuous"
    ensures r.Ok? ==>
      var c := r.value;
      && c.scheduleExpression == (if "ScheduleExpression" in props then props["ScheduleExpression"] else "cron(0 * ? * * *)")
      && c.inputLocalPath == (if "InputLocalPath" in props then props["InputLocalPath"] else "/opt/ml/processing/endpointdata")
      && c.outputLocalPath == (if "OutputLocalPath" in props then props["OutputLocalPath"] else "/opt/ml/processing/localpath")
      && c.instanceType == (if "InstanceType" in props then props["InstanceType"] else "ml.t3.medium")
      && c.publishCloudwatchMetrics == (if "PublishCloudwatchMetrics" in props then props["PublishCloudwatchMetrics"] else "Enabled")
      && ("MaxRuntimeInSeconds" !in props ==> c.maxRuntimeInSeconds == 300)
      && Ok(c.maxRuntimeInSeconds) == IntOr(props, "MaxRuntimeInSeconds", DefaultMaxRuntimeInSeconds)
      && ("ImageURI" in props ==> c.imageUri == props["ImageURI"])
      && ("ImageURI" !in props ==> Ok(c.imageUri) == ModelMonitorImage.ContainerUri(region))
    ensures r.Ok? ==>
      && (r.value.recordPreprocessorSourceUri.Some? <==> Truthy(props, "PostAnalyticsProcessorSourceUri"))
      && (r.value.recordPreprocessorSourceUri.Some? ==>
            r.value.recordPreprocessorSourceUri.value == props["PostAnalyticsProcessorSourceUri"])
      && (r.value.postAnalyticsProcessorSourceUri.Some? <==> Truthy(props, MisspelledPostAnalyticsKey))
      && (r.value.postAnalyticsProcessorSourceUri.Some? ==>
            r.value.postAnalyticsProcessorSourceUri.value == props["PostAnalyticsProcessorSourceUri"])
  {
    var constraints :- Require(props, "BaselineConstraintsUri");
    var statistics :- Require(props, "BaselineStatisticsUri");
    var endpoint :- Require(props, "EndpointName");
    var output :- Require(props, "OutputS3URI");
    // The default image is looked up even when `ImageURI` is supplied.
    var defaultImage :- ModelMonitorImage.ContainerUri(region);
    var maxRuntime :- IntOr(props, "MaxRuntimeInSeconds", DefaultMaxRuntimeInSeconds);
    var role :- Require(props, "PassRoleArn");
    var postAnalytics :-
      if Truthy(props, MisspelledPostAnalyticsKey)
      then var source :- Require(props, "PostAnalyticsProcessorSourceUri"); Ok(Some(source))
      else Ok(None);
    Ok(ScheduleConfig(
      scheduleExpression := GetOr(props, "ScheduleExpression", DefaultScheduleExpression),
      constraintsS3Uri := constraints,
      statisticsS3Uri := statistics,
      endpointName := endpoint,
      inputLocalPath := GetOr(props, "InputLocalPath", DefaultInputLocalPath),
      s3InputMode := "File",
      s3DataDistributionType := "FullyReplicated",
      outputS3Uri := output,
      outputLocalPath := GetOr(props, "OutputLocalPath", DefaultOutputLocalPath),
      s3UploadMode := "Continuous",
      instanceCount := 1,
      instanceType := GetOr(props, "InstanceType", DefaultInstanceType),
      volumeSizeInGB := 20,
      imageUri := GetOr(props, "ImageURI", defaultImage),
      recordPreprocessorSourceUri :=
        if Truthy(props, "PostAnalyticsProcessorSourceUri")
        then Some(props["PostAnalyticsProcessorSourceUri"]) else None,
      postAnalyticsProcessorSourceUri := postAnalytics,
      maxRuntimeInSeconds := maxRuntime,
      publishCloudwatchMetrics := GetOr(props, "PublishCloudwatchMetrics", DefaultPublishCloudwatchMetrics),
      roleArn := role))
  }

  /**
   * Which KeyError a failed build raises: the first of the leading required properties that
   * is missing, and otherwise, when they are all present, an unknown region (the default
   * image is looked up before `ImageURI`, `MaxRuntimeInSeconds` and `PassRoleArn` are read).
   */
  lemma ScheduleConfigFirstFailure(props: Props, region: string)
    ensures FirstMissing(props, RequiredBeforeImage).Some? ==>
      ScheduleConfigFor(props, region) == Err(KeyError(FirstMissing(props, RequiredBeforeImage).value))
    ensures FirstMissing(props, RequiredBeforeImage).None? && region !in ModelMonitorImage.KnownRegions ==>
      ScheduleConfigFor(props, region) == Err(KeyError(region))
  {
    var keys := RequiredBeforeImage;
    assert keys[0] == "BaselineConstraintsUri" && keys[1] == "BaselineStatisticsUri";
    assert keys[2] == "EndpointName" && keys[3] == "OutputS3URI";
  }

  /**
   * `create_monitoring_schedule_config`: builds the request dictionary, then adds the
   * preprocessor fields to its app specification in place.
   */
  method CreateMonitoringScheduleConfig(props: Props, region: string) returns (r: Result<ScheduleConfig>)
    ensures r == ScheduleConfigFor(props, region)
  {
    var constraints :- Require(props, "BaselineConstraintsUri");
    var statistics :- Require(props, "BaselineStatisticsUri");
    var endpoint :- Require(props, "EndpointName");
    var output :- Require(props, "OutputS3URI");
    var defaultImage :- ModelMonitorImage.ContainerUri(region);
    var maxRuntime :- IntOr(props, "MaxRuntimeInSeconds", DefaultMaxRuntimeInSeconds);
    var role :- Require(props, "PassRoleArn");
    var request := ScheduleConfig(
      scheduleExpression := GetOr(props, "ScheduleExpression", DefaultScheduleExpression),
      constraintsS3Uri := constraints,
      statisticsS3Uri := statistics,
      endpointName := endpoint,
      inputLocalPath := GetOr(props, "InputLocalPath", DefaultInputLocalPath),
      s3InputMode := "File",
      s3DataDistributionType := "FullyReplicated",
      outputS3Uri := output,
      outputLocalPath := GetOr(props, "OutputLocalPath", DefaultOutputLocalPath),
      s3UploadMode := "Continuous",
      instanceCount := 1,
      instanceType := GetOr(props, "InstanceType", DefaultInstanceType),
      volumeSizeInGB := 20,
      imageUri := GetOr(props, "ImageURI", defaultImage),
      recordPreprocessorSourceUri := None,
      postAnalyticsProcessorSourceUri := None,
      maxRuntimeInSeconds := maxRuntime,
      publishCloudwatchMetrics := GetOr(props, "PublishCloudwatchMetrics", DefaultPublishCloudwatchMetrics),
      roleArn := role);
    if Truthy(props, "PostAnalyticsProcessorSourceUri") {
      request := request.(recordPreprocessorSourceUri := Some(props["PostAnalyticsProcessorSourceUri"]));
    }
    if Truthy(props, MisspelledPostAnalyticsKey) {
      var source :- Require(props, "PostAnalyticsProcessorSourceUri");
      request := request.(postAnalyticsProcessorSourceUri := Some(source));
    }
    r := Ok(request);
  }

  /**
   * `create_monitoring_schedule`: nothing is submitted unless the name and the config could
   * be built; after a successful submit `Data['Arn']` is the returned schedule ARN.
   */
  method CreateMonitoringSchedule(sm: Client<SageMakerCall>, helper: CfnHelper, props: Props,
                                  created: Reply<string>)
    returns (r: Result<()>)
    modifies sm, helper
    ensures "ScheduleName" !in props ==>
      r == Err(KeyError("ScheduleName")) && sm.log == old(sm.log) && helper.data == old(helper.data)
    ensures "ScheduleName" in props && ScheduleConfigFor(props, helper.region).Err? ==>
      && r == Err(ScheduleConfigFor(props, helper.region).failure)
      && sm.log == old(sm.log) && helper.data == old(helper.data)
    ensures "ScheduleName" in props && ScheduleConfigFor(props, helper.region).Ok? ==>
      sm.log == old(sm.log) +
        [SageMakerCall.CreateMonitoringSchedule(props["ScheduleName"], ScheduleConfigFor(props, helper.region).value)]
    ensures created.Raised? ==> r.Err? && helper.data == old(helper.data)
    ensures "ScheduleName" in props && ScheduleConfigFor(props, helper.region).Ok? && created.Raised? ==>
      r == Err(RemoteError(created.error))
    ensures r.Ok? <==>
      "ScheduleName" in props && ScheduleConfigFor(props, helper.region).Ok? && created.Returned?
    ensures r.Ok? ==> helper.data == old(helper.data)["Arn" := created.value]
  {
    var name :- Require(props, "ScheduleName");
    var config :- CreateMonitoringScheduleConfig(props, helper.region);
    var response := sm.Send(SageMakerCall.CreateMonitoringSchedule(name, config), created);
    match response {
      case Raised(e) =>
        r := Err(RemoteError(e));
      case Returned(arn) =>
        helper.data := helper.data["Arn" := arn];
        r := Ok(());
    }
  }

  /** `is_schedule_ready`: one describe call, then the three-way decision on its status. */
  method IsScheduleReady(sm: Client<SageMakerCall>, name: string, described: Reply<string>)
    returns (ready: Result<bool>)
    modifies sm
    ensures sm.log == old(sm.log) + [DescribeMonitoringSchedule(name)]
    ensures described.Raised? ==> ready == Err(RemoteError(described.error))
    ensures described.Returned? ==> ready == ScheduleReadiness(name, described.value)
  {
    var response := sm.Send(DescribeMonitoringSchedule(name), described);
    match response {
      case Raised(e) => ready := Err(RemoteError(e));
      case Returned(status) => ready := ScheduleReadiness(name, status);
    }
  }

  /** `poll_create`, also registered for poll-update: polls the schedule named by the properties. */
  method PollCreate(sm: Client<SageMakerCall>, props: Props, described: Reply<string>)
    returns (ready: Result<bool>)
    modifies sm
    ensures "ScheduleName" !in props ==> ready == Err(KeyError("ScheduleName")) && sm.log == old(sm.log)
    ensures "ScheduleName" in props ==>
      && sm.log == old(sm.log) + [DescribeMonitoringSchedule(props["ScheduleName"])]
      && (described.Raised? ==> ready == Err(RemoteError(described.error)))
      && (described.Returned? ==> ready == ScheduleReadiness(props["ScheduleName"], described.value))
  {
    var name :- ScheduleName(props);
    ready := IsScheduleReady(sm, name, described);
  }

  /** `delete_monitoring_schedule`: a `ResourceNotFound` error means already deleted. */
  method DeleteMonitoringSchedule(sm: Client<SageMakerCall>, name: string, deleted: Reply<()>)
    returns (r: Result<()>)
    modifies sm
    ensures sm.log == old(sm.log) + [SageMakerCall.DeleteMonitoringSchedule(name)]
    ensures r == SwallowNotFound(deleted)
  {
    var response := sm.Send(SageMakerCall.DeleteMonitoringSchedule(name), deleted);
    r := SwallowNotFound(response);
  }

  /** `delete_handler`: deletes the schedule named by the properties. */
  method DeleteHandler(sm: Client<SageMakerCall>, props: Props, deleted: Reply<()>)
    returns (r: Result<()>)
    modifies sm
    ensures "ScheduleName" !in props ==> r == Err(KeyError("ScheduleName")) && sm.log == old(sm.log)
    ensures "ScheduleName" in props ==>
      sm.log == old(sm.log) + [SageMakerCall.DeleteMonitoringSchedule(props["ScheduleName"])] && r == SwallowNotFound(deleted)
  {
    var name :- ScheduleName(props);
    r := DeleteMonitoringSchedule(sm, name, deleted);
  }

  /** `update_handler`: returns normally and, modifying nothing, makes no call and sets no data. */
  method UpdateHandler(sm: Client<SageMakerCall>, helper: CfnHelper) returns (r: Result<()>)
    ensures r == Ok(()) && sm.log == old(sm.log) && helper.data == old(helper.data)
  {
    r := Ok(());
  }
}
