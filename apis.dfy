/**
 * The shapes of the remote calls the handlers make on SageMaker, CodeDeploy and Lambda:
 * the requests they send, the parts of the responses they read, and one constructor per
 * operation for the call logs.
 */
module Apis {
  import opened Runtime

  // ---------------------------------------------------------------------------------------
  // SageMaker requests

  /**
   * `MonitoringScheduleConfig` as passed to `create_monitoring_schedule`, flattened: each
   * field is named after the leaf of the request dictionary it stands for.
   */
  datatype ScheduleConfig = ScheduleConfig(
    scheduleExpression: string,
    constraintsS3Uri: string,               // BaselineConfig.ConstraintsResource.S3Uri
    statisticsS3Uri: string,                // BaselineConfig.StatisticsResource.S3Uri
    endpointName: string,                   // MonitoringInputs[0].EndpointInput
    inputLocalPath: string,
    s3InputMode: string,
    s3DataDistributionType: string,
    outputS3Uri: string,                    // MonitoringOutputs[0].S3Output
    outputLocalPath: string,
    s3UploadMode: string,
    instanceCount: int,                     // MonitoringResources.ClusterConfig
    instanceType: string,
    volumeSizeInGB: int,
    imageUri: string,                       // MonitoringAppSpecification
    recordPreprocessorSourceUri: Option<string>,
    postAnalyticsProcessorSourceUri: Option<string>,
    maxRuntimeInSeconds: int,               // StoppingCondition
    publishCloudwatchMetrics: string,       // Environment
    roleArn: string)

  /** The keyword arguments of `create_processing_job`, flattened the same way. */
  datatype ProcessingJobRequest = ProcessingJobRequest(
    inputName: string,                      // ProcessingInputs[0]
    inputS3Uri: string,
    inputLocalPath: string,
    s3DataType: string,
    s3InputMode: string,
    s3DataDistributionType: string,
    s3CompressionType: string,
    outputName: string,                     // ProcessingOutputConfig.Outputs[0]
    outputS3Uri: string,
    outputLocalPath: string,
    s3UploadMode: string,
    processingJobName: string,
    instanceCount: int,                     // ProcessingResources.ClusterConfig
    instanceType: string,
    volumeSizeInGB: int,
    maxRuntimeInSeconds: int,               // StoppingCondition
    imageUri: string,                       // AppSpecification
    datasetFormat: string,                  // Environment
    datasetSource: string,
    outputPath: string,
    publishCloudwatchMetrics: string,
    roleArn: string)

  /** One production variant of an endpoint configuration, copied as a whole. */
  datatype ProductionVariant = ProductionVariant(
    variantName: string, modelName: string, initialInstanceCount: int, instanceType: string)

  datatype CaptureMode = Input | Output

  /** `DataCaptureConfig` of an endpoint configuration. */
  datatype DataCaptureConfig = DataCaptureConfig(
    enableCapture: bool,
    destinationS3Uri: string,
    initialSamplingPercentage: int,
    captureModes: seq<CaptureMode>,
    csvContentTypes: seq<string>,           // CaptureContentTypeHeader
    jsonContentTypes: seq<string>)

  datatype Tag = Tag(key: string, value: string)

  /** The keyword arguments of `create_endpoint_config`. */
  datatype EndpointConfigRequest = EndpointConfigRequest(
    endpointConfigName: string,
    productionVariants: seq<ProductionVariant>,
    dataCapture: DataCaptureConfig,
    tags: seq<Tag>,
    kmsKeyId: Option<string>)

  // ---------------------------------------------------------------------------------------
  // SageMaker responses (the parts that are read)

  datatype EndpointDescription = EndpointDescription(status: string, endpointConfigName: string)

  datatype EndpointConfigDescription = EndpointConfigDescription(
    productionVariants: seq<ProductionVariant>, kmsKeyId: Option<string>)

  datatype TrainingJobDescription = TrainingJobDescription(
    status: string, trainingJobArn: string, secondaryStatus: string)

  /** The SageMaker operations the handlers call, with their arguments. */
  datatype SageMakerCall =
    | DescribeMonitoringSchedule(scheduleName: string)
    | CreateMonitoringSchedule(scheduleName: string, config: ScheduleConfig)
    | DeleteMonitoringSchedule(scheduleName: string)
    | DescribeProcessingJob(jobName: string)
    | CreateProcessingJob(job: ProcessingJobRequest)
    | DeleteProcessingJob(jobName: string)
    | DescribeTrainingJob(jobName: string)
    | DescribeEndpoint(endpointName: string)
    | DescribeEndpointConfig(configName: string)
    | CreateEndpointConfig(endpointConfig: EndpointConfigRequest)
    | UpdateEndpoint(endpointName: string, configName: string)
    | DeleteEndpointConfig(configName: string)

  // ---------------------------------------------------------------------------------------
  // CodeDeploy

  datatype HookStatus = Succeeded | Failed

  /** `put_lifecycle_event_hook_execution_status`, the one CodeDeploy operation used. */
  datatype CodeDeployCall =
    PutLifecycleEventHookExecutionStatus(deploymentId: string, executionId: string, status: HookStatus)

  /** A CodeDeploy lifecycle-hook event: the deployment and the hook execution to report on. */
  datatype HookEvent = HookEvent(deploymentId: string, lifecycleEventHookExecutionId: string)

  /** The dictionary a hook returns: `statusCode` and an optional `message`. */
  datatype HookResponse = HookResponse(statusCode: int, message: Option<string>)

  /** The report a hook sends for `event`. */
  function Report(event: HookEvent, status: HookStatus): CodeDeployCall {
    PutLifecycleEventHookExecutionStatus(event.deploymentId, event.lifecycleEventHookExecutionId, status)
  }

  // ---------------------------------------------------------------------------------------
  // Lambda

  /** `Configuration` of a `get_function` response: `Version` and `Environment.Variables`. */
  datatype FunctionConfiguration = FunctionConfiguration(version: string, variables: Props)

  datatype LambdaCall = GetFunction(functionName: string, qualifier: string)
}
