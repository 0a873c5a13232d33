/**
 * The pipeline's parameter-file builders: a unique training-job name made from a base and a
 * timestamp, the training request, the experiment and trial records, and the parameter
 * files for the baseline, development and production stacks. Clock readings are passed in
 * as the timestamp strings they produce.
 */
module Workflow {
  import opened Apis

  const DefaultMaxLength := 63

  /** Python's `s[:stop]`: a negative `stop` counts back from the end of `s`. */
  function SliceTo(s: string, stop: int): (r: string)
    ensures r <= s
    ensures 0 <= stop ==> |r| == if stop < |s| then stop else |s|
    ensures stop < 0 ==> |r| == if |s| + stop > 0 then |s| + stop else 0
  {
    if stop >= 0 then (if stop < |s| then s[..stop] else s)
    else if |s| + stop > 0 then s[..|s| + stop] else []
  }

  /**
   * `name_from_base`: the base cut at `maxLength - |timestamp| - 1`, then a dash and the
   * timestamp. The name fits in `maxLength` whenever the timestamp and its dash do
   * (`maxLength > |timestamp|`); otherwise the cut counts from the base's end.
   */
  function NameFromBase(base: string, maxLength: int, timestamp: string): (r: string)
    ensures |r| > |timestamp|
    ensures r[..|r| - |timestamp| - 1] <= base
    ensures r[|r| - |timestamp| - 1..] == "-" + timestamp
    ensures maxLength > |timestamp| ==> |r| <= maxLength
    ensures |base| + |timestamp| + 1 <= maxLength ==> r == base + "-" + timestamp
    ensures maxLength > |timestamp| && |base| + |timestamp| + 1 > maxLength ==> |r| == maxLength
  {
    var trimmed := SliceTo(base, maxLength - |timestamp| - 1);
    assert (trimmed + "-" + timestamp)[..|trimmed|] == trimmed;
    trimmed + "-" + timestamp
  }

  /**
   * When the timestamp and its dash do not fit (`maxLength <= |timestamp|`), the slice bound
   * is negative: the base loses `|timestamp| + 1 - maxLength` characters from its end, and
   * all of them when that is at least its length. So a smaller bound can keep more of the
   * base than a larger one that is still zero.
   */
  lemma NameFromBaseNegativeBound(base: string, maxLength: int, timestamp: string)
    requires maxLength <= |timestamp|
    ensures var cut := |timestamp| + 1 - maxLength;
      NameFromBase(base, maxLength, timestamp) ==
        (if cut < |base| then base[..|base| - cut] else []) + "-" + timestamp
  {
  }

  /**
   * The name is not monotone in `maxLength`: one more than the timestamp's length leaves
   * nothing of the base, while the timestamp's length itself keeps all but its last character.
   */
  lemma NameFromBaseNotMonotone(base: string, timestamp: string)
    requires |base| > 1
    ensures NameFromBase(base, |timestamp| + 1, timestamp) == "-" + timestamp
    ensures NameFromBase(base, |timestamp|, timestamp) == base[..|base| - 1] + "-" + timestamp
  {
    assert SliceTo(base, 0) == [];
    assert SliceTo(base, -1) == base[..|base| - 1];
  }

  datatype MetricDefinition = MetricDefinition(name: string, regex: string)

  /** The metrics the training job publishes, scraped from its log by these patterns. */
  const TrainingMetrics := [
    MetricDefinition("training:loss", "training loss: (.*?);"),
    MetricDefinition("train:accuracy", "training accuracy: (.*?)%;"),
    MetricDefinition("val:loss", "validation loss: (.*?);"),
    MetricDefinition("val:accuracy", "validation accuracy: (.*?)%;"),
    MetricDefinition("test:loss", "test loss: (.*?);"),
    MetricDefinition("test:accuracy", "test accuracy: (.*?)%;")
  ]

  /** The training-job request; the input data configuration `D` is passed through as read. */
  datatype TrainingRequest<D> = TrainingRequest(
    trainingJobName: string,
    roleArn: string,
    trainingImage: string,                  // AlgorithmSpecification
    trainingInputMode: string,
    metricDefinitions: seq<MetricDefinition>,
    inputDataConfig: D,
    hyperParameters: map<string, string>,
    s3OutputPath: string,                   // OutputDataConfig
    instanceCount: int,                     // ResourceConfig
    instanceType: string,
    volumeSizeInGB: int,
    stoppingCondition: int,                 // a bare number in the source
    experimentName: string,                 // ExperimentConfig
    trialName: string,
    trialComponentDisplayName: string,
    tags: seq<Tag>)

  /**
   * `get_training_request`: the job is named after the pipeline execution with a short
   * timestamp, runs on one `ml.m4.xlarge` instance with 30 GB, and is recorded in the
   * model's experiment under the trial named by the execution.
   */
  function TrainingRequestFor<D>(modelName: string, jobId: string, role: string, imageUri: string,
                                 inputData: D, hyperparameters: map<string, string>, outputUri: string,
                                 shortTimestamp: string)
    : (r: TrainingRequest<D>)
    ensures r.trainingJobName == NameFromBase("mlops-" + jobId, DefaultMaxLength, shortTimestamp)
    ensures && |r.trainingJobName| > |shortTimestamp|
            && r.trainingJobName[..|r.trainingJobName| - |shortTimestamp| - 1] <= "mlops-" + jobId
            && r.trainingJobName[|r.trainingJobName| - |shortTimestamp| - 1..] == "-" + shortTimestamp
    ensures |shortTimestamp| < 63 ==> |r.trainingJobName| <= 63
    ensures |jobId| + |shortTimestamp| + 7 <= 63 ==> r.trainingJobName == "mlops-" + jobId + "-" + shortTimestamp
    ensures r.trainingInputMode == "File" && r.stoppingCondition == 360000
    ensures r.metricDefinitions == TrainingMetrics
    ensures r.trialComponentDisplayName == "Training"
    ensures r.roleArn == role && r.trainingImage == imageUri && r.s3OutputPath == outputUri
    ensures r.inputDataConfig == inputData && r.hyperParameters == hyperparameters
    ensures r.instanceCount == 1 && r.instanceType == "ml.m4.xlarge" && r.volumeSizeInGB == 30
    ensures r.experimentName == modelName && r.trialName == jobId && r.tags == []
  {
    TrainingRequest(
      trainingJobName := NameFromBase("mlops-" + jobId, DefaultMaxLength, shortTimestamp),
      roleArn := role,
      trainingImage := imageUri,
      trainingInputMode := "File",
      metricDefinitions := TrainingMetrics,
      inputDataConfig := inputData,
      hyperParameters := hyperparameters,
      s3OutputPath := outputUri,
      instanceCount := 1,
      instanceType := "ml.m4.xlarge",
      volumeSizeInGB := 30,
      stoppingCondition := 360000,
      experimentName := modelName,
      trialName := jobId,
      trialComponentDisplayName := "Training",
      tags := [])
  }

  datatype Experiment = Experiment(experimentName: string, displayName: string, description: string)

  datatype Trial = Trial(trialName: string, experimentName: string, displayName: string, description: string)

  /** `get_experiment`: the experiment is named after the model. */
  function ExperimentFor(modelName: string): (r: Experiment)
    ensures r.experimentName == modelName
    ensures r.description == "Training for " + modelName
    ensures r.displayName == "Training"
  {
    Experiment(modelName, "Training", "Training for " + modelName)
  }

  /**
   * `get_trial`: the trial belongs to the model's experiment and is named by the pipeline
   * execution, as the training request's experiment configuration expects.
   */
  function TrialFor(modelName: string, jobId: string): (r: Trial)
    ensures r.experimentName == ExperimentFor(modelName).experimentName
    ensures r.trialName == jobId
    ensures r.description == ExperimentFor(modelName).description
    ensures r.displayName == ExperimentFor(modelName).displayName == "Training"
  {
    Trial(jobId, modelName, "Training", "Training for " + modelName)
  }

  /** A CloudFormation parameter file: `{"Parameters": {...}}`. */
  datatype ParameterFile = ParameterFile(parameters: map<string, string>)

  /** `get_suggest_baseline`: exactly these four parameters. */
  function SuggestBaselineParams(modelName: string, jobId: string, role: string, baselineUri: string)
    : (r: ParameterFile)
    ensures r.parameters.Keys == {"ModelName", "TrainJobId", "MLOpsRoleArn", "BaselineInputUri"}
    ensures r.parameters["ModelName"] == modelName && r.parameters["TrainJobId"] == jobId
    ensures r.parameters["MLOpsRoleArn"] == role && r.parameters["BaselineInputUri"] == baselineUri
  {
    ParameterFile(map[
      "ModelName" := modelName,
      "TrainJobId" := jobId,
      "MLOpsRoleArn" := role,
      "BaselineInputUri" := baselineUri])
  }

  /** `get_dev_params`: exactly these four parameters. */
  function DevParams(modelName: string, jobId: string, role: string, imageUri: string): (r: ParameterFile)
    ensures r.parameters.Keys == {"ModelName", "TrainJobId", "MLOpsRoleArn", "ImageRepoUri"}
    ensures r.parameters["ModelName"] == modelName && r.parameters["TrainJobId"] == jobId
    ensures r.parameters["MLOpsRoleArn"] == role && r.parameters["ImageRepoUri"] == imageUri
  {
    ParameterFile(map[
      "ModelName" := modelName,
      "TrainJobId" := jobId,
      "MLOpsRoleArn" := role,
      "ImageRepoUri" := imageUri])
  }

  const DefaultMetricName := "feature_baseline_drift_class_predictions"

  /** `str(0.4)`, the default threshold as it is written into the file. */
  const DefaultMetricThreshold := "0.4"

  /**
   * `get_prd_params`: the development parameters, unchanged, plus the drift alarm's metric
   * name and its threshold, the latter already serialised as a string.
   */
  function PrdParams(modelName: string, jobId: string, role: string, imageUri: string,
                     metricName: string, metricThreshold: string)
    : (r: ParameterFile)
    ensures var dev := DevParams(modelName, jobId, role, imageUri).parameters;
      && r.parameters.Keys == dev.Keys + {"ScheduleMetricName", "ScheduleMetricThreshold"}
      && forall k | k in dev :: r.parameters[k] == dev[k]
    ensures r.parameters["ScheduleMetricName"] == metricName
    ensures r.parameters["ScheduleMetricThreshold"] == metricThreshold
  {
    var dev := DevParams(modelName, jobId, role, imageUri).parameters;
    var prod := map["ScheduleMetricName" := metricName, "ScheduleMetricThreshold" := metricThreshold];
    ParameterFile(dev + prod)
  }

  /**
   * `get_prd_params` called without the metric arguments, as the pipeline does: the alarm
   * watches the class-prediction drift metric with the threshold `0.4`.
   */
  function DefaultPrdParams(modelName: string, jobId: string, role: string, imageUri: string)
    : (r: ParameterFile)
    ensures r.parameters.Keys ==
      DevParams(modelName, jobId, role, imageUri).parameters.Keys + {"ScheduleMetricName", "ScheduleMetricThreshold"}
    ensures r.parameters["ScheduleMetricName"] == "feature_baseline_drift_class_predictions"
    ensures r.parameters["ScheduleMetricThreshold"] == "0.4"
  {
    PrdParams(modelName, jobId, role, imageUri, DefaultMetricName, DefaultMetricThreshold)
  }
}
