/**
 * The training-waiter custom resource: it creates nothing itself; create, update and
 * delete share one handler that does nothing, and polling waits for an existing training
 * job to complete, publishing the job's ARN when it does.
 */
module TrainingWaiter {
  import opened Runtime
  import opened Apis

  /** `get_training_job_name`: the job is named by the `TrainingJobName` property. */
  function TrainingJobName(props: Props): (r: Result<string>)
    ensures r.Ok? <==> "TrainingJobName" in props
    ensures r.Ok? ==> r.value == props["TrainingJobName"]
    ensures r.Err? ==> r.failure == KeyError("TrainingJobName")
  {
    Require(props, "TrainingJobName")
  }

  /** The decision of `is_training_job_ready` once the status is known. */
  function TrainingJobReadiness(name: string, status: string): (r: Result<bool>)
    ensures r == Ok(true) <==> status == "Completed"
    ensures r == Ok(false) <==> status == "InProgress"
    ensures r.Err? <==> status != "Completed" && status != "InProgress"
    ensures r.Err? ==>
      r.failure == UnexpectedStatus("Training job (" + name + ") has unexpected status: " + status)
  {
    Readiness("Training job", name, status, "Completed", "InProgress")
  }

  /**
   * `is_training_job_ready`: one describe call; a completed job sets `Data['Arn']` to its
   * ARN and answers true, a job in progress answers false and leaves `Data` alone, any
   * other status raises an exception naming the job and the status.
   */
  method IsTrainingJobReady(sm: Client<SageMakerCall>, helper: CfnHelper, name: string,
                            described: Reply<TrainingJobDescription>)
    returns (ready: Result<bool>)
    modifies sm, helper
    ensures sm.log == old(sm.log) + [DescribeTrainingJob(name)]
    ensures described.Raised? ==> ready == Err(RemoteError(described.error))
    ensures described.Returned? ==> ready == TrainingJobReadiness(name, described.value.status)
    ensures ready == Ok(true) ==> helper.data == old(helper.data)["Arn" := described.value.trainingJobArn]
    ensures ready != Ok(true) ==> helper.data == old(helper.data)
  {
    var response := sm.Send(DescribeTrainingJob(name), described);
    match response {
      case Raised(e) =>
        ready := Err(RemoteError(e));
      case Returned(job) =>
        if job.status == "Completed" {
          helper.data := helper.data["Arn" := job.trainingJobArn];
          ready := Ok(true);
        } else if job.status == "InProgress" {
          ready := Ok(false);
        } else {
          ready := Err(UnexpectedStatus(UnexpectedStatusMessage("Training job", name, job.status)));
        }
    }
  }

  /** `poll_create`, also registered for poll-update: polls the job named by the properties. */
  method PollCreate(sm: Client<SageMakerCall>, helper: CfnHelper, props: Props,
                    described: Reply<TrainingJobDescription>)
    returns (ready: Result<bool>)
    modifies sm, helper
    ensures "TrainingJobName" !in props ==>
      && ready == Err(KeyError("TrainingJobName"))
      && sm.log == old(sm.log) && helper.data == old(helper.data)
    ensures "TrainingJobName" in props ==>
      && sm.log == old(sm.log) + [DescribeTrainingJob(props["TrainingJobName"])]
      && (described.Raised? ==> ready == Err(RemoteError(described.error)))
      && (described.Returned? ==> ready == TrainingJobReadiness(props["TrainingJobName"], described.value.status))
    ensures ready == Ok(true) ==> helper.data == old(helper.data)["Arn" := described.value.trainingJobArn]
    ensures ready != Ok(true) ==> helper.data == old(helper.data)
  {
    var name :- TrainingJobName(props);
    ready := IsTrainingJobReady(sm, helper, name, described);
  }

  /**
   * `create_handler`, registered for create, update and delete alike: returns normally and,
   * modifying nothing, makes no call and sets no data.
   */
  method Handler(sm: Client<SageMakerCall>, helper: CfnHelper) returns (r: Result<()>)
    ensures r == Ok(()) && sm.log == old(sm.log) && helper.data == old(helper.data)
  {
    r := Ok(());
  }
}
