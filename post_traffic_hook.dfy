/**
 * The post-traffic hook of a blue/green deployment: it deletes, best effort, the monitoring
 * schedule of the endpoint the previously live function version served, then reports
 * Succeeded to CodeDeploy.
 */
module PostTrafficHook {
  import opened Runtime
  import opened Apis

  /** The environment variables the handler reads, in order, before calling anything. */
  const EnvKeys := ["FUNCTION_NAME", "FUNCTION_VERSION"]

  /**
   * The failures inside the cleanup that are not ClientErrors, so that the handler's except
   * clause does not catch them: a live `Version` that `int()` rejects, or a live function
   * without an `ENDPOINT_NAME` variable.
   */
  function CleanupEscape(live: Reply<FunctionConfiguration>): (r: Option<Failure>)
    ensures r.Some? ==> live.Returned?
    ensures live.Returned? && ParseInt(live.value.version).Err? ==>
      r == Some(ValueError(live.value.version))
    ensures live.Returned? && ParseInt(live.value.version).Ok? ==>
      (r.Some? <==> "ENDPOINT_NAME" !in live.value.variables) && (r.Some? ==> r.value == KeyError("ENDPOINT_NAME"))
  {
    match live
    case Raised(_) => None
    case Returned(configuration) =>
      match ParseInt(configuration.version)
      case Err(failure) => Some(failure)
      case Ok(_) =>
        if "ENDPOINT_NAME" in configuration.variables then None else Some(KeyError("ENDPOINT_NAME"))
  }

  /**
   * `lambda_handler`: look up the function's `live` alias, delete the monitoring schedule
   * named after that version's endpoint, and report Succeeded once. A ClientError from the
   * lookup or from the delete is swallowed (and a failed lookup means no delete); the reply
   * to the delete never changes the outcome.
   */
  method LambdaHandler(sm: Client<SageMakerCall>, cd: Client<CodeDeployCall>, lb: Client<LambdaCall>,
                       env: Props, event: HookEvent,
                       live: Reply<FunctionConfiguration>, deleted: Reply<()>, reported: Reply<()>)
    returns (r: Result<HookResponse>)
    modifies sm, cd, lb
    ensures FirstMissing(env, EnvKeys).Some? ==>
      && r == Err(KeyError(FirstMissing(env, EnvKeys).value))
      && sm.log == old(sm.log) && cd.log == old(cd.log) && lb.log == old(lb.log)
    ensures FirstMissing(env, EnvKeys).None? ==>
      lb.log == old(lb.log) + [GetFunction(env["FUNCTION_NAME"], "live")]
    ensures live.Raised? ==> sm.log == old(sm.log)
    ensures FirstMissing(env, EnvKeys).None? && CleanupEscape(live).Some? ==>
      && r == Err(CleanupEscape(live).value)
      && sm.log == old(sm.log) && cd.log == old(cd.log)
    ensures FirstMissing(env, EnvKeys).None? && live.Returned? && CleanupEscape(live).None? ==>
      sm.log == old(sm.log) + [DeleteMonitoringSchedule(live.value.variables["ENDPOINT_NAME"])]
    ensures FirstMissing(env, EnvKeys).None? && CleanupEscape(live).None? ==>
      && cd.log == old(cd.log) + [Report(event, Succeeded)]
      && (reported.Raised? ==> r == Err(RemoteError(reported.error)))
    ensures r.Ok? <==> FirstMissing(env, EnvKeys).None? && CleanupEscape(live).None? && reported.Returned?
    ensures r.Ok? ==> r.value == HookResponse(200, None)
  {
    assert EnvKeys[0] == "FUNCTION_NAME" && EnvKeys[1] == "FUNCTION_VERSION";
    var functionName :- Require(env, "FUNCTION_NAME");
    var functionVersion :- Require(env, "FUNCTION_VERSION");

    var lookup := lb.Send(GetFunction(functionName, "live"), live);
    if lookup.Returned? {
      var liveVersion :- ParseInt(lookup.value.version);
      var liveEndpointName :- Require(lookup.value.variables, "ENDPOINT_NAME");
      // The source compares the version string from the environment with the integer
      // `liveVersion`; a str never equals an int, so that branch only ever skips a log line.
      var response := sm.Send(DeleteMonitoringSchedule(liveEndpointName), deleted);
      // A ClientError from the delete is swallowed like one from the lookup.
    }

    var report := cd.Send(Report(event, Succeeded), reported);
    if report.Raised? {
      return Err(RemoteError(report.error));
    }
    r := Ok(HookResponse(200, None));
  }
}
