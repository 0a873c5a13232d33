/**
 * The pre-traffic hook of a blue/green deployment: it passes the deployment when the
 * endpoint is in service, fails it otherwise, and reports that verdict to CodeDeploy
 * exactly once.
 */
module PreTrafficHook {
  import opened Runtime
  import opened Apis

  /** The environment variables the handler reads, in order, before calling anything. */
  const EnvKeys := ["FUNCTION_NAME", "FUNCTION_VERSION", "ENDPOINT_NAME"]

  /**
   * `error_message` once the endpoint has been described: none for an endpoint in service,
   * the status for any other endpoint, the error's message when describe raised.
   */
  function ErrorMessage(described: Reply<EndpointDescription>): (r: Option<string>)
    ensures r.None? <==> described.Returned? && described.value.status == "InService"
    ensures described.Raised? ==> r == Some(described.error.message)
    ensures described.Returned? && r.Some? ==>
      r.value == "Stagemaker endpoint status: " + described.value.status + " not InService"
  {
    match described
    case Raised(e) => Some(e.message)
    case Returned(endpoint) =>
      if endpoint.status == "InService" then None
      else Some("Stagemaker endpoint status: " + endpoint.status + " not InService")
  }

  /**
   * The status reported to CodeDeploy. It is Failed exactly when `error_message` is truthy,
   * so a describe error whose message is empty passes the deployment.
   */
  function Verdict(described: Reply<EndpointDescription>): (s: HookStatus)
    ensures s == Succeeded <==>
      || (described.Returned? && described.value.status == "InService")
      || (described.Raised? && described.error.message == "")
    ensures s == Failed ==> ErrorMessage(described).Some? && ErrorMessage(described).value != ""
  {
    var message := ErrorMessage(described);
    if message.Some? && message.value != "" then Failed else Succeeded
  }

  /**
   * `lambda_handler`: after reading its environment, it describes the endpoint, then makes
   * exactly one report, for this event's deployment and hook execution. The result is 200
   * for Succeeded, 400 with the reason for Failed, and 500 with the error's message when
   * the report itself raised.
   */
  method LambdaHandler(sm: Client<SageMakerCall>, cd: Client<CodeDeployCall>, env: Props,
                       event: HookEvent, described: Reply<EndpointDescription>, reported: Reply<()>)
    returns (r: Result<HookResponse>)
    modifies sm, cd
    ensures FirstMissing(env, EnvKeys).Some? ==>
      && r == Err(KeyError(FirstMissing(env, EnvKeys).value))
      && sm.log == old(sm.log) && cd.log == old(cd.log)
    ensures FirstMissing(env, EnvKeys).None? ==>
      && "ENDPOINT_NAME" in env
      && sm.log == old(sm.log) + [DescribeEndpoint(env["ENDPOINT_NAME"])]
      && cd.log == old(cd.log) + [Report(event, Verdict(described))]
      && r.Ok?
    ensures r.Ok? && reported.Raised? ==> r.value == HookResponse(500, Some(reported.error.message))
    ensures r.Ok? && reported.Returned? && Verdict(described) == Succeeded ==>
      r.value == HookResponse(200, None)
    ensures r.Ok? && reported.Returned? && Verdict(described) == Failed ==>
      && r.value == HookResponse(400, ErrorMessage(described))
      && r.value.message.Some? && r.value.message.value != ""
  {
    assert EnvKeys[0] == "FUNCTION_NAME" && EnvKeys[1] == "FUNCTION_VERSION" && EnvKeys[2] == "ENDPOINT_NAME";
    var functionName :- Require(env, "FUNCTION_NAME");
    var functionVersion :- Require(env, "FUNCTION_VERSION");
    var endpointName :- Require(env, "ENDPOINT_NAME");

    var errorMessage: Option<string> := None;
    var response := sm.Send(DescribeEndpoint(endpointName), described);
    match response {
      case Returned(endpoint) =>
        if endpoint.status != "InService" {
          errorMessage := Some("Stagemaker endpoint status: " + endpoint.status + " not InService");
        }
      case Raised(e) =>
        errorMessage := Some(e.message);
    }

    if errorMessage.Some? && errorMessage.value != "" {
      var report := cd.Send(Report(event, Failed), reported);
      if report.Raised? {
        return Ok(HookResponse(500, Some(report.error.message)));
      }
      r := Ok(HookResponse(400, errorMessage));
    } else {
      var report := cd.Send(Report(event, Succeeded), reported);
      if report.Raised? {
        return Ok(HookResponse(500, Some(report.error.message)));
      }
      r := Ok(HookResponse(200, None));
    }
  }
}
