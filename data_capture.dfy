/**
 * The data-capture custom resource: create copies the endpoint's current configuration into
 * a new, named configuration that captures requests and responses, and repoints the
 * endpoint to it; poll waits for the endpoint to be in service again; delete removes the
 * configuration it created (an absent one counts as deleted); update is not supported.
 */
module DataCapture {
  import opened Runtime
  import opened Apis

  const DefaultInitialSamplingPercentage := 100

  /** `get_endpoint_name`: the endpoint is named by the `EndpointName` property. */
  function EndpointName(props: Props): (r: Result<string>)
    ensures r.Ok? <==> "EndpointName" in props
    ensures r.Ok? ==> r.value == props["EndpointName"]
    ensures r.Err? ==> r.failure == KeyError("EndpointName")
  {
    Require(props, "EndpointName")
  }

  /** The decision of `is_endpoint_ready` once the status is known. */
  function EndpointReadiness(name: string, status: string): (r: Result<bool>)
    ensures r == Ok(true) <==> status == "InService"
    ensures r == Ok(false) <==> status == "Updating"
    ensures r.Err? <==> status != "InService" && status != "Updating"
    ensures r.Err? ==>
      r.failure == UnexpectedStatus("Endpoint (" + name + ") has unexpected status: " + status)
  {
    Readiness("Endpoint", name, status, "InService", "Updating")
  }

  /**
   * The data-capture settings of the new configuration: capture switched on, written to
   * `DataCaptureUri`, sampling 100 percent unless given, both inputs and outputs captured.
   */
  function DataCaptureConfigFor(props: Props): (r: Result<DataCaptureConfig>)
    ensures r.Ok? <==>
      "DataCaptureUri" in props && IntOr(props, "InitialSamplingPercentage", DefaultInitialSamplingPercentage).Ok?
    ensures "DataCaptureUri" !in props ==> r == Err(KeyError("DataCaptureUri"))
    ensures "DataCaptureUri" in props && "InitialSamplingPercentage" in props &&
            ParseInt(props["InitialSamplingPercentage"]).Err? ==>
      r == Err(ValueError(props["InitialSamplingPercentage"]))
    ensures r.Ok? ==>
      && r.value.enableCapture
      && r.value.destinationS3Uri == props["DataCaptureUri"]
      && ("InitialSamplingPercentage" !in props ==> r.value.initialSamplingPercentage == 100)
      && Ok(r.value.initialSamplingPercentage) == IntOr(props, "InitialSamplingPercentage", DefaultInitialSamplingPercentage)
      && r.value.captureModes == [Input, Output]
      && r.value.csvContentTypes == ["text/csv"]
      && r.value.jsonContentTypes == ["application/json"]
  {
    var destination :- Require(props, "DataCaptureUri");
    var sampling :- IntOr(props, "InitialSamplingPercentage", DefaultInitialSamplingPercentage);
    Ok(DataCaptureConfig(
      enableCapture := true,
      destinationS3Uri := destination,
      initialSamplingPercentage := sampling,
      captureModes := [Input, Output],
      csvContentTypes := ["text/csv"],
      jsonContentTypes := ["application/json"]))
  }

  /**
   * The `create_endpoint_config` request built from the current configuration: a new
   * revision named by `EndpointConfigName`, with the same production variants, no tags, and
   * the current KMS key exactly when the current configuration has one.
   */
  function EndpointConfigRequestFor(props: Props, current: EndpointConfigDescription)
    : (r: Result<EndpointConfigRequest>)
    ensures r.Ok? <==> DataCaptureConfigFor(props).Ok? && "EndpointConfigName" in props
    ensures DataCaptureConfigFor(props).Err? ==> r == Err(DataCaptureConfigFor(props).failure)
    ensures DataCaptureConfigFor(props).Ok? && "EndpointConfigName" !in props ==>
      r == Err(KeyError("EndpointConfigName"))
    ensures r.Ok? ==>
      && r.value.endpointConfigName == props["EndpointConfigName"]
      && r.value.productionVariants == current.productionVariants
      && r.value.dataCapture == DataCaptureConfigFor(props).value
      && r.value.tags == []
      && (r.value.kmsKeyId.Some? <==> current.kmsKeyId.Some?)
      && (r.value.kmsKeyId.Some? ==> r.value.kmsKeyId.value == current.kmsKeyId.value)
  {
    var capture :- DataCaptureConfigFor(props);
    var name :- Require(props, "EndpointConfigName");
    Ok(EndpointConfigRequest(name, current.productionVariants, capture, [], current.kmsKeyId))
  }

  /**
   * The guard of `update_endpoint` on the endpoint `name`: it was described with the status
   * that polling the same endpoint reports as ready.
   */
  predicate InService(name: string, endpoint: Reply<EndpointDescription>): (b: bool)
    ensures b <==> endpoint.Returned? && EndpointReadiness(name, endpoint.value.status) == Ok(true)
  {
    endpoint.Returned? && endpoint.value.status == "InService"
  }

  /**
   * `update_endpoint`: describe the endpoint and require it in service, describe its current
   * configuration, create the new configuration, then repoint the endpoint to it. Each step
   * runs only if the ones before it succeeded; the old configuration is never deleted.
   */
  method UpdateEndpoint(sm: Client<SageMakerCall>, props: Props,
                        endpoint: Reply<EndpointDescription>,
                        current: Reply<EndpointConfigDescription>,
                        created: Reply<()>, updated: Reply<()>)
    returns (r: Result<string>)
    modifies sm
    ensures "EndpointName" !in props ==> r == Err(KeyError("EndpointName")) && sm.log == old(sm.log)
    ensures "EndpointName" in props && endpoint.Raised? ==>
      r == Err(RemoteError(endpoint.error)) && sm.log == old(sm.log) + [DescribeEndpoint(props["EndpointName"])]
    ensures "EndpointName" in props && endpoint.Returned? && !InService(props["EndpointName"], endpoint) ==>
      && r == Err(UnexpectedStatus(UnexpectedStatusMessage("Endpoint", props["EndpointName"], endpoint.value.status)))
      && sm.log == old(sm.log) + [DescribeEndpoint(props["EndpointName"])]
    ensures "EndpointName" in props && InService(props["EndpointName"], endpoint) && current.Raised? ==>
      && r == Err(RemoteError(current.error))
      && sm.log == old(sm.log) + [DescribeEndpoint(props["EndpointName"]),
                                  DescribeEndpointConfig(endpoint.value.endpointConfigName)]
    ensures "EndpointName" in props && InService(props["EndpointName"], endpoint) && current.Returned? &&
            EndpointConfigRequestFor(props, current.value).Err? ==>
      && r == Err(EndpointConfigRequestFor(props, current.value).failure)
      && sm.log == old(sm.log) + [DescribeEndpoint(props["EndpointName"]),
                                  DescribeEndpointConfig(endpoint.value.endpointConfigName)]
    ensures "EndpointName" in props && InService(props["EndpointName"], endpoint) && current.Returned? &&
            EndpointConfigRequestFor(props, current.value).Ok? ==>
      sm.log == old(sm.log) + [DescribeEndpoint(props["EndpointName"]),
                               DescribeEndpointConfig(endpoint.value.endpointConfigName),
                               CreateEndpointConfig(EndpointConfigRequestFor(props, current.value).value)] +
                (if created.Returned?
                 then [SageMakerCall.UpdateEndpoint(props["EndpointName"], props["EndpointConfigName"])]
                 else [])
    ensures r.Ok? <==>
      && "EndpointName" in props && InService(props["EndpointName"], endpoint) && current.Returned?
      && EndpointConfigRequestFor(props, current.value).Ok? && created.Returned? && updated.Returned?
    ensures "EndpointName" in props && InService(props["EndpointName"], endpoint) && current.Returned? &&
            EndpointConfigRequestFor(props, current.value).Ok? ==>
      && (created.Raised? ==> r == Err(RemoteError(created.error)))
      && (created.Returned? && updated.Raised? ==> r == Err(RemoteError(updated.error)))
    ensures r.Ok? ==> r.value == props["EndpointConfigName"]
  {
    var endpointName :- EndpointName(props);
    var described := sm.Send(DescribeEndpoint(endpointName), endpoint);
    if described.Raised? {
      return Err(RemoteError(described.error));
    }
    var status := described.value.status;
    if status != "InService" {
      return Err(UnexpectedStatus(UnexpectedStatusMessage("Endpoint", endpointName, status)));
    }
    var config := sm.Send(DescribeEndpointConfig(described.value.endpointConfigName), current);
    if config.Raised? {
      return Err(RemoteError(config.error));
    }
    var capture :- DataCaptureConfigFor(props);
    var newConfigName :- Require(props, "EndpointConfigName");
    var request := EndpointConfigRequest(newConfigName, config.value.productionVariants, capture, [], None);
    if config.value.kmsKeyId.Some? {
      request := request.(kmsKeyId := config.value.kmsKeyId);
    }
    var response := sm.Send(CreateEndpointConfig(request), created);
    if response.Raised? {
      return Err(RemoteError(response.error));
    }
    response := sm.Send(SageMakerCall.UpdateEndpoint(endpointName, newConfigName), updated);
    if response.Raised? {
      return Err(RemoteError(response.error));
    }
    r := Ok(newConfigName);
  }

  /** `is_endpoint_ready`: one describe call, then the three-way decision on its status. */
  method IsEndpointReady(sm: Client<SageMakerCall>, name: string, described: Reply<EndpointDescription>)
    returns (ready: Result<bool>)
    modifies sm
    ensures sm.log == old(sm.log) + [DescribeEndpoint(name)]
    ensures described.Raised? ==> ready == Err(RemoteError(described.error))
    ensures described.Returned? ==> ready == EndpointReadiness(name, described.value.status)
  {
    var response := sm.Send(DescribeEndpoint(name), described);
    match response {
      case Raised(e) => ready := Err(RemoteError(e));
      case Returned(endpoint) => ready := EndpointReadiness(name, endpoint.status);
    }
  }

  /** `poll_create`: polls the endpoint named by the properties. */
  method PollCreate(sm: Client<SageMakerCall>, props: Props, described: Reply<EndpointDescription>)
    returns (ready: Result<bool>)
    modifies sm
    ensures "EndpointName" !in props ==> ready == Err(KeyError("EndpointName")) && sm.log == old(sm.log)
    ensures "EndpointName" in props ==>
      && sm.log == old(sm.log) + [DescribeEndpoint(props["EndpointName"])]
      && (described.Raised? ==> ready == Err(RemoteError(described.error)))
      && (described.Returned? ==> ready == EndpointReadiness(props["EndpointName"], described.value.status))
  {
    var name :- EndpointName(props);
    ready := IsEndpointReady(sm, name, described);
  }

  /**
   * `delete_endpoint_config`: deletes exactly the configuration named by
   * `EndpointConfigName`; a `ResourceNotFound` error means already deleted.
   */
  method DeleteEndpointConfig(sm: Client<SageMakerCall>, props: Props, deleted: Reply<()>)
    returns (r: Result<()>)
    modifies sm
    ensures "EndpointConfigName" !in props ==>
      r == Err(KeyError("EndpointConfigName")) && sm.log == old(sm.log)
    ensures "EndpointConfigName" in props ==>
      && sm.log == old(sm.log) + [SageMakerCall.DeleteEndpointConfig(props["EndpointConfigName"])]
      && r == SwallowNotFound(deleted)
  {
    var name :- Require(props, "EndpointConfigName");
    var response := sm.Send(SageMakerCall.DeleteEndpointConfig(name), deleted);
    r := SwallowNotFound(response);
  }

  /**
   * The update handler `noop` takes no parameters, so the helper's call with the event and
   * the context raises TypeError: update is not supported.
   */
  function UpdateHandler(event: Props, context: string): (r: Result<()>)
    ensures r.Err? && r.failure.TypeError?
  {
    Err(TypeError("noop() takes 0 positional arguments but 2 were given"))
  }
}
