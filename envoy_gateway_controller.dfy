/**
 * The envoy gateway's REST entry point (`ServingController` under `envoy/gateway`): look the
 * endpoint up, collect the tracing headers, and run the call either as a synchronous HTTP
 * chain or as an envelope sent into the mesh, by the endpoint's transport type.
 */
module EnvoyGatewayController {
  import opened Common
  import opened Json
  import opened Proto
  import opened Deferred
  import opened Definitions
  import opened TraceHeaders
  import opened EnvoyGatewayEndpoints
  import opened GrpcGateway
  import opened HttpGateway

  /** An endpoint is served by the HTTP chain exactly when its transport is the text "http". */
  predicate UsesHttpChain(d: EndpointDefinition)
  {
    d.transportType == Some("http")
  }

  class ServingController {
    const endpointService: EndpointServiceImpl
    const grpcGatewayService: GRPCGatewayService
    const httpGatewayService: HTTPGatewayService

    constructor (endpointService: EndpointServiceImpl, grpcGatewayService: GRPCGatewayService, httpGatewayService: HTTPGatewayService)
      ensures this.endpointService == endpointService
      ensures this.grpcGatewayService == grpcGatewayService
      ensures this.httpGatewayService == httpGatewayService
    {
      this.endpointService := endpointService;
      this.grpcGatewayService := grpcGatewayService;
      this.httpGatewayService := httpGatewayService;
    }

    /**
     * `execute(jsonNode, endpoint, request)`, with the request's header lookup, the HTTP
     * client of the chain, and the request id and clock reading an envelope would take.
     * An unknown endpoint fails with `WrongEndpointNameException` (HTTP 404) and touches
     * nothing; transport "http" runs the chain on the body; any other transport, null
     * included, builds the endpoint's envelope from the same body and hands it to the mesh.
     */
    method Execute(jsonNode: Json, endpoint: string, getHeader: HeaderLookup, exchange: Exchange, requestId: string, startTime: int)
      returns (r: Result<DeferredResult>)
      modifies grpcGatewayService
      ensures endpoint !in endpointService.definitions ==>
        r == Err("WrongEndpointNameException") &&
        grpcGatewayService.deferredResults == old(grpcGatewayService.deferredResults) &&
        grpcGatewayService.events == old(grpcGatewayService.events)
      ensures endpoint in endpointService.definitions && UsesHttpChain(endpointService.definitions[endpoint]) ==>
        r.Ok? && fresh(r.value) &&
        r.value.state == ChainResolution(SendAll(endpointService.definitions[endpoint].chain, jsonNode,
          httpGatewayService.sideCarHost, httpGatewayService.sideCarPort, Forwarded(getHeader), exchange)) &&
        grpcGatewayService.deferredResults == old(grpcGatewayService.deferredResults) &&
        grpcGatewayService.events == old(grpcGatewayService.events)
      ensures (endpoint in endpointService.definitions && !UsesHttpChain(endpointService.definitions[endpoint]) &&
               endpointService.write(jsonNode).Err?) ==>
        r == Err("RuntimeException") &&
        grpcGatewayService.deferredResults == old(grpcGatewayService.deferredResults) &&
        grpcGatewayService.events == old(grpcGatewayService.events)
      ensures (endpoint in endpointService.definitions && !UsesHttpChain(endpointService.definitions[endpoint]) &&
               endpointService.write(jsonNode).Ok?) ==>
        var d := endpointService.definitions[endpoint];
        var e := Envelope(d, endpointService.write(jsonNode).value, requestId, startTime, endpointService.serviceId);
        (r.Ok? <==> d.chain != []) &&
        requestId in grpcGatewayService.deferredResults &&
        fresh(grpcGatewayService.deferredResults[requestId]) &&
        grpcGatewayService.deferredResults[requestId].state == Pending &&
        grpcGatewayService.deferredResults - {requestId} == old(grpcGatewayService.deferredResults) - {requestId} &&
        (r.Ok? ==>
          r.value == grpcGatewayService.deferredResults[requestId] &&
          grpcGatewayService.events == old(grpcGatewayService.events) + [Send(d.chain[0], e)])
    {
      var definition := endpointService.EndpointDefinitionOf(endpoint);
      if definition.None? {
        return Err("WrongEndpointNameException");
      }
      var headers := CollectHeaders(getHeader);
      if definition.value.transportType == Some("http") {
        var answer := httpGatewayService.Execute(definition.value.chain, jsonNode, headers, exchange);
        return Ok(answer);
      }
      var pipeline := endpointService.GetPipeline(endpoint, jsonNode, requestId, startTime);
      if pipeline.Err? {
        return Err(pipeline.error);
      }
      match pipeline.value {
        case None =>
          assert false;
        case Some(e) =>
          EnvelopeShape(definition.value, e.data, requestId, startTime, endpointService.serviceId);
          r := grpcGatewayService.SendToMesh(e, headers);
      }
    }
  }
}
