/**
 * The plain-HTTP gateway's REST entry point (`ServingController` under `gateway`): look the
 * pipeline up, collect the tracing headers, and run the pipeline's chain over HTTP.
 */
module GatewayController {
  import opened Common
  import opened Json
  import opened Deferred
  import opened TraceHeaders
  import opened GatewayPipelines
  import opened HttpGateway

  class ServingController {
    const endpointService: GatewayPipelineServiceImpl
    const httpGatewayService: HTTPGatewayService

    constructor (endpointService: GatewayPipelineServiceImpl, httpGatewayService: HTTPGatewayService)
      ensures this.endpointService == endpointService && this.httpGatewayService == httpGatewayService
    {
      this.endpointService := endpointService;
      this.httpGatewayService := httpGatewayService;
    }

    /**
     * `execute(jsonNode, endpoint, request)`, with the request's header lookup and the HTTP
     * client of the chain: an unknown pipeline fails with `WrongEndpointNameException`;
     * otherwise the pipeline's chain runs on the original body with the seven tracing
     * headers. The source hands the `Pipeline` itself to `execute`, whose parameter is an
     * `EndpointDefinition`, which does not compile as written; the model runs the pipeline's
     * `invocationChain` as the chain.
     */
    method Execute(jsonNode: Json, endpoint: string, getHeader: HeaderLookup, exchange: Exchange)
      returns (r: Result<DeferredResult>)
      ensures endpoint !in endpointService.pipelines ==> r == Err("WrongEndpointNameException")
      ensures endpoint in endpointService.pipelines ==>
        r.Ok? && fresh(r.value) &&
        r.value.state == ChainResolution(SendAll(endpointService.pipelines[endpoint].invocationChain, jsonNode,
          httpGatewayService.sideCarHost, httpGatewayService.sideCarPort, Forwarded(getHeader), exchange))
    {
      var pipeline := endpointService.PipelineOf(endpoint);
      if pipeline.None? {
        return Err("WrongEndpointNameException");
      }
      var headers := CollectHeaders(getHeader);
      var answer := httpGatewayService.Execute(pipeline.value.invocationChain, jsonNode, headers, exchange);
      r := Ok(answer);
    }
  }
}
