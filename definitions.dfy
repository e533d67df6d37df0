/**
 * The pipeline records the manager stores and the gateways fetch. Both the endpoint
 * definition and the pipeline name their chain entries `{runtimeName}/some/path`.
 */
module Definitions {
  import opened Common

  /**
   * An endpoint as the gateways fetch it from the manager: its name, its transport (`"http"`
   * or other, possibly null) and its chain of stage entries. The manager's store only holds
   * definitions with a name and a chain (`ManagerEndpoints.StoredUnderOwnName`), so every
   * fetched definition has both.
   */
  datatype EndpointDefinition = EndpointDefinition(name: string, transportType: Option<string>, chain: seq<string>)

  /** A pipeline as the plain-HTTP gateway and the manager's pipeline store know it. */
  datatype Pipeline = Pipeline(name: string, invocationChain: seq<string>)

  function DefinitionName(d: EndpointDefinition): string { d.name }
  function PipelineName(p: Pipeline): string { p.name }
}
