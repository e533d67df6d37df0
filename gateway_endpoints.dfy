/**
 * The plain-HTTP gateway's endpoint store (`EndpointServiceImpl` under `gateway`): the
 * endpoint definitions pulled from the manager, merged in on every refresh.
 */
module GatewayEndpoints {
  import opened Common
  import opened Definitions

  class EndpointServiceImpl {
    /** The endpoint definitions by name. */
    var definitions: map<string, EndpointDefinition>

    constructor ()
      ensures definitions == map[]
    {
      definitions := map[];
    }

    /** `endpointDefinition(endpoint)`: the stored definition, or null. */
    function EndpointDefinitionOf(endpoint: string): (r: Option<EndpointDefinition>)
      reads this
      ensures r.None? <==> endpoint !in definitions
      ensures r.Some? ==> r.value == definitions[endpoint]
    {
      if endpoint in definitions then Some(definitions[endpoint]) else None
    }

    /**
     * `syncEndpoint()` with the manager's answer: every fetched definition is put under its
     * name in place, later ones winning, and definitions the answer lacks stay; a failed
     * fetch changes nothing.
     */
    method SyncEndpoint(response: Result<seq<EndpointDefinition>>)
      modifies this
      ensures response.Err? ==> definitions == old(definitions)
      ensures response.Ok? ==> definitions == old(definitions) + IndexBy(response.value, DefinitionName)
    {
      if response.Ok? {
        definitions := PutAll(definitions, response.value, DefinitionName);
      }
    }
  }
}
