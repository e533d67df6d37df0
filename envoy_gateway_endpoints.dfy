/**
 * The envoy gateway's endpoint store (`EndpointServiceImpl` under `envoy/gateway`): the
 * endpoint definitions pulled from the manager, merged in on every refresh, and the
 * envelope built for a call to an endpoint. The clock, the request-id generator and JSON
 * writing are inputs; the manager's answer is the refresh's argument.
 */
module EnvoyGatewayEndpoints {
  import opened Common
  import opened Json
  import opened Proto
  import opened Definitions
  import ServingService

  /** Jackson's `writeValueAsBytes`: the bytes of a JSON value, or the exception it throws. */
  type JsonWriter = Json -> Result<seq<Byte>>

  /** The action every generated stage asks for. */
  const StageAction: string := "action"

  /** The stages of a chain: one per entry, in order, each served at the entry itself. */
  function StagesOf(chain: seq<string>): (r: seq<Stage>)
  {
    seq(|chain|, k requires 0 <= k < |chain| => Stage(chain[k], StageAction, Serve))
  }

  /**
   * The envelope `getPipeline` builds for a call: a new request id and start time, the
   * configured service id as gateway, the chain's stages and the written body; the stage
   * stage index and the error are left unset.
   */
  function Envelope(definition: EndpointDefinition, data: seq<Byte>, requestId: string, startTime: int, serviceId: string): (e: ServingPipeline)
  {
    ServingPipeline(requestId, startTime, StagesOf(definition.chain), 0, serviceId, data, None)
  }

  /**
   * A new envelope names one stage per chain entry, in order, all with the action
   * "action" and the SERVE type; it starts at the first stage and carries no error, and its
   * stage index is valid exactly when the chain has an entry.
   */
  lemma EnvelopeShape(definition: EndpointDefinition, data: seq<Byte>, requestId: string, startTime: int, serviceId: string)
    ensures var e := Envelope(definition, data, requestId, startTime, serviceId);
      |e.stages| == |definition.chain| &&
      (forall k :: 0 <= k < |e.stages| ==>
        e.stages[k].destination == definition.chain[k] && e.stages[k].action == "action" && e.stages[k].stageType == Serve) &&
      e.stageSequence == 0 && e.error.None? && e.gatewayDestination == serviceId && e.data == data &&
      (ServingService.ValidSequence(e) <==> definition.chain != [])
  {
  }

  /**
   * When every stage produces output and every forward succeeds, a new envelope is relayed
   * through all of its stages and comes back to this gateway under its own request id.
   */
  lemma EnvelopeComesBack(definition: EndpointDefinition, data: seq<Byte>, requestId: string, startTime: int, serviceId: string, run: ServingService.StageRun)
    requires forall p: ServingPipeline :: p.stages == StagesOf(definition.chain) && ServingService.ValidSequence(p) ==>
      run(p.stages[p.stageSequence].action, p.data).Produced?
    ensures var back := ServingService.Relay(Envelope(definition, data, requestId, startTime, serviceId), run);
      back.stageSequence == |definition.chain| && back.requestId == requestId && back.gatewayDestination == serviceId
  {
    ServingService.RelayReachesGateway(Envelope(definition, data, requestId, startTime, serviceId), run);
  }

  class EndpointServiceImpl {
    /** The endpoint definitions by name. */
    var definitions: map<string, EndpointDefinition>
    /** The sidecar's configured service id: the gateway destination of every envelope. */
    const serviceId: string
    const write: JsonWriter

    constructor (serviceId: string, write: JsonWriter)
      ensures definitions == map[] && this.serviceId == serviceId && this.write == write
    {
      definitions := map[];
      this.serviceId := serviceId;
      this.write := write;
    }

    /** `endpointDefinition(endpoint)`: the stored definition, or null. */
    function EndpointDefinitionOf(endpoint: string): (r: Option<EndpointDefinition>)
      reads this
      ensures r.None? <==> endpoint !in definitions
      ensures r.Some? ==> r.value == definitions[endpoint]
    {
      if endpoint in definitions then Some(definitions[endpoint]) else None
    }

    /** The loop that builds the stage list, one stage per chain entry. */
    method BuildStages(chain: seq<string>) returns (stages: seq<Stage>)
      ensures |stages| == |chain|
      ensures forall k :: 0 <= k < |chain| ==> stages[k] == Stage(chain[k], StageAction, Serve)
    {
      stages := [];
      var i := 0;
      while i < |chain|
        invariant 0 <= i <= |chain|
        invariant |stages| == i
        invariant forall k :: 0 <= k < i ==> stages[k] == Stage(chain[k], StageAction, Serve)
      {
        stages := stages + [Stage(chain[i], StageAction, Serve)];
        i := i + 1;
      }
    }

    /**
     * `getPipeline(endpoint, jsonNode)` with the request id and start time it draws: null
     * for an unknown endpoint, the failure when the body cannot be written, and otherwise
     * the new envelope.
     */
    method GetPipeline(endpoint: string, jsonNode: Json, requestId: string, startTime: int) returns (r: Result<Option<ServingPipeline>>)
      ensures endpoint !in definitions ==> r == Ok(None)
      ensures endpoint in definitions && write(jsonNode).Err? ==> r == Err("RuntimeException")
      ensures endpoint in definitions && write(jsonNode).Ok? ==>
        r == Ok(Some(Envelope(definitions[endpoint], write(jsonNode).value, requestId, startTime, serviceId)))
    {
      if endpoint !in definitions {
        return Ok(None);
      }
      var definition := definitions[endpoint];
      var stages := BuildStages(definition.chain);
      assert stages == StagesOf(definition.chain);
      var data := write(jsonNode);
      if data.Err? {
        return Err("RuntimeException");
      }
      r := Ok(Some(ServingPipeline(requestId, startTime, stages, 0, serviceId, data.value, None)));
    }

    /**
     * `syncEndpoint()` with the manager's answer: every fetched definition is put under its
     * name, later ones winning, and definitions the answer lacks stay; a failed fetch
     * changes nothing.
     */
    method SyncEndpoint(response: Result<seq<EndpointDefinition>>)
      modifies this
      ensures response.Err? ==> definitions == old(definitions)
      ensures response.Ok? ==> definitions == old(definitions) + IndexBy(response.value, DefinitionName)
    {
      if response.Ok? {
        definitions := PutAll(definitions, response.value, DefinitionName);
      }
    }
  }
}
