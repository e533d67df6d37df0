/**
 * The plain-HTTP gateway's pipeline store (`GatewayPipelineServiceImpl`): the pipelines
 * pulled from the manager, replaced wholesale on every refresh.
 */
module GatewayPipelines {
  import opened Common
  import opened Definitions

  /**
   * A refresh keeps exactly the pipelines of the answer: a name the answer lacks is gone,
   * and a name it carries is bound to the last pipeline carrying it.
   */
  lemma {:induction false} SyncReplaces(response: seq<Pipeline>, name: string)
    ensures name in IndexBy(response, PipelineName) <==> exists i :: 0 <= i < |response| && response[i].name == name
    ensures forall i :: 0 <= i < |response| && response[i].name == name && (forall j :: i < j < |response| ==> response[j].name != name) ==>
      name in IndexBy(response, PipelineName) && IndexBy(response, PipelineName)[name] == response[i]
  {
    IndexByKeys(response, PipelineName, name);
    forall i | 0 <= i < |response| && response[i].name == name && (forall j :: i < j < |response| ==> response[j].name != name)
      ensures name in IndexBy(response, PipelineName) && IndexBy(response, PipelineName)[name] == response[i]
    {
      IndexByLast(response, PipelineName, i);
    }
  }

  class GatewayPipelineServiceImpl {
    /** The pipelines of the last successful refresh, by name. */
    var pipelines: map<string, Pipeline>

    constructor ()
      ensures pipelines == map[]
    {
      pipelines := map[];
    }

    /**
     * `syncEndpoint()` with the manager's answer: a new map is filled from the answer and
     * replaces the old one; a failed fetch changes nothing.
     */
    method SyncEndpoint(response: Result<seq<Pipeline>>)
      modifies this
      ensures response.Err? ==> pipelines == old(pipelines)
      ensures response.Ok? ==> pipelines == IndexBy(response.value, PipelineName)
    {
      if response.Ok? {
        var fetched := PutAll(map[], response.value, PipelineName);
        pipelines := fetched;
      }
    }

    /** `pipeline(name)`: the stored pipeline, empty for a name not in the last refresh. */
    function PipelineOf(name: string): (r: Option<Pipeline>)
      reads this
      ensures r.None? <==> name !in pipelines
      ensures r.Some? ==> r.value == pipelines[name]
    {
      if name in pipelines then Some(pipelines[name]) else None
    }
  }
}
