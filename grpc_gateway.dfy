/**
 * The gateway end of the mesh (`GRPCGatewayServiceImpl`): a correlation table from request
 * id to the pending answer of the HTTP call that sent the envelope. An envelope is entered
 * before it is sent to the first stage; the envelope coming back from the mesh resolves and
 * removes its entry, and so does a timeout. JSON parsing of the returned data is a
 * collaborator.
 */
module GrpcGateway {
  import opened Common
  import opened Json
  import opened Proto
  import opened Deferred

  /** Jackson's `readTree` on the returned data: `None` when it throws. */
  type JsonReader = seq<Byte> -> Option<Json>

  /** How a returned envelope resolves its pending answer: its error message, its parsed data, or the parse failure. */
  function Settlement(delivery: ServingPipeline, read: JsonReader): (r: Resolution)
  {
    if delivery.error.Some? then Failed(delivery.error.value.errorMessage)
    else if read(delivery.data).Some? then Resolved(read(delivery.data).value)
    else FailedWith("IOException")
  }

  /**
   * A returned envelope always settles its answer: with exactly the carried error message
   * when there is one, whatever service raised it, and otherwise with the parsed data or
   * the parse failure.
   */
  lemma SettlementIsFinal(delivery: ServingPipeline, read: JsonReader, raisedAt: string)
    ensures Settlement(delivery, read) != Pending
    ensures delivery.error.Some? ==>
      Settlement(delivery, read) == Failed(delivery.error.value.errorMessage) &&
      Settlement(delivery.(error := Some(delivery.error.value.(source := raisedAt))), read) == Settlement(delivery, read)
    ensures delivery.error.None? ==>
      (Settlement(delivery, read).Resolved? <==> read(delivery.data).Some?) &&
      (Settlement(delivery, read).Resolved? ==> Settlement(delivery, read).value == read(delivery.data).value)
  {
  }

  class GRPCGatewayService {
    /** The correlation table: request id to pending answer. */
    var deferredResults: map<string, DeferredResult>
    /** Everything this service acknowledged and sent into the mesh, in order. */
    var events: seq<Event>
    const read: JsonReader

    constructor (read: JsonReader)
      ensures deferredResults == map[] && events == [] && this.read == read
    {
      deferredResults := map[];
      events := [];
      this.read := read;
    }

    /**
     * `sendToMesh(pipeline, headers)`: enter a new pending answer under the request id
     * (replacing an earlier one with the same id), then send the envelope to the first
     * stage. The headers are not used. An envelope without stages throws after the entry
     * is made, so the entry stays.
     */
    method SendToMesh(pipeline: ServingPipeline, headers: map<string, Option<string>>) returns (result: Result<DeferredResult>)
      modifies this
      ensures result.Ok? <==> |pipeline.stages| > 0
      ensures pipeline.requestId in deferredResults && fresh(deferredResults[pipeline.requestId])
      ensures deferredResults[pipeline.requestId].state == Pending
      ensures deferredResults - {pipeline.requestId} == old(deferredResults) - {pipeline.requestId}
      ensures result.Ok? ==>
        result.value == deferredResults[pipeline.requestId] &&
        events == old(events) + [Send(pipeline.stages[0].destination, pipeline)]
      ensures result.Err? ==> events == old(events)
    {
      var r := new DeferredResult();
      deferredResults := deferredResults[pipeline.requestId := r];
      // the timeout callback registered here is the `Timeout` method below
      if |pipeline.stages| == 0 {
        return Err("IndexOutOfBoundsException");
      }
      events := events + [Send(pipeline.stages[0].destination, pipeline)];
      result := Ok(r);
    }

    /** The pending answer of `requestId` timed out: its entry is dropped. */
    method Timeout(requestId: string)
      modifies this
      ensures deferredResults == old(deferredResults) - {requestId}
      ensures events == old(events)
    {
      deferredResults := deferredResults - {requestId};
    }

    /**
     * `serve(request)`: acknowledge the envelope coming back from the mesh; when its id is
     * pending, settle that answer and drop the entry, otherwise change nothing.
     */
    method Serve(request: ServingPipeline)
      modifies this, if request.requestId in deferredResults then {deferredResults[request.requestId]} else {}
      ensures events == old(events) + [Completed]
      ensures request.requestId !in old(deferredResults) ==> deferredResults == old(deferredResults)
      ensures request.requestId in old(deferredResults) ==>
        deferredResults == old(deferredResults) - {request.requestId} &&
        old(deferredResults[request.requestId]).state ==
          (if old(deferredResults[request.requestId].state) == Pending then Settlement(request, read)
           else old(deferredResults[request.requestId].state))
    {
      events := events + [Completed];
      if request.requestId in deferredResults {
        var result := deferredResults[request.requestId];
        var accepted;
        if request.error.Some? {
          accepted := result.Resolve(Failed(request.error.value.errorMessage));
        } else {
          var node := read(request.data);
          if node.Some? {
            accepted := result.Resolve(Resolved(node.value));
          } else {
            accepted := result.Resolve(FailedWith("IOException"));
          }
        }
        deferredResults := deferredResults - {request.requestId};
      }
    }
  }
}
