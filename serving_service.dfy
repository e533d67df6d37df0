/**
 * One hop of the serving mesh (`ServingServiceImpl.serve`): acknowledge the call, check the
 * stage index, run the stage's action on the envelope's data, then forward the advanced
 * envelope to the next stage or back to the gateway. Failures go back to the gateway as
 * error envelopes. The executor, the JSON parsing and writing around it, and the outcome of
 * the forward send are inputs; the asynchronous completion runs in sequence.
 */
module ServingService {
  import opened Common
  import opened Proto

  /** What parsing the data, executing the action and writing its result give for one hop. */
  datatype StageOutcome =
    | Produced(data: seq<Byte>)
      /** the data did not parse or the executor threw; the message the completion sees */
    | ExecutionFailed(message: string)
      /** the executor's result could not be written as JSON */
    | SerializationFailed(message: string)

  /** The stage executor behind a service: the outcome of running an action on request data. */
  type StageRun = (string, seq<Byte>) -> StageOutcome

  const WrongStageSequence: string := "Wrong stage sequence"

  /** The stage index names one of the envelope's stages. */
  predicate ValidSequence(p: ServingPipeline)
  {
    0 <= p.stageSequence < |p.stages|
  }

  /** The envelope `sendErrorMessage` builds: the request with its error set, raised at `source`. */
  function WithError(request: ServingPipeline, message: string, source: string): (e: ServingPipeline)
  {
    request.(error := Some(ErrorInfo(message, source)))
  }

  /** `sendErrorMessage(request, message)`: the error envelope, sent to the request's gateway. */
  function ErrorSend(request: ServingPipeline, message: string, source: string): (e: Event)
  {
    Send(request.gatewayDestination, WithError(request, message, source))
  }

  /** The envelope forwarded after a successful stage: the result as data and the stage index moved on. */
  function Advanced(request: ServingPipeline, data: seq<Byte>): (next: ServingPipeline)
  {
    request.(data := data, stageSequence := request.stageSequence + 1)
  }

  /** Where the advanced envelope goes: the next stage's destination, or the gateway after the last stage. */
  function NextDestination(request: ServingPipeline): (d: string)
    requires ValidSequence(request)
  {
    var nextSeq := request.stageSequence + 1;
    if nextSeq >= |request.stages| then request.gatewayDestination
    else request.stages[nextSeq].destination
  }

  /**
   * The events of one `serve` call at the service `current`: the acknowledgement, then one
   * send, then a second error send when the forward fails with `forwardFailure`.
   */
  function HopEvents(request: ServingPipeline, current: string, run: StageRun, forwardFailure: Option<string>): seq<Event>
  {
    [Completed] +
    if !ValidSequence(request) then [ErrorSend(request, WrongStageSequence, current)]
    else
      match run(request.stages[request.stageSequence].action, request.data)
      case ExecutionFailed(m) => [ErrorSend(request, m, current)]
      case SerializationFailed(m) => [ErrorSend(request, m, current)]
      case Produced(d) =>
        var next := Advanced(request, d);
        [Send(NextDestination(request), next)] +
        (if forwardFailure.Some? then [ErrorSend(next, forwardFailure.value, current)] else [])
  }

  /** Every hop acknowledges the call before anything else, and sends one or two envelopes. */
  lemma HopAcknowledgesFirst(request: ServingPipeline, current: string, run: StageRun, forwardFailure: Option<string>)
    ensures var es := HopEvents(request, current, run, forwardFailure);
      2 <= |es| <= 3 && es[0] == Completed && forall k :: 1 <= k < |es| ==> es[k].Send?
  {
  }

  /**
   * A stage index outside the stages sends "Wrong stage sequence" to the gateway and never
   * consults the executor: the events are the same whatever the executor would do.
   */
  lemma HopWrongSequence(request: ServingPipeline, current: string, run: StageRun, other: StageRun, forwardFailure: Option<string>)
    requires request.stageSequence < 0 || request.stageSequence >= |request.stages|
    ensures HopEvents(request, current, run, forwardFailure) ==
      [Completed, Send(request.gatewayDestination, request.(error := Some(ErrorInfo("Wrong stage sequence", current))))]
    ensures HopEvents(request, current, run, forwardFailure) == HopEvents(request, current, other, forwardFailure)
  {
  }

  /** The executor is asked only about the action of the current stage and the envelope's data. */
  lemma HopRunsCurrentStage(request: ServingPipeline, current: string, run: StageRun, other: StageRun, forwardFailure: Option<string>)
    requires ValidSequence(request)
    requires run(request.stages[request.stageSequence].action, request.data) ==
             other(request.stages[request.stageSequence].action, request.data)
    ensures HopEvents(request, current, run, forwardFailure) == HopEvents(request, current, other, forwardFailure)
  {
  }

  /**
   * A stage that produces output forwards the request with only its data replaced and its
   * stage index advanced by one, to the next stage's destination or, after the last stage, to
   * the gateway.
   */
  lemma HopForwards(request: ServingPipeline, current: string, run: StageRun, forwardFailure: Option<string>)
    requires ValidSequence(request)
    requires run(request.stages[request.stageSequence].action, request.data).Produced?
    ensures var d := run(request.stages[request.stageSequence].action, request.data).data;
      var es := HopEvents(request, current, run, forwardFailure);
      es[1].Send? &&
      es[1].envelope.data == d &&
      es[1].envelope.stageSequence == request.stageSequence + 1 &&
      es[1].envelope.requestId == request.requestId &&
      es[1].envelope.stages == request.stages &&
      es[1].envelope.gatewayDestination == request.gatewayDestination &&
      es[1].envelope.startTime == request.startTime &&
      es[1].envelope.error == request.error &&
      (request.stageSequence + 1 < |request.stages| ==>
         es[1].destination == request.stages[request.stageSequence + 1].destination) &&
      (request.stageSequence + 1 == |request.stages| ==> es[1].destination == request.gatewayDestination) &&
      (|es| == 3 <==> forwardFailure.Some?)
  {
  }

  /**
   * Every envelope a hop sends is either the forward of a stage that produced output, which
   * keeps the request's error, or an error envelope to the request's gateway naming this
   * service as its source; the error envelope is built from the unadvanced request when the
   * stage failed and from the advanced envelope when the forward failed.
   */
  lemma HopErrorsGoToGateway(request: ServingPipeline, current: string, run: StageRun, forwardFailure: Option<string>)
    ensures var es := HopEvents(request, current, run, forwardFailure);
      forall k :: 1 <= k < |es| ==>
        || (k == 1 && ValidSequence(request) && run(request.stages[request.stageSequence].action, request.data).Produced? &&
            es[k].envelope.error == request.error)
        || (es[k].destination == request.gatewayDestination &&
            es[k].envelope.error.Some? && es[k].envelope.error.value.source == current)
    ensures var es := HopEvents(request, current, run, forwardFailure);
      |es| == 3 ==>
        es[2].destination == request.gatewayDestination &&
        es[2].envelope == es[1].envelope.(error := Some(ErrorInfo(forwardFailure.value, current)))
    ensures var es := HopEvents(request, current, run, forwardFailure);
      ValidSequence(request) && !run(request.stages[request.stageSequence].action, request.data).Produced? ==>
        |es| == 2 && es[1].destination == request.gatewayDestination &&
        es[1].envelope.(error := request.error) == request
  {
  }

  /**
   * The envelope that reaches the gateway when every stage from `request`'s stage index on
   * produces output and every forward succeeds: the hops are taken one stage at a time.
   */
  function Relay(request: ServingPipeline, run: StageRun): (r: ServingPipeline)
    requires 0 <= request.stageSequence <= |request.stages|
    decreases |request.stages| - request.stageSequence
  {
    if request.stageSequence == |request.stages| then request
    else
      match run(request.stages[request.stageSequence].action, request.data)
      case Produced(d) => Relay(Advanced(request, d), run)
      case ExecutionFailed(_) => request
      case SerializationFailed(_) => request
  }

  /**
   * Relaying through stages that all produce output ends with the stage index just past the
   * last stage, and keeps the request id, the stages and the gateway of the original request.
   */
  lemma {:induction false} RelayReachesGateway(request: ServingPipeline, run: StageRun)
    requires 0 <= request.stageSequence <= |request.stages|
    requires forall p: ServingPipeline :: p.stages == request.stages && ValidSequence(p) ==>
      run(p.stages[p.stageSequence].action, p.data).Produced?
    ensures Relay(request, run).stageSequence == |request.stages|
    ensures Relay(request, run).requestId == request.requestId
    ensures Relay(request, run).stages == request.stages
    ensures Relay(request, run).gatewayDestination == request.gatewayDestination
    decreases |request.stages| - request.stageSequence
  {
    if request.stageSequence < |request.stages| {
      var d := run(request.stages[request.stageSequence].action, request.data).data;
      RelayReachesGateway(Advanced(request, d), run);
    }
  }

  class ServingServiceImpl {
    /** This service's own mesh destination, the source of its error envelopes. */
    const currentDestination: string
    /** Everything this service acknowledged and sent, in order. */
    var events: seq<Event>

    constructor (currentDestination: string)
      ensures this.currentDestination == currentDestination && events == []
    {
      this.currentDestination := currentDestination;
      events := [];
    }

    /** `serve(request)`, with the executor `run` and the outcome of the forward send. */
    method Serve(request: ServingPipeline, run: StageRun, forwardFailure: Option<string>)
      modifies this
      ensures events == old(events) + HopEvents(request, currentDestination, run, forwardFailure)
    {
      events := events + [Completed];
      if request.stageSequence < 0 || request.stageSequence >= |request.stages| {
        SendErrorMessage(request, WrongStageSequence);
        return;
      }
      var stage := request.stages[request.stageSequence];
      var action := stage.action;
      var outcome := run(action, request.data);
      match outcome {
        case Produced(d) =>
          var nextSeq := request.stageSequence + 1;
          var next := request.(data := d, stageSequence := request.stageSequence + 1);
          var destination;
          if nextSeq >= |request.stages| {
            destination := request.gatewayDestination;
          } else {
            destination := request.stages[nextSeq].destination;
          }
          events := events + [Send(destination, next)];
          if forwardFailure.Some? {
            SendErrorMessage(next, forwardFailure.value);
          }
        case SerializationFailed(m) =>
          SendErrorMessage(request, m);
        case ExecutionFailed(m) =>
          SendErrorMessage(request, m);
      }
    }

    /** `sendErrorMessage(request, message)`. */
    method SendErrorMessage(request: ServingPipeline, message: string)
      modifies this
      ensures events == old(events) + [ErrorSend(request, message, currentDestination)]
    {
      var next := request.(error := Some(ErrorInfo(message, currentDestination)));
      events := events + [Send(request.gatewayDestination, next)];
    }
  }
}
