/**
 * The pipeline envelope of the serving mesh (`ServingPipeline` and its parts) and the
 * sends a service performs. Protocol-buffer message fields that may be unset are
 * `Option`s; scalar fields unset by a builder hold their defaults (0, empty).
 */
module Proto {
  import opened Common

  datatype StageType = Serve | OtherStageType(number: int)

  /** One step of a pipeline: the mesh destination to call and the action it runs. */
  datatype Stage = Stage(destination: string, action: string, stageType: StageType)

  /** The error an envelope carries back to the gateway, with the service that raised it. */
  datatype ErrorInfo = ErrorInfo(errorMessage: string, source: string)

  datatype ServingPipeline = ServingPipeline(
    requestId: string,
    startTime: int,
    stages: seq<Stage>,
    stageSequence: int,
    gatewayDestination: string,
    data: seq<Byte>,
    error: Option<ErrorInfo>)

  /**
   * What a service does on the wire, in order: acknowledge the incoming call
   * (`onCompleted`), or send an envelope to a destination.
   */
  datatype Event = Completed | Send(destination: string, envelope: ServingPipeline)
}
