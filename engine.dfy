/**
 * The boundary between the AR module and the native module `ExponentAR`:
 * the values that cross it, the entry points the module calls and the event
 * names it subscribes to. What the engine computes is not modelled; its
 * results are opaque values.
 */
module Engine {

  /**
   * A JavaScript value as the module passes it along. The module never looks
   * inside arguments or results, so everything but `undefined`, booleans and
   * strings is an opaque value told apart by an identity.
   */
  datatype Value = Undefined | Bool(b: bool) | Str(s: string) | Opaque(id: nat)

  /** The methods of `ExponentAR` the module calls; each is named after the method. */
  datatype Entry =
    | PerformHitTest | SetDetectionImagesAsync | GetCurrentFrame | GetARMatrices
    | StopAsync | StartAsync | Reset | Resume | Pause | SetConfigurationAsync
    | GetProvidesAudioData | SetProvidesAudioData | SetPlaneDetection | GetCameraTexture
    | GetPlaneDetection | SetWorldOriginAsync | SetLightEstimationEnabled
    | GetLightEstimationEnabled | SetAutoFocusEnabled | GetAutoFocusEnabled
    | SetWorldAlignment | GetWorldAlignment

  /** One call into the engine: the entry point and the arguments, in order. */
  datatype EngineCall = EngineCall(entry: Entry, args: seq<Value>)

  /**
   * The engine as far as the module can observe it: the result of a call,
   * given every call made before it.
   */
  type Behaviour = (seq<EngineCall>, EngineCall) -> Value

  /** The six events the module offers `on...` subscriptions for. */
  datatype EventKind =
    | FrameDidUpdate | DidFailWithError | AnchorsDidUpdate
    | CameraDidChangeTrackingState | SessionWasInterrupted | SessionInterruptionEnded

  /**
   * The property of `ExponentAR` that holds the event's name: `EventTypes`
   * reads the names from the native module rather than fixing them.
   */
  function EventKey(k: EventKind): string {
    match k
    case FrameDidUpdate => "frameDidUpdate"
    case DidFailWithError => "didFailWithError"
    case AnchorsDidUpdate => "anchorsDidUpdate"
    case CameraDidChangeTrackingState => "cameraDidChangeTrackingState"
    case SessionWasInterrupted => "sessionWasInterrupted"
    case SessionInterruptionEnded => "sessionInterruptionEnded"
  }
}
