/**
 * The reads of `ExponentAR` properties the AR module does without calling the
 * engine: the supported video formats of a tracking configuration, whether
 * the front and rear cameras can be used, and whether a configuration is
 * available. Only the last one is behind the capability gate.
 */
module NativeQueries {
  import opened Options
  import opened Engine
  import opened Catalogs
  import opened Capability

  /** The properties of the native module `ExponentAR`, by name. */
  type Properties = map<string, Value>

  /** `ExponentAR[key]`: a property the native module does not define reads as `undefined`. */
  function Property(native: Properties, key: string): Value {
    if key in native then native[key] else Undefined
  }

  /** The table `getSupportedVideoFormats` builds, keyed by the configuration strings. */
  const VideoFormats: map<string, string> := map[
    TrackingConfigurationValue(TrackingConfiguration.World) := "WorldTrackingVideoFormats",
    TrackingConfigurationValue(TrackingConfiguration.Orientation) := "OrientationTrackingVideoFormats",
    TrackingConfigurationValue(TrackingConfiguration.Face) := "FaceTrackingVideoFormats"]

  /** The property holding a configuration's video formats, one arm per configuration. */
  function VideoFormatsKey(c: TrackingConfiguration): string {
    match c
    case World => "WorldTrackingVideoFormats"
    case Orientation => "OrientationTrackingVideoFormats"
    case Face => "FaceTrackingVideoFormats"
  }

  /**
   * `getSupportedVideoFormats(configuration)`, which does not consult the
   * gate. The table lookup agrees with the exhaustive match: a configuration
   * string reads its own formats property, and any other string gives
   * `undefined`.
   */
  function GetSupportedVideoFormats(native: Properties, configuration: string): (r: Value)
    ensures ParseTrackingConfiguration(configuration).None? ==> r == Undefined
    ensures ParseTrackingConfiguration(configuration).Some? ==>
              r == Property(native, VideoFormatsKey(ParseTrackingConfiguration(configuration).value))
  {
    ParseTrackingConfigurationSound(configuration);
    if configuration in VideoFormats then Property(native, VideoFormats[configuration]) else Undefined
  }

  /** The three configurations read three different properties. */
  lemma VideoFormatsKeyInjective(a: TrackingConfiguration, b: TrackingConfiguration)
    ensures VideoFormatsKey(a) == VideoFormatsKey(b) ==> a == b
  {
  }

  /**
   * `isFrontCameraAvailable()`: the face-tracking flag, read without the
   * gate. Whenever the gate is open it is what `isConfigurationAvailable`
   * answers for the face-tracking configuration.
   */
  function IsFrontCameraAvailable(native: Properties): (flag: Value)
    ensures forall p :: IsAvailable(p) ==>
              flag == IsConfigurationAvailable(p, native, TrackingConfigurationValue(TrackingConfiguration.Face))
  {
    Property(native, TrackingConfigurationValue(TrackingConfiguration.Face))
  }

  /**
   * `isRearCameraAvailable()`: the world-tracking flag, read without the
   * gate. Whenever the gate is open it is what `isConfigurationAvailable`
   * answers for the world-tracking configuration.
   */
  function IsRearCameraAvailable(native: Properties): (flag: Value)
    ensures forall p :: IsAvailable(p) ==>
              flag == IsConfigurationAvailable(p, native, TrackingConfigurationValue(TrackingConfiguration.World))
  {
    Property(native, TrackingConfigurationValue(TrackingConfiguration.World))
  }

  /**
   * `isConfigurationAvailable(configuration)`: the configuration's flag, or
   * `undefined` when the gate is closed. A defined answer means the gate is
   * open and the native module has the property.
   */
  function IsConfigurationAvailable(p: Profile, native: Properties, configuration: string): (flag: Value)
    ensures flag != Undefined ==> IsAvailable(p) && configuration in native && flag == native[configuration]
    ensures IsAvailable(p) ==> flag == Property(native, configuration)
  {
    if !IsAvailable(p) then Undefined else Property(native, configuration)
  }

  /**
   * The camera flags are the flags of the face and world configurations:
   * with the gate open they agree with `isConfigurationAvailable`, and with
   * it closed they still read the engine while `isConfigurationAvailable`
   * gives `undefined`.
   */
  lemma CameraFlagsAreConfigurationFlags(p: Profile, native: Properties)
    ensures IsAvailable(p) ==>
              IsFrontCameraAvailable(native) == IsConfigurationAvailable(p, native, "ARFaceTrackingConfiguration")
              && IsRearCameraAvailable(native) == IsConfigurationAvailable(p, native, "ARWorldTrackingConfiguration")
    ensures !IsAvailable(p) ==>
              IsConfigurationAvailable(p, native, "ARFaceTrackingConfiguration") == Undefined
              && IsConfigurationAvailable(p, native, "ARWorldTrackingConfiguration") == Undefined
              && IsFrontCameraAvailable(native) == Property(native, "ARFaceTrackingConfiguration")
              && IsRearCameraAvailable(native) == Property(native, "ARWorldTrackingConfiguration")
  {
  }

  /** With the gate closed, `isConfigurationAvailable` is `undefined` for every configuration, known or not. */
  lemma ClosedGateHidesEveryConfiguration(p: Profile, native: Properties, configuration: string)
    requires !IsAvailable(p)
    ensures IsConfigurationAvailable(p, native, configuration) == Undefined
  {
  }

  /** With the gate open, `isConfigurationAvailable` reads the same flag whatever else the profile says. */
  lemma ConfigurationFlagIgnoresProfileWhenOpen(p: Profile, q: Profile, native: Properties, configuration: string)
    requires IsAvailable(p) && IsAvailable(q)
    ensures IsConfigurationAvailable(p, native, configuration) == IsConfigurationAvailable(q, native, configuration)
            == Property(native, configuration)
  {
  }

  /** `getSupportedVideoFormats` of a configuration string, for each configuration. */
  lemma SupportedVideoFormatsOf(native: Properties, c: TrackingConfiguration)
    ensures GetSupportedVideoFormats(native, TrackingConfigurationValue(c)) == Property(native, VideoFormatsKey(c))
  {
    TrackingConfigurationRoundTrip(c);
  }
}
