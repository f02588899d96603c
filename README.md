# ExponentAR facade

A model of `src/AR.js`, the JavaScript face of the native AR module
`ExponentAR`. The file does three things, each modelled here:

- **Constant catalogs.** It exports the string constants clients pass to the
  engine or receive from it: ARKit face blend shapes, plane detection, hit-test
  result types, world alignment, anchor types, anchor event types, frame
  attributes, tracking states, tracking state reasons and tracking
  configurations. Four of them also have a Flow `$Enum` type. Each catalog is
  a datatype with its string (`XValue`) and a parser (`ParseX`). Lemmas prove
  that the strings are pairwise distinct, that parsing inverts the strings,
  and that each `$Enum` holds exactly the catalog's strings (module
  `Catalogs`).
- **The capability gate.** `isAvailable` holds when five conditions hold:
  a physical device, iOS, a year class of 2015 or later, the engine reports
  support, and the engine has `startAsync`. `getUnavailabilityReason` names
  the first of the first three conditions that fails. The gate is described a
  second time as an ordered list of checks. Lemmas prove that both
  descriptions agree, and that each message can be parsed back into the
  failure it reports, year class included (modules `Capability`, `Numerals`).
- **Gated forwarding.** Every engine call, the listener functions and
  `isConfigurationAvailable` first test the gate. When it is closed they return
  `undefined` (or a stub subscription) and touch nothing. When it is open they
  forward the call unchanged. The engine is observed through the log of calls
  it receives. The event emitter is observed through its listeners, by event
  name. The pure functions `ForwardSpec`, `ReplySpec`, `AddListenerSpec`,
  `RemoveListenerSpec` and `RemoveAllListenersSpec` say what one call does.
  Lemmas cover one call and any sequence of calls. The class
  `Facade.ARModule` holds the log, the listeners and the next subscription
  identity, and each of its methods is proved to follow those functions
  (module `Facade`). `getSupportedVideoFormats`, `isFrontCameraAvailable` and
  `isRearCameraAvailable` read native properties without the gate (module
  `NativeQueries`).

The engine is a parameter of the model: a function from the calls made so far
and the new call to the value it returns (`Engine.Behaviour`). The device,
the OS and the native flags are the parameter `Capability.Profile`, and the
native module's properties are a map (`NativeQueries.Properties`).

The gate has the five conditions the code at `src/AR.js:260-272` tests.

## Model

| member | source | states |
|---|---|---|
| Catalogs.BlendShapeRoundTrip | src/AR.js:9-61 | parsing the string of any constant gives that constant back |
| Catalogs.ParseBlendShapeSound | src/AR.js:9-61 | a string that parses is exactly the string of the constant it parses to, so no other string is accepted |
| Catalogs.BlendShapeValueInjective | src/AR.js:9-61 | two different constants of the catalog never share a string |
| Catalogs.PlaneDetectionRoundTrip | src/AR.js:87-91 | parsing the string of any constant gives that constant back |
| Catalogs.ParsePlaneDetectionSound | src/AR.js:87-91 | a string that parses is exactly the string of the constant it parses to, so no other string is accepted |
| Catalogs.PlaneDetectionValueInjective | src/AR.js:87-91 | two different constants of the catalog never share a string |
| Catalogs.PlaneDetectionValuesAreEnum | src/AR.js:68-91 | a string belongs to the Flow `$Enum` type exactly when it is the string of one of the catalog's constants (both directions) |
| Catalogs.HitTestResultTypeRoundTrip | src/AR.js:129-136 | parsing the string of any constant gives that constant back |
| Catalogs.ParseHitTestResultTypeSound | src/AR.js:129-136 | a string that parses is exactly the string of the constant it parses to, so no other string is accepted |
| Catalogs.HitTestResultTypeValueInjective | src/AR.js:129-136 | two different constants of the catalog never share a string |
| Catalogs.HitTestResultTypeValuesAreEnum | src/AR.js:98-136 | a string belongs to the Flow `$Enum` type exactly when it is the string of one of the catalog's constants (both directions) |
| Catalogs.WorldAlignmentRoundTrip | src/AR.js:163-167 | parsing the string of any constant gives that constant back |
| Catalogs.ParseWorldAlignmentSound | src/AR.js:163-167 | a string that parses is exactly the string of the constant it parses to, so no other string is accepted |
| Catalogs.WorldAlignmentValueInjective | src/AR.js:163-167 | two different constants of the catalog never share a string |
| Catalogs.WorldAlignmentValuesAreEnum | src/AR.js:143-167 | a string belongs to the Flow `$Enum` type exactly when it is the string of one of the catalog's constants (both directions) |
| Catalogs.AnchorTypeRoundTrip | src/AR.js:178-183 | parsing the string of any constant gives that constant back |
| Catalogs.ParseAnchorTypeSound | src/AR.js:178-183 | a string that parses is exactly the string of the constant it parses to, so no other string is accepted |
| Catalogs.AnchorTypeValueInjective | src/AR.js:178-183 | two different constants of the catalog never share a string |
| Catalogs.AnchorEventTypeRoundTrip | src/AR.js:185-189 | parsing the string of any constant gives that constant back |
| Catalogs.ParseAnchorEventTypeSound | src/AR.js:185-189 | a string that parses is exactly the string of the constant it parses to, so no other string is accepted |
| Catalogs.AnchorEventTypeValueInjective | src/AR.js:185-189 | two different constants of the catalog never share a string |
| Catalogs.FrameAttributeRoundTrip | src/AR.js:191-196 | parsing the string of any constant gives that constant back |
| Catalogs.ParseFrameAttributeSound | src/AR.js:191-196 | a string that parses is exactly the string of the constant it parses to, so no other string is accepted |
| Catalogs.FrameAttributeValueInjective | src/AR.js:191-196 | two different constants of the catalog never share a string |
| Catalogs.TrackingStateRoundTrip | src/AR.js:198-205 | parsing the string of any constant gives that constant back |
| Catalogs.ParseTrackingStateSound | src/AR.js:198-205 | a string that parses is exactly the string of the constant it parses to, so no other string is accepted |
| Catalogs.TrackingStateValueInjective | src/AR.js:198-205 | two different constants of the catalog never share a string |
| Catalogs.TrackingStateReasonRoundTrip | src/AR.js:207-222 | parsing the string of any constant gives that constant back |
| Catalogs.ParseTrackingStateReasonSound | src/AR.js:207-222 | a string that parses is exactly the string of the constant it parses to, so no other string is accepted |
| Catalogs.TrackingStateReasonValueInjective | src/AR.js:207-222 | two different constants of the catalog never share a string |
| Catalogs.TrackingConfigurationRoundTrip | src/AR.js:244-248 | parsing the string of any constant gives that constant back |
| Catalogs.ParseTrackingConfigurationSound | src/AR.js:244-248 | a string that parses is exactly the string of the constant it parses to, so no other string is accepted |
| Catalogs.TrackingConfigurationValueInjective | src/AR.js:244-248 | two different constants of the catalog never share a string |
| Catalogs.TrackingConfigurationValuesAreEnum | src/AR.js:229-248 | a string belongs to the Flow `$Enum` type exactly when it is the string of one of the catalog's constants (both directions) |
| Numerals.NatStringValue | src/AR.js:280 | the decimal digits written for a natural number denote that number |
| Numerals.IntStringRoundTrip | src/AR.js:280 | parsing the rendering of an integer, sign included, gives the integer back |
| Numerals.IntStringInjective | src/AR.js:280 | different year classes are rendered as different strings |
| Capability.IsAvailable | src/AR.js:260-272 | `isAvailable` holds exactly when the search for a failing check, in the code's order, finds none |
| Capability.UnavailabilityReason | src/AR.js:274-283 | the reason is the message for the first failing check; a failing engine check, or none, gives `Unknown Reason` |
| Capability.FirstFailing | src/AR.js:260-272 | the position of the first failing check: every earlier check passes and the one found fails, or all pass |
| Capability.FirstFailingInGateOrder | src/AR.js:260-272 | the checks are tested in the code's order: device, OS, year class, engine support, start entry point |
| Capability.AvailableIffEveryCheckPasses | src/AR.js:260-272 | `isAvailable` holds exactly when no check fails, that is, exactly when all five conditions hold (both directions) |
| Capability.ParseMessage | src/AR.js:254-283 | each message, including the OS name or year class it embeds, parses back to the failure it reports |
| Capability.ReasonIdentifiesFailure | src/AR.js:274-283 | two profiles get the same reason exactly when their first failures, with the values reported, agree (both directions) |
| Capability.SimulatorReasonFirst | src/AR.js:275-276 | a simulator is unavailable and gets the simulator message, whatever else holds |
| Capability.NotIOSReason | src/AR.js:277-278 | a device with another OS is unavailable and gets the iOS-only message followed by the OS name and ` device` |
| Capability.ChipTooOldReason | src/AR.js:279-280 | an iOS device with a year class below 2015 is unavailable and gets the A9 message followed by the year class and ` device` |
| Capability.UnknownReasonAfterFirstThree | src/AR.js:260-283 | once device, OS and year class pass, the reason is `Unknown Reason` and the gate is open exactly when the engine reports support and has `startAsync` |
| Capability.AvailableMeansUnknownReason | src/AR.js:260-283 | when the gate is open the reason is `Unknown Reason` |
| NativeQueries.GetSupportedVideoFormats | src/AR.js:446-454 | not gated; a tracking configuration string reads that configuration's video formats property, and any other string gives `undefined` |
| NativeQueries.IsConfigurationAvailable | src/AR.js:441-444 | a defined answer means the gate is open and the native module has the property; with the gate open it is `ExponentAR[configuration]` |
| NativeQueries.IsFrontCameraAvailable | src/AR.js:456-458 | not gated; for every profile with the gate open it equals `isConfigurationAvailable` of the face-tracking configuration |
| NativeQueries.IsRearCameraAvailable | src/AR.js:460-462 | not gated; for every profile with the gate open it equals `isConfigurationAvailable` of the world-tracking configuration |
| NativeQueries.ClosedGateHidesEveryConfiguration | src/AR.js:441-444 | with the gate closed, `isConfigurationAvailable` is `undefined` for every configuration string |
| NativeQueries.VideoFormatsKeyInjective | src/AR.js:447-451 | the three configurations read three different properties |
| NativeQueries.SupportedVideoFormatsOf | src/AR.js:446-454 | for each configuration, its string reads its own formats property |
| NativeQueries.CameraFlagsAreConfigurationFlags | src/AR.js:441-462 | front and rear camera flags are the face and world configuration flags: equal to `isConfigurationAvailable` with the gate open; still read, while `isConfigurationAvailable` gives `undefined` for both, with it closed |
| NativeQueries.ConfigurationFlagIgnoresProfileWhenOpen | src/AR.js:441-444 | with the gate open, `isConfigurationAvailable` reads the configuration's flag whatever the rest of the profile |
| Facade.Without | src/AR.js:323 | removing a subscription keeps exactly the listeners with another identity |
| Facade.ClosedGateChangesNothing | src/AR.js:309-443 | with the gate closed, every engine call, `addListener`, `removeListener` and `removeAllListeners` leaves log and listeners as they were; calls return `undefined` and `addListener` the stub |
| Facade.OpenGateForwardsUnchanged | src/AR.js:331-439 | with the gate open, a call is appended once to the engine log with its entry and arguments unchanged, the listeners are untouched, and the engine's reply is returned |
| Facade.AddListenerRegisters | src/AR.js:309-319 | with the gate open, `addListener` appends a subscription with a fresh identity to its event name only and keeps every listener filed under its own event name |
| Facade.RemoveListenerDrops | src/AR.js:321-324 | with the gate open, `removeListener` drops from its event name the listeners with that subscription's identity and no others, leaves other event names and the log alone, and keeps the registry well formed |
| Facade.WithoutFreshLast | src/AR.js:315-323 | removing the newest subscription gives back the listeners from before it was added |
| Facade.AddThenRemoveRestoresListeners | src/AR.js:309-324 | adding a listener and then removing its subscription restores every event name's listeners |
| Facade.RemoveAllListenersOnlyClearsItsEvent | src/AR.js:326-329 | with the gate open, `removeAllListeners(t)` empties `t` and leaves every other event name and the log unchanged |
| Facade.ClosedGateRunIsNoOp | src/AR.js:309-443 | with the gate closed, no sequence of calls changes the log or the listeners |
| Facade.OpenGateRunLogsCalls | src/AR.js:331-439 | with the gate open, the engine receives exactly the engine calls of a sequence, in order and unchanged |
| Facade.StepKeepsWellFormed | src/AR.js:309-329 | one call keeps every listener under its own event name with an identity below the next one |
| Facade.RunKeepsWellFormed | src/AR.js:309-329 | any sequence of calls keeps the registry well formed |
| Facade.ARModule.constructor | src/AR.js:5-7 | the module starts with an empty engine log, no listeners and a well-formed state |
| Facade.ARModule.Forward | src/AR.js:331-439 | the shared gate test: the new state is `ForwardSpec` of the old and the result is `ReplySpec` |
| Facade.ARModule.AddListener | src/AR.js:309-319 | the new state and the handle are `AddListenerSpec` of the old state: the stub when closed, a fresh subscription when open |
| Facade.ARModule.OnEvent | src/AR.js:285-307 | each `on...` function is `addListener` on the event name the native module defines for it |
| Facade.ARModule.RemoveListener | src/AR.js:321-324 | the new state is `RemoveListenerSpec` of the old, and the registry stays well formed |
| Facade.ARModule.RemoveAllListeners | src/AR.js:326-329 | the new state is `RemoveAllListenersSpec` of the old, and the registry stays well formed |
| Facade.ARModule.PerformHitTest | src/AR.js:331-334 | closed gate: returns `undefined` and the engine log is unchanged; open gate: appends exactly this call (entry `performHitTest`, arguments in order) to the log and returns the engine's reply; listeners untouched |
| Facade.ARModule.SetDetectionImagesAsync | src/AR.js:336-339 | closed gate: returns `undefined` and the engine log is unchanged; open gate: appends exactly this call (entry `setDetectionImagesAsync`, arguments in order) to the log and returns the engine's reply; listeners untouched |
| Facade.ARModule.GetCurrentFrame | src/AR.js:341-344 | closed gate: returns `undefined` and the engine log is unchanged; open gate: appends exactly this call (entry `getCurrentFrame`, arguments in order) to the log and returns the engine's reply; listeners untouched |
| Facade.ARModule.GetARMatrices | src/AR.js:346-349 | closed gate: returns `undefined` and the engine log is unchanged; open gate: appends exactly this call (entry `getARMatrices`, arguments in order) to the log and returns the engine's reply; listeners untouched |
| Facade.ARModule.StopAsync | src/AR.js:351-354 | closed gate: returns `undefined` and the engine log is unchanged; open gate: appends exactly this call (entry `stopAsync`, arguments in order) to the log and returns the engine's reply; listeners untouched |
| Facade.ARModule.StartAsync | src/AR.js:356-359 | closed gate: returns `undefined` and the engine log is unchanged; open gate: appends exactly this call (entry `startAsync`, arguments in order) to the log and returns the engine's reply; listeners untouched |
| Facade.ARModule.Reset | src/AR.js:361-364 | closed gate: the engine log is unchanged; open gate: appends exactly this call (entry `reset`, arguments in order) to the log; returns nothing; listeners untouched |
| Facade.ARModule.Resume | src/AR.js:366-369 | closed gate: the engine log is unchanged; open gate: appends exactly this call (entry `resume`, arguments in order) to the log; returns nothing; listeners untouched |
| Facade.ARModule.Pause | src/AR.js:371-374 | closed gate: the engine log is unchanged; open gate: appends exactly this call (entry `pause`, arguments in order) to the log; returns nothing; listeners untouched |
| Facade.ARModule.SetConfigurationAsync | src/AR.js:376-379 | closed gate: returns `undefined` and the engine log is unchanged; open gate: appends exactly this call (entry `setConfigurationAsync`, arguments in order) to the log and returns the engine's reply; listeners untouched |
| Facade.ARModule.GetProvidesAudioData | src/AR.js:381-384 | closed gate: returns `undefined` and the engine log is unchanged; open gate: appends exactly this call (entry `getProvidesAudioData`, arguments in order) to the log and returns the engine's reply; listeners untouched |
| Facade.ARModule.SetProvidesAudioData | src/AR.js:386-389 | closed gate: the engine log is unchanged; open gate: appends exactly this call (entry `setProvidesAudioData`, arguments in order) to the log; returns nothing; listeners untouched |
| Facade.ARModule.SetPlaneDetection | src/AR.js:391-394 | closed gate: the engine log is unchanged; open gate: appends exactly this call (entry `setPlaneDetection`, arguments in order) to the log; returns nothing; listeners untouched |
| Facade.ARModule.GetCameraTexture | src/AR.js:396-399 | closed gate: returns `undefined` and the engine log is unchanged; open gate: appends exactly this call (entry `getCameraTexture`, arguments in order) to the log and returns the engine's reply; listeners untouched |
| Facade.ARModule.GetPlaneDetection | src/AR.js:401-404 | closed gate: returns `undefined` and the engine log is unchanged; open gate: appends exactly this call (entry `getPlaneDetection`, arguments in order) to the log and returns the engine's reply; listeners untouched |
| Facade.ARModule.SetWorldOriginAsync | src/AR.js:406-409 | closed gate: returns `undefined` and the engine log is unchanged; open gate: appends exactly this call (entry `setWorldOriginAsync`, arguments in order) to the log and returns the engine's reply; listeners untouched |
| Facade.ARModule.SetLightEstimationEnabled | src/AR.js:411-414 | closed gate: the engine log is unchanged; open gate: appends exactly this call (entry `setLightEstimationEnabled`, arguments in order) to the log; returns nothing; listeners untouched |
| Facade.ARModule.GetLightEstimationEnabled | src/AR.js:416-419 | closed gate: returns `undefined` and the engine log is unchanged; open gate: appends exactly this call (entry `getLightEstimationEnabled`, arguments in order) to the log and returns the engine's reply; listeners untouched |
| Facade.ARModule.SetAutoFocusEnabled | src/AR.js:421-424 | closed gate: the engine log is unchanged; open gate: appends exactly this call (entry `setAutoFocusEnabled`, arguments in order) to the log; returns nothing; listeners untouched |
| Facade.ARModule.GetAutoFocusEnabled | src/AR.js:426-429 | closed gate: returns `undefined` and the engine log is unchanged; open gate: appends exactly this call (entry `getAutoFocusEnabled`, arguments in order) to the log and returns the engine's reply; listeners untouched |
| Facade.ARModule.SetWorldAlignment | src/AR.js:431-434 | closed gate: the engine log is unchanged; open gate: appends exactly this call (entry `setWorldAlignment`, arguments in order) to the log; returns nothing; listeners untouched |
| Facade.ARModule.GetWorldAlignment | src/AR.js:436-439 | closed gate: returns `undefined` and the engine log is unchanged; open gate: appends exactly this call (entry `getWorldAlignment`, arguments in order) to the log and returns the engine's reply; listeners untouched |

## Left out

- What the engine computes: hit tests, frames, matrices, textures and the session itself are opaque values returned by the `Engine.Behaviour` parameter. No session state machine is modelled.
- Promises: asynchronous calls are modelled as synchronous calls that return the engine's value. `setDetectionImagesAsync` is an `async` function, so with the gate closed it actually returns a promise resolving to `undefined` rather than `undefined` itself.
- Facade.ARModule.AddListener: does not model the `remove` method the module attaches to each subscription at `src/AR.js:316`; removal is modelled only through `removeListener`.
- The values of `EventTypes` and `getVersion`: both read properties of the native module. The `on...` functions take their event name from the native properties (`Engine.EventKey`), and `getVersion` is not modelled.
- The event emitter's own work: delivering events, the order listeners are called in, and the bookkeeping calls it makes to the native side. Removal drops a subscription by its identity.
- Facade.ARModule.OnEvent: an event name the native module does not define reads as `undefined` and is registered under that key, as in the code; what the emitter does with an `undefined` name is not modelled.
- Capability.Profile: JavaScript truthiness is collapsed into booleans for `isDevice`, `isSupported` and the presence of `startAsync`, and the year class is an integer written in plain decimal digits. A missing or non-numeric year class (for which `<` and the template literal behave differently) is not modelled, nor a magnitude of 10^21 or more, which JavaScript writes in exponent form.
- Capability.Profile: `isSupported` and `hasStartAsync` describe the same native module as `NativeQueries.Properties`, but the model keeps them independent; nothing ties `p.isSupported` to the `isSupported` property of `native`, and no proof relies on them agreeing.
- Facade.WellFormed: does not require the subscription identities to be distinct. The methods hand each identity out once, from `nextId`, but a state built directly can repeat one, and `removeListener` then drops every listener with it.
- NativeQueries.GetSupportedVideoFormats: an unknown configuration is modelled as returning `undefined`. The code reads `ExponentAR["undefined"]` in that case, and also accepts names inherited by object literals such as `constructor`; both are treated as absent properties here.
- The two ARKit message constants are built from pieces in `Capability` so that proofs can index them; their text is the same as at `src/AR.js:254-258`.
- Concurrency, the React Native bridge and the native module's implementation are outside the model.
- `src/Localization.web.js` and the launch helpers under `src/launch` are not part of this model.
