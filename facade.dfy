/**
 * The stateful part of the AR module: every exported function that touches
 * the native engine or the event emitter first checks the capability gate
 * and, when it is closed, returns `undefined` without touching either.
 *
 * The engine is observed through the calls it receives (a log) and the
 * emitter through its listeners, grouped by event name (a registry). The
 * pure functions `...Spec` say what one call does to that state; lemmas state
 * what the gate guarantees, for one call and for any sequence of calls; the
 * class `ARModule` holds the state and its methods are proved to follow the
 * functions.
 */
module Facade {
  import opened Engine
  import opened Capability
  import opened NativeQueries

  /** A listener registered with the emitter: its identity, the event name and the callback. */
  datatype Subscription = Subscription(id: nat, eventType: Value, listener: Value)

  /**
   * What `addListener` returns: with the gate closed, a stub whose `remove`
   * does nothing; with it open, the emitter's subscription.
   */
  datatype Handle = Stub | Live(subscription: Subscription)

  /** The emitter's listeners, by event name, in the order they were added. */
  type Registry = map<Value, seq<Subscription>>

  /** What the module's calls can change: the engine's calls, the listeners, and the next subscription identity. */
  datatype State = State(log: seq<EngineCall>, registry: Registry, nextId: nat)

  /** The listeners for event name `t`. */
  function Listeners(r: Registry, t: Value): seq<Subscription> {
    if t in r then r[t] else []
  }

  /** Every listener is filed under its own event name and has an identity below `nextId`. */
  ghost predicate WellFormed(s: State) {
    forall t, sub :: t in s.registry && sub in s.registry[t] ==> sub.eventType == t && sub.id < s.nextId
  }

  /** `subs` without the subscription with identity `id`. */
  function Without(subs: seq<Subscription>, id: nat): (r: seq<Subscription>)
    ensures forall x :: x in r <==> x in subs && x.id != id
    ensures |r| <= |subs|
  {
    if subs == [] then []
    else if subs[0].id == id then Without(subs[1..], id)
    else [subs[0]] + Without(subs[1..], id)
  }

  // ---- One call ----

  /** A gated engine call: with the gate open the call reaches the engine as it is, otherwise nothing happens. */
  function ForwardSpec(open: bool, s: State, call: EngineCall): State {
    if open then s.(log := s.log + [call]) else s
  }

  /** What a gated call that returns the engine's result gives its caller. */
  function ReplySpec(open: bool, engine: Behaviour, s: State, call: EngineCall): Value {
    if open then engine(s.log, call) else Undefined
  }

  /** `addListener(eventType, listener)`. */
  function AddListenerSpec(open: bool, s: State, eventType: Value, listener: Value): (State, Handle) {
    if !open then (s, Stub)
    else
      var sub := Subscription(s.nextId, eventType, listener);
      (State(s.log, s.registry[eventType := Listeners(s.registry, eventType) + [sub]], s.nextId + 1), Live(sub))
  }

  /** `removeListener(subscription)`: the emitter drops the subscription from its event name's listeners. */
  function RemoveListenerSpec(open: bool, s: State, sub: Subscription): State {
    if !open || sub.eventType !in s.registry then s
    else s.(registry := s.registry[sub.eventType := Without(s.registry[sub.eventType], sub.id)])
  }

  /** `removeAllListeners(eventType)`. */
  function RemoveAllListenersSpec(open: bool, s: State, eventType: Value): State {
    if open then s.(registry := s.registry - {eventType}) else s
  }

  /** With the gate closed no operation changes the engine's log or the listeners, and each returns `undefined` or the stub. */
  lemma ClosedGateChangesNothing(s: State, engine: Behaviour, call: EngineCall, t: Value, l: Value, sub: Subscription)
    ensures ForwardSpec(false, s, call) == s && ReplySpec(false, engine, s, call) == Undefined
    ensures AddListenerSpec(false, s, t, l) == (s, Stub)
    ensures RemoveListenerSpec(false, s, sub) == s
    ensures RemoveAllListenersSpec(false, s, t) == s
  {
  }

  /**
   * With the gate open a call reaches the engine once, as it is, and the
   * engine's reply is returned. That the call carries the method's own entry
   * and arguments, in order, is stated by each method of `ARModule`.
   */
  lemma OpenGateForwardsUnchanged(s: State, engine: Behaviour, call: EngineCall)
    ensures ForwardSpec(true, s, call).log == s.log + [call]
    ensures ForwardSpec(true, s, call).registry == s.registry
    ensures ReplySpec(true, engine, s, call) == engine(s.log, call)
  {
  }

  /** With the gate open `removeAllListeners(t)` empties `t` and leaves every other event name as it was. */
  lemma RemoveAllListenersOnlyClearsItsEvent(s: State, t: Value, u: Value)
    ensures Listeners(RemoveAllListenersSpec(true, s, t).registry, t) == []
    ensures u != t ==> Listeners(RemoveAllListenersSpec(true, s, t).registry, u) == Listeners(s.registry, u)
    ensures RemoveAllListenersSpec(true, s, t).log == s.log
  {
  }

  /**
   * With the gate open `addListener` appends a new subscription, with an
   * identity no listener has, to its event name and to no other.
   */
  lemma AddListenerRegisters(s: State, t: Value, l: Value)
    requires WellFormed(s)
    ensures var (s', h) := AddListenerSpec(true, s, t, l);
      && h == Live(Subscription(s.nextId, t, l))
      && Listeners(s'.registry, t) == Listeners(s.registry, t) + [h.subscription]
      && (forall u :: u != t ==> Listeners(s'.registry, u) == Listeners(s.registry, u))
      && (forall u, x :: x in Listeners(s.registry, u) ==> x.id != h.subscription.id)
      && s'.log == s.log
      && WellFormed(s')
  {
    var (s', h) := AddListenerSpec(true, s, t, l);
    forall u, sub | u in s'.registry && sub in s'.registry[u]
      ensures sub.eventType == u && sub.id < s'.nextId
    {
      if u != t || sub != h.subscription {
        assert sub in s.registry[u];
      }
    }
  }

  /**
   * With the gate open `removeListener` drops from its event name the
   * listeners with that subscription's identity, and only those.
   */
  lemma RemoveListenerDrops(s: State, sub: Subscription)
    requires WellFormed(s)
    ensures var s' := RemoveListenerSpec(true, s, sub);
      && (forall x :: x in Listeners(s'.registry, sub.eventType)
                      <==> x in Listeners(s.registry, sub.eventType) && x.id != sub.id)
      && (forall u :: u != sub.eventType ==> Listeners(s'.registry, u) == Listeners(s.registry, u))
      && s'.log == s.log
      && WellFormed(s')
  {
  }

  /** Dropping the identity of a new last subscription gives back the earlier ones. */
  lemma {:induction false} WithoutFreshLast(subs: seq<Subscription>, last: Subscription)
    requires forall x :: x in subs ==> x.id != last.id
    ensures Without(subs + [last], last.id) == subs
  {
    if subs != [] {
      WithoutFreshLast(subs[1..], last);
      assert (subs + [last])[1..] == subs[1..] + [last];
    }
  }

  /** Adding a listener and then removing its subscription leaves every event name with the listeners it had. */
  lemma AddThenRemoveRestoresListeners(s: State, t: Value, l: Value, u: Value)
    requires WellFormed(s)
    ensures var (s1, h) := AddListenerSpec(true, s, t, l);
      Listeners(RemoveListenerSpec(true, s1, h.subscription).registry, u) == Listeners(s.registry, u)
  {
    var (s1, h) := AddListenerSpec(true, s, t, l);
    AddListenerRegisters(s, t, l);
    WithoutFreshLast(Listeners(s.registry, t), h.subscription);
  }

  // ---- Sequences of calls ----

  /** A call a client can make: an engine call, or one of the listener operations. */
  datatype Op =
    | Call(call: EngineCall)
    | Add(eventType: Value, listener: Value)
    | Remove(subscription: Subscription)
    | RemoveAll(eventType: Value)

  function Step(open: bool, s: State, op: Op): State {
    match op
    case Call(c) => ForwardSpec(open, s, c)
    case Add(t, l) => AddListenerSpec(open, s, t, l).0
    case Remove(sub) => RemoveListenerSpec(open, s, sub)
    case RemoveAll(t) => RemoveAllListenersSpec(open, s, t)
  }

  /** The state after the calls `ops`, made one after the other. The gate does not change between calls. */
  function Run(open: bool, s: State, ops: seq<Op>): State
    decreases |ops|
  {
    if ops == [] then s else Run(open, Step(open, s, ops[0]), ops[1..])
  }

  /** The engine calls among `ops`, in order. */
  function CallsOf(ops: seq<Op>): seq<EngineCall> {
    if ops == [] then []
    else (if ops[0].Call? then [ops[0].call] else []) + CallsOf(ops[1..])
  }

  /** With the gate closed, no sequence of calls reaches the engine or the emitter. */
  lemma {:induction false} ClosedGateRunIsNoOp(s: State, ops: seq<Op>)
    ensures Run(false, s, ops) == s
  {
    if ops != [] {
      assert Step(false, s, ops[0]) == s;
      ClosedGateRunIsNoOp(s, ops[1..]);
    }
  }

  /** With the gate open, the engine receives exactly the engine calls of a sequence, in order and unchanged. */
  lemma {:induction false} OpenGateRunLogsCalls(s: State, ops: seq<Op>)
    ensures Run(true, s, ops).log == s.log + CallsOf(ops)
    decreases ops
  {
    if ops != [] {
      var first := if ops[0].Call? then [ops[0].call] else [];
      var s1 := Step(true, s, ops[0]);
      assert s1.log == s.log + first;
      OpenGateRunLogsCalls(s1, ops[1..]);
      assert s.log + first + CallsOf(ops[1..]) == s.log + (first + CallsOf(ops[1..]));
    }
  }

  lemma StepKeepsWellFormed(open: bool, s: State, op: Op)
    requires WellFormed(s)
    ensures WellFormed(Step(open, s, op))
  {
    if open {
      match op
      case Add(t, l) => AddListenerRegisters(s, t, l);
      case Remove(sub) => RemoveListenerDrops(s, sub);
      case _ =>
    }
  }

  /** Any sequence of calls keeps every listener under its own event name with a fresh identity. */
  lemma {:induction false} RunKeepsWellFormed(open: bool, s: State, ops: seq<Op>)
    requires WellFormed(s)
    ensures WellFormed(Run(open, s, ops))
    decreases ops
  {
    if ops != [] {
      StepKeepsWellFormed(open, s, ops[0]);
      RunKeepsWellFormed(open, Step(open, s, ops[0]), ops[1..]);
    }
  }

  // ---- The module ----

  /**
   * The AR module with the state it changes. `profile` is what the gate
   * reads, `native` the properties of `ExponentAR` and `engine` what its
   * methods answer; none of them changes while the module runs.
   */
  class ARModule {
    const profile: Profile
    const native: Properties
    const engine: Behaviour
    var log: seq<EngineCall>
    var registry: Registry
    var nextId: nat

    function Model(): State
      reads this
    {
      State(log, registry, nextId)
    }

    /** `isAvailable()`. */
    predicate Available() {
      IsAvailable(profile)
    }

    ghost predicate Valid()
      reads this
    {
      WellFormed(Model())
    }

    /** A gated call that returns the engine's result followed `ForwardSpec` and `ReplySpec`. */
    twostate predicate Forwarded(call: EngineCall, r: Value)
      reads this
    {
      && Valid()
      && Model() == ForwardSpec(Available(), old(Model()), call)
      && r == ReplySpec(Available(), engine, old(Model()), call)
    }

    /** A gated call that returns nothing followed `ForwardSpec`. */
    twostate predicate ForwardedNoResult(call: EngineCall)
      reads this
    {
      && Valid()
      && Model() == ForwardSpec(Available(), old(Model()), call)
    }

    constructor (profile: Profile, native: Properties, engine: Behaviour)
      ensures this.profile == profile && this.native == native && this.engine == engine
      ensures Model() == State([], map[], 0) && Valid()
    {
      this.profile := profile;
      this.native := native;
      this.engine := engine;
      log := [];
      registry := map[];
      nextId := 0;
    }

    /** The gate check and the call shared by every gated engine entry point. */
    method Forward(call: EngineCall) returns (r: Value)
      requires Valid()
      modifies this
      ensures Forwarded(call, r)
    {
      if !Available() {
        return Undefined;
      }
      r := engine(log, call);
      log := log + [call];
    }

    // ---- listeners ----

    method AddListener(eventType: Value, listener: Value) returns (h: Handle)
      requires Valid()
      modifies this
      ensures Valid()
      ensures (Model(), h) == AddListenerSpec(Available(), old(Model()), eventType, listener)
    {
      if !Available() {
        return Stub;
      }
      AddListenerRegisters(Model(), eventType, listener);
      var sub := Subscription(nextId, eventType, listener);
      registry := registry[eventType := Listeners(registry, eventType) + [sub]];
      nextId := nextId + 1;
      h := Live(sub);
    }

    /** `onFrameDidUpdate`, `onDidFailWithError`, ...: `addListener` on the event name read from `ExponentAR`. */
    method OnEvent(kind: EventKind, listener: Value) returns (h: Handle)
      requires Valid()
      modifies this
      ensures Valid()
      ensures (Model(), h) == AddListenerSpec(Available(), old(Model()), Property(native, EventKey(kind)), listener)
    {
      h := AddListener(Property(native, EventKey(kind)), listener);
    }

    method RemoveListener(sub: Subscription)
      requires Valid()
      modifies this
      ensures Valid()
      ensures Model() == RemoveListenerSpec(Available(), old(Model()), sub)
    {
      if !Available() {
        return;
      }
      RemoveListenerDrops(Model(), sub);
      if sub.eventType in registry {
        registry := registry[sub.eventType := Without(registry[sub.eventType], sub.id)];
      }
    }

    method RemoveAllListeners(eventType: Value)
      requires Valid()
      modifies this
      ensures Valid()
      ensures Model() == RemoveAllListenersSpec(Available(), old(Model()), eventType)
    {
      if !Available() {
        return;
      }
      registry := registry - {eventType};
    }

    // ---- engine calls that return the engine's result ----

    method PerformHitTest(point: Value, types: Value) returns (r: Value)
      requires Valid()
      modifies this
      ensures Forwarded(EngineCall(Entry.PerformHitTest, [point, types]), r)
    {
      r := Forward(EngineCall(Entry.PerformHitTest, [point, types]));
    }

    method SetDetectionImagesAsync(images: Value) returns (r: Value)
      requires Valid()
      modifies this
      ensures Forwarded(EngineCall(Entry.SetDetectionImagesAsync, [images]), r)
    {
      r := Forward(EngineCall(Entry.SetDetectionImagesAsync, [images]));
    }

    method GetCurrentFrame(attributes: Value) returns (r: Value)
      requires Valid()
      modifies this
      ensures Forwarded(EngineCall(Entry.GetCurrentFrame, [attributes]), r)
    {
      r := Forward(EngineCall(Entry.GetCurrentFrame, [attributes]));
    }

    method GetARMatrices(near: Value, far: Value) returns (r: Value)
      requires Valid()
      modifies this
      ensures Forwarded(EngineCall(Entry.GetARMatrices, [near, far]), r)
    {
      r := Forward(EngineCall(Entry.GetARMatrices, [near, far]));
    }

    method StopAsync() returns (r: Value)
      requires Valid()
      modifies this
      ensures Forwarded(EngineCall(Entry.StopAsync, []), r)
    {
      r := Forward(EngineCall(Entry.StopAsync, []));
    }

    method StartAsync(view: Value, configuration: Value) returns (r: Value)
      requires Valid()
      modifies this
      ensures Forwarded(EngineCall(Entry.StartAsync, [view, configuration]), r)
    {
      r := Forward(EngineCall(Entry.StartAsync, [view, configuration]));
    }

    method SetConfigurationAsync(configuration: Value) returns (r: Value)
      requires Valid()
      modifies this
      ensures Forwarded(EngineCall(Entry.SetConfigurationAsync, [configuration]), r)
    {
      r := Forward(EngineCall(Entry.SetConfigurationAsync, [configuration]));
    }

    method GetProvidesAudioData() returns (r: Value)
      requires Valid()
      modifies this
      ensures Forwarded(EngineCall(Entry.GetProvidesAudioData, []), r)
    {
      r := Forward(EngineCall(Entry.GetProvidesAudioData, []));
    }

    method GetCameraTexture() returns (r: Value)
      requires Valid()
      modifies this
      ensures Forwarded(EngineCall(Entry.GetCameraTexture, []), r)
    {
      r := Forward(EngineCall(Entry.GetCameraTexture, []));
    }

    method GetPlaneDetection() returns (r: Value)
      requires Valid()
      modifies this
      ensures Forwarded(EngineCall(Entry.GetPlaneDetection, []), r)
    {
      r := Forward(EngineCall(Entry.GetPlaneDetection, []));
    }

    method SetWorldOriginAsync(matrix: Value) returns (r: Value)
      requires Valid()
      modifies this
      ensures Forwarded(EngineCall(Entry.SetWorldOriginAsync, [matrix]), r)
    {
      r := Forward(EngineCall(Entry.SetWorldOriginAsync, [matrix]));
    }

    method GetLightEstimationEnabled() returns (r: Value)
      requires Valid()
      modifies this
      ensures Forwarded(EngineCall(Entry.GetLightEstimationEnabled, []), r)
    {
      r := Forward(EngineCall(Entry.GetLightEstimationEnabled, []));
    }

    method GetAutoFocusEnabled() returns (r: Value)
      requires Valid()
      modifies this
      ensures Forwarded(EngineCall(Entry.GetAutoFocusEnabled, []), r)
    {
      r := Forward(EngineCall(Entry.GetAutoFocusEnabled, []));
    }

    method GetWorldAlignment() returns (r: Value)
      requires Valid()
      modifies this
      ensures Forwarded(EngineCall(Entry.GetWorldAlignment, []), r)
    {
      r := Forward(EngineCall(Entry.GetWorldAlignment, []));
    }

    // ---- engine calls that return nothing ----

    method Reset()
      requires Valid()
      modifies this
      ensures ForwardedNoResult(EngineCall(Entry.Reset, []))
    {
      var _ := Forward(EngineCall(Entry.Reset, []));
    }

    method Resume()
      requires Valid()
      modifies this
      ensures ForwardedNoResult(EngineCall(Entry.Resume, []))
    {
      var _ := Forward(EngineCall(Entry.Resume, []));
    }

    method Pause()
      requires Valid()
      modifies this
      ensures ForwardedNoResult(EngineCall(Entry.Pause, []))
    {
      var _ := Forward(EngineCall(Entry.Pause, []));
    }

    method SetProvidesAudioData(providesAudioData: Value)
      requires Valid()
      modifies this
      ensures ForwardedNoResult(EngineCall(Entry.SetProvidesAudioData, [providesAudioData]))
    {
      var _ := Forward(EngineCall(Entry.SetProvidesAudioData, [providesAudioData]));
    }

    method SetPlaneDetection(planeDetection: Value)
      requires Valid()
      modifies this
      ensures ForwardedNoResult(EngineCall(Entry.SetPlaneDetection, [planeDetection]))
    {
      var _ := Forward(EngineCall(Entry.SetPlaneDetection, [planeDetection]));
    }

    method SetLightEstimationEnabled(value: Value)
      requires Valid()
      modifies this
      ensures ForwardedNoResult(EngineCall(Entry.SetLightEstimationEnabled, [value]))
    {
      var _ := Forward(EngineCall(Entry.SetLightEstimationEnabled, [value]));
    }

    method SetAutoFocusEnabled(value: Value)
      requires Valid()
      modifies this
      ensures ForwardedNoResult(EngineCall(Entry.SetAutoFocusEnabled, [value]))
    {
      var _ := Forward(EngineCall(Entry.SetAutoFocusEnabled, [value]));
    }

    method SetWorldAlignment(worldAlignment: Value)
      requires Valid()
      modifies this
      ensures ForwardedNoResult(EngineCall(Entry.SetWorldAlignment, [worldAlignment]))
    {
      var _ := Forward(EngineCall(Entry.SetWorldAlignment, [worldAlignment]));
    }
  }
}
