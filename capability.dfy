/**
 * The capability gate of the AR module: `isAvailable`, a conjunction of five
 * conditions on the device and the native engine, and
 * `getUnavailabilityReason`, which names the first of the first three
 * conditions that fails.
 *
 * Beside the two functions as the module writes them, the gate is described a
 * second time as an ordered list of checks searched for the first failure;
 * lemmas show that both descriptions agree, and that the message names the
 * failure precisely enough to be parsed back.
 */
module Capability {
  import opened Options
  import Numerals

  /**
   * What the gate reads: `Constants.isDevice`, `Platform.OS`,
   * `Constants.deviceYearClass`, whether `ExponentAR.isSupported` is truthy
   * and whether `ExponentAR.startAsync` exists.
   */
  datatype Profile = Profile(
    isDevice: bool,
    os: string,
    deviceYearClass: int,
    isSupported: bool,
    hasStartAsync: bool)

  const SupportedOS: string := "ios"
  /** The year class of the first devices with an A9 chip. */
  const MinimumYearClass: int := 2015

  const SimulatorMessage: string := "Cannot run EXGL in a simulator"
  /** The two ARKit messages share their first 22 characters; they are written in pieces so that proofs can index them. */
  const ARKitLead: string := "ARKit can only run on "
  const ANineChipMessage: string := ARKitLead + "iOS devices with A9 " + "(2015) or greater " + "chips! This is a"
  const ARKitOnlyOnIOSMessage: string := ARKitLead + "an iOS device! " + "This is a"
  const UnknownReason: string := "Unknown Reason"
  const DeviceSuffix: string := " device"

  /**
   * `isAvailable()`: false as soon as one of the five conditions fails, that
   * is, true exactly when the search over `GateOrder` finds no failing check.
   */
  predicate IsAvailable(p: Profile): (available: bool)
    ensures available <==> FirstFailing(p, GateOrder) == |GateOrder|
  {
    FirstFailingInGateOrder(p);
    if !p.isDevice || p.os != SupportedOS || p.deviceYearClass < MinimumYearClass
       || !p.isSupported || !p.hasStartAsync
    then false
    else true
  }

  /**
   * `getUnavailabilityReason()`: the message for the first check that fails,
   * in the module's order of priority. A failing engine check, or none, is an
   * unknown cause.
   */
  function UnavailabilityReason(p: Profile): (reason: string)
    ensures reason == Message(Diagnose(p))
  {
    FirstFailingInGateOrder(p);
    if !p.isDevice then SimulatorMessage
    else if p.os != SupportedOS then ARKitOnlyOnIOSMessage + " " + p.os + DeviceSuffix
    else if p.deviceYearClass < MinimumYearClass then
      ANineChipMessage + " " + Numerals.IntString(p.deviceYearClass) + DeviceSuffix
    else UnknownReason
  }

  // ---- The gate as an ordered list of checks ----

  /** The five conditions of the gate. */
  datatype Check = IsPhysicalDevice | RunsIOS | HasA9Chip | EngineSupported | HasStartEntrypoint

  predicate Passes(p: Profile, c: Check) {
    match c
    case IsPhysicalDevice => p.isDevice
    case RunsIOS => p.os == SupportedOS
    case HasA9Chip => p.deviceYearClass >= MinimumYearClass
    case EngineSupported => p.isSupported
    case HasStartEntrypoint => p.hasStartAsync
  }

  /** The order in which the module tests the conditions. */
  const GateOrder: seq<Check> := [IsPhysicalDevice, RunsIOS, HasA9Chip, EngineSupported, HasStartEntrypoint]

  /** The position of the first check in `checks` that `p` fails, or `|checks|` if it passes them all. */
  function FirstFailing(p: Profile, checks: seq<Check>): (k: nat)
    ensures k <= |checks|
    ensures forall i :: 0 <= i < k ==> Passes(p, checks[i])
    ensures k < |checks| ==> !Passes(p, checks[k])
  {
    if checks == [] then 0
    else if !Passes(p, checks[0]) then 0
    else 1 + FirstFailing(p, checks[1..])
  }

  /** Where the search over `GateOrder` stops, condition by condition. */
  lemma FirstFailingInGateOrder(p: Profile)
    ensures FirstFailing(p, GateOrder)
            == if !p.isDevice then 0
               else if p.os != SupportedOS then 1
               else if p.deviceYearClass < MinimumYearClass then 2
               else if !p.isSupported then 3
               else if !p.hasStartAsync then 4
               else 5
  {
    var g0 := GateOrder;
    var g1 := [RunsIOS, HasA9Chip, EngineSupported, HasStartEntrypoint];
    var g2 := [HasA9Chip, EngineSupported, HasStartEntrypoint];
    var g3 := [EngineSupported, HasStartEntrypoint];
    var g4 := [HasStartEntrypoint];
    assert g0[1..] == g1 && g1[1..] == g2 && g2[1..] == g3 && g3[1..] == g4 && g4[1..] == [];
    assert FirstFailing(p, g4) == if p.hasStartAsync then 1 else 0;
    assert FirstFailing(p, g3) == if p.isSupported then 1 + FirstFailing(p, g4) else 0;
    assert FirstFailing(p, g2) == if p.deviceYearClass >= MinimumYearClass then 1 + FirstFailing(p, g3) else 0;
    assert FirstFailing(p, g1) == if p.os == SupportedOS then 1 + FirstFailing(p, g2) else 0;
  }

  /** The gate opens exactly when no check fails, that is, when every one of the five conditions holds. */
  lemma AvailableIffEveryCheckPasses(p: Profile)
    ensures IsAvailable(p) <==> FirstFailing(p, GateOrder) == |GateOrder|
    ensures IsAvailable(p) <==> forall c :: Passes(p, c)
  {
    FirstFailingInGateOrder(p);
    if forall c :: Passes(p, c) {
      assert Passes(p, IsPhysicalDevice) && Passes(p, RunsIOS) && Passes(p, HasA9Chip);
      assert Passes(p, EngineSupported) && Passes(p, HasStartEntrypoint);
    }
  }

  /** What an unavailability message reports. */
  datatype Diagnosis = NotADevice | NotIOS(os: string) | ChipTooOld(yearClass: int) | UnknownCause

  /**
   * The diagnosis of the first failing check. The module only explains the
   * first three; a failing engine check, or none, is an unknown cause.
   */
  function Diagnose(p: Profile): Diagnosis {
    var k := FirstFailing(p, GateOrder);
    if k == |GateOrder| then UnknownCause
    else match GateOrder[k]
      case IsPhysicalDevice => NotADevice
      case RunsIOS => NotIOS(p.os)
      case HasA9Chip => ChipTooOld(p.deviceYearClass)
      case _ => UnknownCause
  }

  /** The message for a diagnosis. */
  function Message(d: Diagnosis): string {
    match d
    case NotADevice => SimulatorMessage
    case NotIOS(os) => ARKitOnlyOnIOSMessage + " " + os + DeviceSuffix
    case ChipTooOld(y) => ANineChipMessage + " " + Numerals.IntString(y) + DeviceSuffix
    case UnknownCause => UnknownReason
  }

  // ---- Reading a message back ----

  /** The part of `msg` between `lead` and `tail`, if `msg` starts with `lead` and ends with `tail`. */
  function Between(msg: string, lead: string, tail: string): (r: Option<string>)
    ensures r.Some? ==> msg == lead + r.value + tail
  {
    if |msg| >= |lead| + |tail| && msg[..|lead|] == lead && msg[|msg| - |tail|..] == tail then
      assert msg == msg[..|lead|] + msg[|lead|..|msg| - |tail|] + msg[|msg| - |tail|..];
      Some(msg[|lead|..|msg| - |tail|])
    else None
  }

  lemma BetweenOfConcat(lead: string, mid: string, tail: string)
    ensures Between(lead + mid + tail, lead, tail) == Some(mid)
  {
    var msg := lead + mid + tail;
    assert msg[..|lead|] == lead;
    assert msg[|msg| - |tail|..] == tail;
    assert msg[|lead|..|msg| - |tail|] == mid;
  }

  /** The diagnosis an unavailability message reports. */
  function ParseReason(msg: string): Diagnosis {
    if msg == SimulatorMessage then NotADevice
    else match Between(msg, ARKitOnlyOnIOSMessage + " ", DeviceSuffix)
      case Some(os) => NotIOS(os)
      case None =>
        match Between(msg, ANineChipMessage + " ", DeviceSuffix)
        case Some(digits) =>
          (match Numerals.ParseInt(digits)
           case Some(y) => ChipTooOld(y)
           case None => UnknownCause)
        case None => UnknownCause
  }

  /** Every message can be read back into the diagnosis it was made from. */
  lemma ParseMessage(d: Diagnosis)
    ensures ParseReason(Message(d)) == d
  {
    var iosLead := ARKitOnlyOnIOSMessage + " ";
    var chipLead := ANineChipMessage + " ";
    match d
    case NotADevice =>
    case NotIOS(os) =>
      var msg := iosLead + os + DeviceSuffix;
      assert msg[0] == ARKitLead[0] == 'A' && SimulatorMessage[0] == 'C';
      BetweenOfConcat(iosLead, os, DeviceSuffix);
    case ChipTooOld(y) =>
      var digits := Numerals.IntString(y);
      var msg := chipLead + digits + DeviceSuffix;
      assert msg[0] == ARKitLead[0] == 'A' && SimulatorMessage[0] == 'C';
      // the two leads differ right after ARKitLead: "an iOS device" against "iOS devices"
      assert |ARKitLead| == 22;
      assert msg[22] == 'i' && iosLead[22] == 'a';
      assert Between(msg, iosLead, DeviceSuffix).None? by {
        if |msg| >= |iosLead| + |DeviceSuffix| {
          assert msg[..|iosLead|][22] != iosLead[22];
        }
      }
      BetweenOfConcat(chipLead, digits, DeviceSuffix);
      Numerals.IntStringRoundTrip(y);
    case UnknownCause =>
      assert |UnknownReason| < |iosLead| && |UnknownReason| < |chipLead|;
  }

  /** Two profiles get the same message exactly when their first failing checks, with the values they report, agree. */
  lemma ReasonIdentifiesFailure(p: Profile, q: Profile)
    ensures UnavailabilityReason(p) == UnavailabilityReason(q) <==> Diagnose(p) == Diagnose(q)
  {
    ParseMessage(Diagnose(p));
    ParseMessage(Diagnose(q));
  }

  // ---- The individual cases of getUnavailabilityReason ----

  /** A simulator gets the simulator message, whatever the other conditions. */
  lemma SimulatorReasonFirst(p: Profile)
    requires !p.isDevice
    ensures !IsAvailable(p)
    ensures UnavailabilityReason(p) == SimulatorMessage
  {
  }

  /** A device with another OS gets the iOS-only message naming that OS. */
  lemma NotIOSReason(p: Profile)
    requires p.isDevice && p.os != SupportedOS
    ensures !IsAvailable(p)
    ensures UnavailabilityReason(p) == ARKitOnlyOnIOSMessage + " " + p.os + " device"
  {
  }

  /** An iOS device older than the A9 chip gets the A9 message naming its year class. */
  lemma ChipTooOldReason(p: Profile)
    requires p.isDevice && p.os == SupportedOS && p.deviceYearClass < MinimumYearClass
    ensures !IsAvailable(p)
    ensures UnavailabilityReason(p) == ANineChipMessage + " " + Numerals.IntString(p.deviceYearClass) + " device"
  {
  }

  /**
   * Once the first three conditions hold the reason is unknown: the gate is
   * then open exactly when the engine reports support and has a start entry.
   */
  lemma UnknownReasonAfterFirstThree(p: Profile)
    requires p.isDevice && p.os == SupportedOS && p.deviceYearClass >= MinimumYearClass
    ensures UnavailabilityReason(p) == UnknownReason
    ensures IsAvailable(p) <==> p.isSupported && p.hasStartAsync
  {
  }

  /** An open gate reports an unknown reason. */
  lemma AvailableMeansUnknownReason(p: Profile)
    requires IsAvailable(p)
    ensures UnavailabilityReason(p) == UnknownReason
  {
  }
}
