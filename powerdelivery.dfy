/** The USB-C power-delivery task (lib/PowerDeliveryTask/PowerDeliveryTask.cpp): the CH224K
    configuration-pin mapping, the debounced power-good signal, the negotiation state machine with
    its timeout, and the commands the task drains from its queue. The PG pin reading, the clock,
    the stored target voltage and the measured bus voltage are inputs; what the task publishes
    goes to the status channel. */
module PowerDeliveryTask {
  import opened Wrappers
  import opened FixedWidth
  import opened CommandTypes
  import opened StatusTypes
  import SystemStatus
  import SystemCommand

  const PD_VOLTAGE_5V: int := 5
  const PD_VOLTAGE_9V: int := 9
  const PD_VOLTAGE_12V: int := 12
  const PD_VOLTAGE_15V: int := 15
  const PD_VOLTAGE_20V: int := 20

  const PD_NEGOTIATION_TIMEOUT: nat := 2000
  const PD_POWER_GOOD_DEBOUNCE: nat := 100

  const POWER_LOST_MESSAGE: string := "Power delivery lost"
  const TIMEOUT_MESSAGE: string := "PD negotiation timeout"

  /** The negotiation states; TIMEOUT follows the five the header lists. */
  datatype PDNegotiationState = Idle | Negotiating | Success | Failed | AutoNegotiating | Timeout

  /** `static_cast<int>(state)`. */
  function Ordinal(st: PDNegotiationState): (n: nat)
    ensures n <= 5
  {
    match st
    case Idle => 0
    case Negotiating => 1
    case Success => 2
    case Failed => 3
    case AutoNegotiating => 4
    case Timeout => 5
  }

  /** Distinct states are published as distinct numbers. */
  lemma OrdinalInjective(a: PDNegotiationState, b: PDNegotiationState)
    ensures Ordinal(a) == Ordinal(b) ==> a == b
  {
  }

  /** The voltages the CH224K can be asked for. */
  predicate IsPdVoltage(v: int) {
    v == PD_VOLTAGE_5V || v == PD_VOLTAGE_9V || v == PD_VOLTAGE_12V || v == PD_VOLTAGE_15V || v == PD_VOLTAGE_20V
  }

  /** The levels last written to CFG1, CFG2 and CFG3 (true is HIGH). */
  datatype CfgPins = CfgPins(cfg1: bool, cfg2: bool, cfg3: bool)

  /** `configureVoltage(v)`: the pin pattern for each of the five voltages; any other value gets
      the 12 V pattern. */
  function CfgPattern(voltage: int): CfgPins {
    if voltage == PD_VOLTAGE_5V then CfgPins(true, false, false)
    else if voltage == PD_VOLTAGE_9V then CfgPins(false, false, false)
    else if voltage == PD_VOLTAGE_12V then CfgPins(false, false, true)
    else if voltage == PD_VOLTAGE_15V then CfgPins(false, true, true)
    else if voltage == PD_VOLTAGE_20V then CfgPins(false, true, false)
    else CfgPins(false, false, true)
  }

  /** The five patterns are pairwise different, CFG1 is high only for 5 V, and an unsupported
      value is configured exactly as 12 V. */
  lemma CfgPatternInjective(v: int, w: int)
    ensures IsPdVoltage(v) && IsPdVoltage(w) && CfgPattern(v) == CfgPattern(w) ==> v == w
    ensures !IsPdVoltage(v) ==> CfgPattern(v) == CfgPattern(PD_VOLTAGE_12V)
    ensures CfgPattern(v).cfg1 <==> v == PD_VOLTAGE_5V
  {
  }

  // ----- State -----

  /** The negotiation: its state, the voltage asked for, the voltage reached, and when it began. */
  datatype Negotiation = Negotiation(
    negotiationState: PDNegotiationState,
    targetVoltage: int32,
    negotiatedVoltage: int32,
    negotiationStartTime: uint32)

  /** The power-good debouncer: the debounced state, the last raw reading, and when it changed. */
  datatype PowerGood = PowerGood(powerGoodState: bool, lastPowerGoodState: bool, powerGoodDebounceTime: uint32)

  /** A snapshot of the task's member variables, the pins it drove and the target it saved. */
  datatype PdState = PdState(
    negotiation: Negotiation,
    powerGood: PowerGood,
    currentVoltage: real,
    lastVoltageUpdate: uint32,
    isInitialized: bool,
    pins: Option<CfgPins>,
    savedTarget: Option<int32>)

  /** The state the constructor sets up. */
  function InitialPd(): (s: PdState)
    ensures s.negotiation.negotiationState == Idle && s.negotiation.targetVoltage == PD_VOLTAGE_12V
    ensures s.negotiation.negotiatedVoltage == 0 && !s.powerGood.powerGoodState && !s.isInitialized
  {
    PdState(Negotiation(Idle, PD_VOLTAGE_12V, 0, 0), PowerGood(false, false, 0), 0.0, 0, false, None, None)
  }

  /** What every step keeps true: SUCCESS is only held with power good, FAILED only with no
      negotiated voltage, and nothing enters AUTO_NEGOTIATING. */
  ghost predicate PdInv(s: PdState) {
    && (s.negotiation.negotiationState == Success ==> s.powerGood.powerGoodState)
    && (s.negotiation.negotiationState == Failed ==> s.negotiation.negotiatedVoltage == 0)
    && s.negotiation.negotiationState != AutoNegotiating
  }

  /** A step of the task: its new state and what it published, in order. */
  datatype PdStep = PdStep(next: PdState, updates: seq<StatusUpdateData>, notes: seq<NotificationData>)

  function Quiet(s: PdState): PdStep {
    PdStep(s, [], [])
  }

  /** `b` run after `a`: the outputs of both, in order. */
  function Then(a: PdStep, b: PdStep): PdStep {
    PdStep(b.next, a.updates + b.updates, a.notes + b.notes)
  }

  function NegotiationStatusUpdate(st: PDNegotiationState): StatusUpdateData {
    StatusUpdateData(PdNegotiationStatus, StatusFloat(Ordinal(st) as real))
  }

  // ----- Steps -----

  /** `startNegotiation(v)`: any voltage from 5 V to 20 V is accepted (a range check, so 7 V is
      accepted and configured as 12 V); the negotiated voltage is left as it was. */
  function AfterStartNegotiation(s: PdState, voltage: int32, now: uint32): PdStep {
    if voltage < PD_VOLTAGE_5V || voltage > PD_VOLTAGE_20V then Quiet(s)
    else
      var n := s.negotiation.(negotiationState := Negotiating, negotiationStartTime := now, targetVoltage := voltage);
      PdStep(s.(negotiation := n, pins := Some(CfgPattern(voltage))), [NegotiationStatusUpdate(Negotiating)], [])
  }

  function StartAccepted(voltage: int32): bool {
    PD_VOLTAGE_5V <= voltage <= PD_VOLTAGE_20V
  }

  /** The first half of `checkPowerGood()`: a raw reading different from the last one restarts
      the debounce timer. */
  function TrackReading(g: PowerGood, raw: bool, now: uint32): PowerGood {
    if raw != g.lastPowerGoodState then PowerGood(g.powerGoodState, raw, now) else g
  }

  /** The second half, once the reading has held for 100 ms and differs from the debounced
      state: the new state is published and may complete or lose the negotiation. */
  function AfterPowerGoodChange(s: PdState, raw: bool): PdStep {
    var changed := s.(powerGood := s.powerGood.(powerGoodState := raw));
    var pgUpdate := StatusUpdateData(PdPowerGoodStatus, StatusBool(raw));
    var n := s.negotiation;
    if raw && n.negotiationState == Negotiating then
      PdStep(changed.(negotiation := n.(negotiationState := Success, negotiatedVoltage := n.targetVoltage)),
             [pgUpdate, StatusUpdateData(PdNegotiatedVoltage, StatusFloat(n.targetVoltage as real))], [])
    else if !raw && n.negotiationState == Success then
      PdStep(changed.(negotiation := n.(negotiationState := Failed, negotiatedVoltage := 0)),
             [pgUpdate], [SystemStatus.NotificationFor(Warning, POWER_LOST_MESSAGE)])
    else
      PdStep(changed, [pgUpdate], [])
  }

  predicate PowerGoodSettled(g: PowerGood, raw: bool, now: uint32) {
    Sub32(now, g.powerGoodDebounceTime) >= PD_POWER_GOOD_DEBOUNCE && g.powerGoodState != raw
  }

  /** `checkPowerGood()` for a PG pin reading (active low, so `pgLow` means power good). */
  function AfterCheckPowerGood(s: PdState, pgLow: bool, now: uint32): PdStep {
    var tracked := s.(powerGood := TrackReading(s.powerGood, pgLow, now));
    if PowerGoodSettled(tracked.powerGood, pgLow, now) then AfterPowerGoodChange(tracked, pgLow)
    else Quiet(tracked)
  }

  /** `updateNegotiationState()`: a negotiation still running 2000 ms (wrap-aware) after it began
      times out, publishing the new state and an error. */
  function AfterUpdateNegotiationState(s: PdState, now: uint32): PdStep {
    if s.negotiation.negotiationState == Negotiating && Sub32(now, s.negotiation.negotiationStartTime) >= PD_NEGOTIATION_TIMEOUT then
      PdStep(s.(negotiation := s.negotiation.(negotiationState := Timeout)),
             [NegotiationStatusUpdate(Timeout)], [SystemStatus.NotificationFor(Error, TIMEOUT_MESSAGE)])
    else
      Quiet(s)
  }

  /** `publishStatusUpdates()`: one update of each PD kind, in this order. */
  function StatusSnapshot(s: PdState): (updates: seq<StatusUpdateData>)
    ensures |updates| == 4
    ensures updates[0].kind == PdNegotiationStatus && updates[1].kind == PdPowerGoodStatus
    ensures updates[2].kind == PdCurrentVoltage && updates[3].kind == PdNegotiatedVoltage
  {
    [NegotiationStatusUpdate(s.negotiation.negotiationState),
     StatusUpdateData(PdPowerGoodStatus, StatusBool(s.powerGood.powerGoodState)),
     StatusUpdateData(PdCurrentVoltage, StatusFloat(s.currentVoltage)),
     StatusUpdateData(PdNegotiatedVoltage, StatusFloat(s.negotiation.negotiatedVoltage as real))]
  }

  /** The snapshot is complete: two states with the same snapshot agree on the negotiation state,
      the power-good state, the measured voltage and the negotiated voltage. */
  lemma StatusSnapshotDetermines(s: PdState, t: PdState)
    requires StatusSnapshot(s) == StatusSnapshot(t)
    ensures s.negotiation.negotiationState == t.negotiation.negotiationState
    ensures s.powerGood.powerGoodState == t.powerGood.powerGoodState
    ensures s.currentVoltage == t.currentVoltage
    ensures s.negotiation.negotiatedVoltage == t.negotiation.negotiatedVoltage
  {
    assert StatusSnapshot(s)[0] == StatusSnapshot(t)[0];
    OrdinalInjective(s.negotiation.negotiationState, t.negotiation.negotiationState);
    assert StatusSnapshot(s)[1] == StatusSnapshot(t)[1];
    assert StatusSnapshot(s)[2] == StatusSnapshot(t)[2];
    assert StatusSnapshot(s)[3] == StatusSnapshot(t)[3];
  }

  /** One command of `processCommands()`: SET_TARGET_VOLTAGE assigns the int member to the target
      before `startNegotiation` checks it, and saves the target either way; REQUEST_ALL_STATUS
      publishes the snapshot; AUTO_NEGOTIATE_HIGHEST has no case and does nothing. */
  function AfterCommand(s: PdState, c: PowerDeliveryCommandData, now: uint32): PdStep {
    match c.command
    case SetTargetVoltage =>
      var v := ReadInt(c.payload);
      var started := AfterStartNegotiation(s.(negotiation := s.negotiation.(targetVoltage := v)), v, now);
      PdStep(started.next.(savedTarget := Some(started.next.negotiation.targetVoltage)), started.updates, started.notes)
    case RequestAllStatus => PdStep(s, StatusSnapshot(s), [])
    case AutoNegotiateHighest => Quiet(s)
  }

  /** The commands `processCommands()` drains, handled in queue order. */
  function AfterCommands(s: PdState, cs: seq<PowerDeliveryCommandData>, now: uint32): PdStep
    decreases |cs|
  {
    if cs == [] then Quiet(s)
    else
      var first := AfterCommand(s, cs[0], now);
      Then(first, AfterCommands(first.next, cs[1..], now))
  }

  /** Sequencing steps is associative. */
  lemma ThenAssoc(a: PdStep, b: PdStep, c: PdStep)
    ensures Then(Then(a, b), c) == Then(a, Then(b, c))
  {
    assert (a.updates + b.updates) + c.updates == a.updates + (b.updates + c.updates);
    assert (a.notes + b.notes) + c.notes == a.notes + (b.notes + c.notes);
  }

  /** Handling one more command extends the run by that command's step. */
  lemma {:induction false} AfterCommandsSnoc(s: PdState, cs: seq<PowerDeliveryCommandData>, c: PowerDeliveryCommandData, now: uint32)
    ensures var run := AfterCommands(s, cs, now);
      AfterCommands(s, cs + [c], now) == Then(run, AfterCommand(run.next, c, now))
    decreases |cs|
  {
    if cs == [] {
      assert [c] == cs + [c];
      assert ([c])[1..] == [];
    } else {
      var first := AfterCommand(s, cs[0], now);
      var rest := AfterCommands(first.next, cs[1..], now);
      assert (cs + [c])[0] == cs[0];
      assert (cs + [c])[1..] == cs[1..] + [c];
      AfterCommandsSnoc(first.next, cs[1..], c, now);
      ThenAssoc(first, rest, AfterCommand(rest.next, c, now));
    }
  }

  /** `measureVoltage()` given the measured bus voltage. */
  function AfterMeasureVoltage(s: PdState, voltage: real): PdStep {
    PdStep(s.(currentVoltage := voltage), [StatusUpdateData(PdCurrentVoltage, StatusFloat(voltage))], [])
  }

  /** The prologue of `run()`: drive the 12 V pattern, load the saved target (12 V when none is
      stored), mark the task initialised, and start negotiating the target. */
  function AfterInitialize(s: PdState, stored: Option<int32>, now: uint32): PdStep {
    var target := stored.GetOr(PD_VOLTAGE_12V);
    var prepared := s.(pins := Some(CfgPattern(PD_VOLTAGE_12V)),
                       negotiation := s.negotiation.(targetVoltage := target),
                       isInitialized := true);
    AfterStartNegotiation(prepared, target, now)
  }

  /** The two checks of `run()`'s loop: power good, then the negotiation timeout. */
  function AfterChecks(s: PdState, pgLow: bool, now: uint32): PdStep {
    var check := AfterCheckPowerGood(s, pgLow, now);
    Then(check, AfterUpdateNegotiationState(check.next, now))
  }

  /** The voltage is measured, and the time noted, once `interval` ms have passed (wrap-aware)
      since the last measurement. */
  function AfterMeasureIfDue(s: PdState, voltage: real, now: uint32, interval: uint32): PdStep {
    if Sub32(now, s.lastVoltageUpdate) >= interval then
      var measured := AfterMeasureVoltage(s, voltage);
      PdStep(measured.next.(lastVoltageUpdate := now), measured.updates, measured.notes)
    else
      Quiet(s)
  }

  /** One pass of `run()`'s loop: drain the commands, run the checks, measure when due. */
  function AfterRunOnce(s: PdState, cs: seq<PowerDeliveryCommandData>, pgLow: bool, now: uint32, voltage: real, interval: uint32): PdStep {
    var processed := AfterCommands(s, cs, now);
    var checked := Then(processed, AfterChecks(processed.next, pgLow, now));
    Then(checked, AfterMeasureIfDue(checked.next, voltage, now, interval))
  }

  /** `isNegotiationComplete()`. */
  function IsNegotiationComplete(st: PDNegotiationState): (complete: bool) {
    st == Success || st == Failed || st == Timeout
  }

  // ----- Properties -----

  /** A negotiation is complete exactly in SUCCESS, FAILED and TIMEOUT; the timeout check leaves
      every complete state alone, and a running negotiation is complete once it has run 2000 ms. */
  lemma NegotiationCompletion(s: PdState, now: uint32)
    ensures IsNegotiationComplete(s.negotiation.negotiationState) <==>
              s.negotiation.negotiationState in {Success, Failed, Timeout}
    ensures IsNegotiationComplete(s.negotiation.negotiationState) ==> AfterUpdateNegotiationState(s, now) == Quiet(s)
    ensures s.negotiation.negotiationState == Negotiating && Sub32(now, s.negotiation.negotiationStartTime) >= PD_NEGOTIATION_TIMEOUT ==>
              IsNegotiationComplete(AfterUpdateNegotiationState(s, now).next.negotiation.negotiationState)
  {
  }

  /** `startNegotiation`: a voltage outside 5..20 is refused and nothing changes; otherwise the
      state is NEGOTIATING with that target and start time, the pins carry its pattern, one status
      update is published, and the negotiated voltage is not reset. */
  lemma StartNegotiationOutcome(s: PdState, voltage: int32, now: uint32)
    ensures var r := AfterStartNegotiation(s, voltage, now);
      && (!StartAccepted(voltage) ==> r == Quiet(s))
      && (StartAccepted(voltage) ==>
            && r.next.negotiation == Negotiation(Negotiating, voltage, s.negotiation.negotiatedVoltage, now)
            && r.next.pins == Some(CfgPattern(voltage))
            && r.updates == [NegotiationStatusUpdate(Negotiating)] && r.notes == []
            && r.next.powerGood == s.powerGood && r.next.currentVoltage == s.currentVoltage)
  {
  }

  /** The check is a range check: 7 V is accepted and drives the 12 V pattern. */
  lemma StartNegotiationIsRangeCheck(s: PdState, now: uint32)
    ensures var r := AfterStartNegotiation(s, 7, now);
      r.next.negotiation.negotiationState == Negotiating && r.next.pins == Some(CfgPattern(PD_VOLTAGE_12V))
  {
  }

  /** The debouncer: a raw change only restarts the timer; the debounced state changes only to a
      reading already seen on the previous check, at least 100 ms after it first appeared. */
  lemma PowerGoodDebounce(s: PdState, pgLow: bool, now: uint32)
    ensures var r := AfterCheckPowerGood(s, pgLow, now);
      && r.next.powerGood.lastPowerGoodState == pgLow
      && (pgLow != s.powerGood.lastPowerGoodState ==>
            r.next.powerGood == PowerGood(s.powerGood.powerGoodState, pgLow, now) && r == Quiet(r.next))
      && (r.next.powerGood.powerGoodState != s.powerGood.powerGoodState ==>
            && pgLow == s.powerGood.lastPowerGoodState
            && Sub32(now, s.powerGood.powerGoodDebounceTime) >= PD_POWER_GOOD_DEBOUNCE
            && r.next.powerGood.powerGoodState == pgLow)
      && (r.next.powerGood.powerGoodState == s.powerGood.powerGoodState ==> r.updates == [] && r.next.negotiation == s.negotiation)
  {
  }

  /** On a debounced change: power good while NEGOTIATING reaches SUCCESS at the target voltage;
      power lost while in SUCCESS falls to FAILED with no voltage and a warning; in any other
      state only the power-good status is published. */
  lemma PowerGoodTransitions(s: PdState, pgLow: bool, now: uint32)
    requires pgLow == s.powerGood.lastPowerGoodState && pgLow != s.powerGood.powerGoodState
    requires Sub32(now, s.powerGood.powerGoodDebounceTime) >= PD_POWER_GOOD_DEBOUNCE
    ensures var r := AfterCheckPowerGood(s, pgLow, now);
      var n := s.negotiation;
      && r.next.powerGood.powerGoodState == pgLow
      && r.updates[0] == StatusUpdateData(PdPowerGoodStatus, StatusBool(pgLow))
      && (pgLow && n.negotiationState == Negotiating ==>
            r.next.negotiation == n.(negotiationState := Success, negotiatedVoltage := n.targetVoltage)
            && r.updates == [r.updates[0], StatusUpdateData(PdNegotiatedVoltage, StatusFloat(n.targetVoltage as real))])
      && (!pgLow && n.negotiationState == Success ==>
            r.next.negotiation == n.(negotiationState := Failed, negotiatedVoltage := 0)
            && r.notes == [SystemStatus.NotificationFor(Warning, POWER_LOST_MESSAGE)])
      && (!(pgLow && n.negotiationState == Negotiating) && !(!pgLow && n.negotiationState == Success) ==>
            r.next.negotiation == n && r.updates == [r.updates[0]] && r.notes == [])
  {
  }

  /** The timeout: only a NEGOTIATING state that has run 2000 ms changes, to TIMEOUT, with one
      status update and one error; the next check publishes nothing more. */
  lemma TimeoutPublishesOnce(s: PdState, now: uint32, later: uint32)
    ensures var r := AfterUpdateNegotiationState(s, now);
      && (s.negotiation.negotiationState == Negotiating && Sub32(now, s.negotiation.negotiationStartTime) >= PD_NEGOTIATION_TIMEOUT ==>
            r.next == s.(negotiation := s.negotiation.(negotiationState := Timeout))
            && r.updates == [NegotiationStatusUpdate(Timeout)]
            && r.notes == [SystemStatus.NotificationFor(Error, TIMEOUT_MESSAGE)])
      && (!(s.negotiation.negotiationState == Negotiating && Sub32(now, s.negotiation.negotiationStartTime) >= PD_NEGOTIATION_TIMEOUT) ==>
            r == Quiet(s))
      && AfterUpdateNegotiationState(r.next, later).updates == (if r.updates == [] then AfterUpdateNegotiationState(s, later).updates else [])
  {
  }

  /** SET_TARGET_VOLTAGE stores and saves the requested value even when it is refused, in which
      case the negotiation state is left as it was; AUTO_NEGOTIATE_HIGHEST changes nothing. */
  lemma SetTargetVoltageAlwaysSaved(s: PdState, c: PowerDeliveryCommandData, now: uint32)
    ensures c.command == SetTargetVoltage ==>
      var r := AfterCommand(s, c, now);
      && r.next.negotiation.targetVoltage == ReadInt(c.payload)
      && r.next.savedTarget == Some(ReadInt(c.payload))
      && (!StartAccepted(ReadInt(c.payload)) ==>
            r.next.negotiation.negotiationState == s.negotiation.negotiationState && r.updates == [])
    ensures c.command == AutoNegotiateHighest ==> AfterCommand(s, c, now) == Quiet(s)
    ensures c.command == PowerDeliveryCommand.RequestAllStatus ==> AfterCommand(s, c, now) == PdStep(s, StatusSnapshot(s), [])
  {
  }

  /** A refused target during a negotiation still becomes the negotiated voltage when power good
      arrives: 99 V is reported as reached while the pins still ask for 12 V. */
  lemma RefusedTargetCanBeReported(now: uint32)
    ensures var s := AfterStartNegotiation(InitialPd().(powerGood := PowerGood(false, true, 0)), 12, 0).next;
      var cmd := PowerDeliveryCommandWithInt(SetTargetVoltage, 99);
      var after := AfterCommand(s, cmd, 0).next;
      && after.pins == Some(CfgPattern(PD_VOLTAGE_12V))
      && AfterCheckPowerGood(after, true, PD_POWER_GOOD_DEBOUNCE as uint32).next.negotiation.negotiatedVoltage == 99
  {
  }

  /** Each single step keeps the invariant. */
  lemma PdInvSteps(s: PdState, c: PowerDeliveryCommandData, pgLow: bool, now: uint32)
    requires PdInv(s)
    ensures PdInv(AfterCommand(s, c, now).next)
    ensures PdInv(AfterCheckPowerGood(s, pgLow, now).next)
    ensures PdInv(AfterUpdateNegotiationState(s, now).next)
  {
  }

  /** Draining any sequence of commands keeps the invariant. */
  lemma {:induction false} PdInvCommands(s: PdState, cs: seq<PowerDeliveryCommandData>, now: uint32)
    requires PdInv(s)
    ensures PdInv(AfterCommands(s, cs, now).next)
    decreases |cs|
  {
    if cs != [] {
      PdInvSteps(s, cs[0], false, now);
      PdInvCommands(AfterCommand(s, cs[0], now).next, cs[1..], now);
    }
  }

  /** A whole pass of the loop keeps the invariant. */
  lemma PdInvRunOnce(s: PdState, cs: seq<PowerDeliveryCommandData>, pgLow: bool, now: uint32, voltage: real, interval: uint32)
    requires PdInv(s)
    ensures PdInv(AfterRunOnce(s, cs, pgLow, now, voltage, interval).next)
  {
    PdInvCommands(s, cs, now);
    var processed := AfterCommands(s, cs, now).next;
    PdInvSteps(processed, DefaultPowerDeliveryCommand(), pgLow, now);
    var checked := AfterCheckPowerGood(processed, pgLow, now).next;
    PdInvSteps(checked, DefaultPowerDeliveryCommand(), pgLow, now);
  }

  /** The prologue keeps the invariant from the constructor's state. */
  lemma InitializeKeepsPdInv(stored: Option<int32>, now: uint32)
    ensures PdInv(InitialPd())
    ensures PdInv(AfterInitialize(InitialPd(), stored, now).next)
    ensures var r := AfterInitialize(InitialPd(), stored, now);
      r.next.isInitialized && r.next.negotiation.targetVoltage == stored.GetOr(PD_VOLTAGE_12V)
      && (StartAccepted(stored.GetOr(PD_VOLTAGE_12V)) <==> r.next.negotiation.negotiationState == Negotiating)
  {
  }

  /** Publishing the outputs of two steps one after the other is publishing the outputs of the
      sequenced step. */
  lemma OutputsThen(uReady: bool, u0: seq<StatusUpdateData>, nReady: bool, n0: seq<NotificationData>, a: PdStep, b: PdStep)
    ensures SystemStatus.Published(uReady, SystemStatus.Published(uReady, u0, a.updates), b.updates)
              == SystemStatus.Published(uReady, u0, Then(a, b).updates)
    ensures SystemStatus.Notified(nReady, SystemStatus.Notified(nReady, n0, a.notes), b.notes)
              == SystemStatus.Notified(nReady, n0, Then(a, b).notes)
  {
    SystemStatus.PublishedConcat(uReady, u0, a.updates, b.updates);
    SystemStatus.NotifiedConcat(nReady, n0, a.notes, b.notes);
  }

  // ----- The task object -----

  class PowerDeliveryTask {
    const status: SystemStatus.SystemStatus
    const commands: SystemCommand.SystemCommand

    var targetVoltage: int32
    var negotiatedVoltage: int32
    var currentVoltage: real
    var powerGoodState: bool
    var lastPowerGoodState: bool
    var powerGoodDebounceTime: uint32
    var negotiationState: PDNegotiationState
    var negotiationStartTime: uint32
    var lastVoltageUpdate: uint32
    var isInitialized: bool
    var pins: Option<CfgPins>
    var savedTarget: Option<int32>

    function State(): PdState
      reads this
    {
      PdState(
        Negotiation(negotiationState, targetVoltage, negotiatedVoltage, negotiationStartTime),
        PowerGood(powerGoodState, lastPowerGoodState, powerGoodDebounceTime),
        currentVoltage, lastVoltageUpdate, isInitialized, pins, savedTarget)
    }

    ghost predicate Valid()
      reads this, status, commands
    {
      PdInv(State()) && status.Valid() && commands.Valid()
    }

    /** The status queue after publishing `updates` and `notes` on top of its old contents, with
        the handles and the command channel untouched. */
    twostate predicate Emitted(updates: seq<StatusUpdateData>, notes: seq<NotificationData>)
      reads this, status, commands
    {
      && status.statusUpdates == SystemStatus.Published(old(status.statusUpdatesReady), old(status.statusUpdates), updates)
      && status.notifications == SystemStatus.Notified(old(status.notificationsReady), old(status.notifications), notes)
      && status.statusUpdatesReady == old(status.statusUpdatesReady)
      && status.notificationsReady == old(status.notificationsReady)
    }

    constructor (status: SystemStatus.SystemStatus, commands: SystemCommand.SystemCommand)
      requires status.Valid() && commands.Valid()
      ensures Valid()
      ensures this.status == status && this.commands == commands
      ensures State() == InitialPd()
    {
      this.status := status;
      this.commands := commands;
      targetVoltage, negotiatedVoltage, currentVoltage := PD_VOLTAGE_12V, 0, 0.0;
      powerGoodState, lastPowerGoodState, powerGoodDebounceTime := false, false, 0;
      negotiationState, negotiationStartTime := Idle, 0;
      lastVoltageUpdate, isInitialized := 0, false;
      pins, savedTarget := None, None;
    }

    method ConfigureVoltage(voltage: int)
      requires Valid()
      modifies this
      ensures Valid()
      ensures State() == old(State()).(pins := Some(CfgPattern(voltage)))
    {
      if voltage == PD_VOLTAGE_5V {
        pins := Some(CfgPins(true, false, false));
      } else if voltage == PD_VOLTAGE_9V {
        pins := Some(CfgPins(false, false, false));
      } else if voltage == PD_VOLTAGE_12V {
        pins := Some(CfgPins(false, false, true));
      } else if voltage == PD_VOLTAGE_15V {
        pins := Some(CfgPins(false, true, true));
      } else if voltage == PD_VOLTAGE_20V {
        pins := Some(CfgPins(false, true, false));
      } else {
        pins := Some(CfgPins(false, false, true));
      }
    }

    method StartNegotiation(voltage: int32, now: uint32) returns (ok: bool)
      requires Valid()
      modifies this, status
      ensures Valid()
      ensures ok == StartAccepted(voltage)
      ensures var r := AfterStartNegotiation(old(State()), voltage, now);
        State() == r.next && Emitted(r.updates, r.notes)
    {
      if voltage < PD_VOLTAGE_5V || voltage > PD_VOLTAGE_20V {
        assert SystemStatus.Published(status.statusUpdatesReady, status.statusUpdates, []) == status.statusUpdates by {
          SystemStatus.PublishedBounded(status.statusUpdatesReady, status.statusUpdates, []);
        }
        assert SystemStatus.Notified(status.notificationsReady, status.notifications, []) == status.notifications;
        return false;
      }
      negotiationState := Negotiating;
      negotiationStartTime := now;
      targetVoltage := voltage;
      ConfigureVoltage(voltage);
      status.PublishStatusUpdate(PdNegotiationStatus, StatusFloat(Ordinal(negotiationState) as real));
      return true;
    }

    method TrackPowerGoodReading(raw: bool, now: uint32)
      requires Valid()
      modifies this
      ensures Valid()
      ensures State() == old(State()).(powerGood := TrackReading(old(State()).powerGood, raw, now))
    {
      if raw != lastPowerGoodState {
        powerGoodDebounceTime := now;
        lastPowerGoodState := raw;
      }
    }

    method ApplyPowerGoodChange(raw: bool)
      requires Valid()
      requires powerGoodState != raw
      modifies this, status
      ensures Valid()
      ensures var r := AfterPowerGoodChange(old(State()), raw);
        State() == r.next && Emitted(r.updates, r.notes)
    {
      ghost var u0 := status.statusUpdates;
      ghost var uReady := status.statusUpdatesReady;
      powerGoodState := raw;
      status.PublishStatusUpdate(PdPowerGoodStatus, StatusBool(powerGoodState));
      if powerGoodState && negotiationState == Negotiating {
        negotiationState := Success;
        negotiatedVoltage := targetVoltage;
        status.PublishStatusUpdate(PdNegotiatedVoltage, StatusFloat(negotiatedVoltage as real));
        SystemStatus.PublishedConcat(uReady, u0, [StatusUpdateData(PdPowerGoodStatus, StatusBool(raw))],
                                     [StatusUpdateData(PdNegotiatedVoltage, StatusFloat(negotiatedVoltage as real))]);
      } else if !powerGoodState && negotiationState == Success {
        negotiationState := Failed;
        negotiatedVoltage := 0;
        status.SendNotification(Warning, POWER_LOST_MESSAGE);
      } else {
        assert SystemStatus.Notified(status.notificationsReady, status.notifications, []) == status.notifications;
      }
    }

    method CheckPowerGood(pgLow: bool, now: uint32) returns (good: bool)
      requires Valid()
      modifies this, status
      ensures Valid()
      ensures var r := AfterCheckPowerGood(old(State()), pgLow, now);
        State() == r.next && Emitted(r.updates, r.notes)
      ensures good == powerGoodState
    {
      var currentPGState := pgLow;
      TrackPowerGoodReading(currentPGState, now);
      if Sub32(now, powerGoodDebounceTime) >= PD_POWER_GOOD_DEBOUNCE && powerGoodState != currentPGState {
        ApplyPowerGoodChange(currentPGState);
      } else {
        assert SystemStatus.Published(status.statusUpdatesReady, status.statusUpdates, []) == status.statusUpdates by {
          SystemStatus.PublishedBounded(status.statusUpdatesReady, status.statusUpdates, []);
        }
        assert SystemStatus.Notified(status.notificationsReady, status.notifications, []) == status.notifications;
      }
      good := powerGoodState;
    }

    method UpdateNegotiationState(now: uint32)
      requires Valid()
      modifies this, status
      ensures Valid()
      ensures var r := AfterUpdateNegotiationState(old(State()), now);
        State() == r.next && Emitted(r.updates, r.notes)
    {
      if negotiationState == Negotiating && Sub32(now, negotiationStartTime) >= PD_NEGOTIATION_TIMEOUT {
        negotiationState := Timeout;
        status.PublishStatusUpdate(PdNegotiationStatus, StatusFloat(Ordinal(negotiationState) as real));
        status.SendNotification(Error, TIMEOUT_MESSAGE);
        return;
      }
      assert SystemStatus.Published(status.statusUpdatesReady, status.statusUpdates, []) == status.statusUpdates by {
        SystemStatus.PublishedBounded(status.statusUpdatesReady, status.statusUpdates, []);
      }
      assert SystemStatus.Notified(status.notificationsReady, status.notifications, []) == status.notifications;
    }

    method PublishStatusUpdates()
      requires Valid()
      modifies status
      ensures Valid()
      ensures var s := State();
        s == old(State()) && Emitted(StatusSnapshot(s), [])
    {
      ghost var u0 := status.statusUpdates;
      ghost var ready := status.statusUpdatesReady;
      ghost var snap := StatusSnapshot(State());
      status.PublishStatusUpdate(PdNegotiationStatus, StatusFloat(Ordinal(negotiationState) as real));
      status.PublishStatusUpdate(PdPowerGoodStatus, StatusBool(powerGoodState));
      SystemStatus.PublishedConcat(ready, u0, snap[..1], [snap[1]]);
      status.PublishStatusUpdate(PdCurrentVoltage, StatusFloat(currentVoltage));
      SystemStatus.PublishedConcat(ready, u0, snap[..1] + [snap[1]], [snap[2]]);
      status.PublishStatusUpdate(PdNegotiatedVoltage, StatusFloat(negotiatedVoltage as real));
      SystemStatus.PublishedConcat(ready, u0, snap[..1] + [snap[1]] + [snap[2]], [snap[3]]);
      assert snap[..1] + [snap[1]] + [snap[2]] + [snap[3]] == snap;
      assert SystemStatus.Notified(status.notificationsReady, status.notifications, []) == status.notifications;
    }

    method SaveSettings()
      requires Valid()
      modifies this
      ensures Valid()
      ensures State() == old(State()).(savedTarget := Some(old(targetVoltage)))
    {
      savedTarget := Some(targetVoltage);
    }

    /** The body of `processCommands()`'s switch for one command. */
    method HandleCommand(c: PowerDeliveryCommandData, now: uint32)
      requires Valid()
      modifies this, status
      ensures Valid()
      ensures var r := AfterCommand(old(State()), c, now);
        State() == r.next && Emitted(r.updates, r.notes)
    {
      match c.command {
        case SetTargetVoltage =>
          targetVoltage := ReadInt(c.payload);
          var _ := StartNegotiation(targetVoltage, now);
          SaveSettings();
        case RequestAllStatus =>
          PublishStatusUpdates();
        case AutoNegotiateHighest =>
          assert SystemStatus.Published(status.statusUpdatesReady, status.statusUpdates, []) == status.statusUpdates by {
            SystemStatus.PublishedBounded(status.statusUpdatesReady, status.statusUpdates, []);
          }
          assert SystemStatus.Notified(status.notificationsReady, status.notifications, []) == status.notifications;
      }
    }

    /** One round of `processCommands()`'s loop: take the oldest waiting command, if any, and
        handle it. */
    method TakeAndHandle(now: uint32) returns (c: Option<PowerDeliveryCommandData>)
      requires Valid()
      modifies this, status, commands
      ensures Valid()
      ensures old(commands.powerDeliveryCommands) == [] ==>
                c == None && commands.powerDeliveryCommands == [] && State() == old(State()) && unchanged(status)
      ensures old(commands.powerDeliveryCommands) != [] ==>
                && c == Some(old(commands.powerDeliveryCommands)[0])
                && commands.powerDeliveryCommands == old(commands.powerDeliveryCommands)[1..]
                && var r := AfterCommand(old(State()), c.value, now);
                   State() == r.next && Emitted(r.updates, r.notes)
      ensures commands.ready == old(commands.ready) && commands.commands == old(commands.commands)
    {
      c := commands.GetPowerDeliveryCommand();
      if c.Some? {
        HandleCommand(c.value, now);
      }
    }

    /** `processCommands()`: take power-delivery commands without waiting until none is left,
        handling each in turn. */
    method ProcessCommands(now: uint32)
      requires Valid()
      modifies this, status, commands
      ensures Valid()
      ensures var r := AfterCommands(old(State()), old(commands.powerDeliveryCommands), now);
        State() == r.next && Emitted(r.updates, r.notes)
      ensures commands.powerDeliveryCommands == []
      ensures commands.ready == old(commands.ready) && commands.commands == old(commands.commands)
    {
      ghost var s0 := State();
      ghost var q0 := commands.powerDeliveryCommands;
      ghost var u0, n0 := status.statusUpdates, status.notifications;
      ghost var uReady, nReady := status.statusUpdatesReady, status.notificationsReady;
      ghost var done: seq<PowerDeliveryCommandData> := [];
      ghost var run := Quiet(s0);
      assert SystemStatus.Published(uReady, u0, []) == u0 by {
        SystemStatus.PublishedBounded(uReady, u0, []);
      }
      assert SystemStatus.Notified(nReady, n0, []) == n0;
      while true
        invariant Valid()
        invariant q0 == done + commands.powerDeliveryCommands
        invariant run == AfterCommands(s0, done, now)
        invariant State() == run.next
        invariant status.statusUpdates == SystemStatus.Published(uReady, u0, run.updates)
        invariant status.notifications == SystemStatus.Notified(nReady, n0, run.notes)
        invariant status.statusUpdatesReady == uReady && status.notificationsReady == nReady
        invariant commands.ready == old(commands.ready) && commands.commands == old(commands.commands)
        decreases |commands.powerDeliveryCommands|
      {
        ghost var waiting := commands.powerDeliveryCommands;
        var c := TakeAndHandle(now);
        if c.None? {
          assert done == q0;
          break;
        }
        assert waiting == [c.value] + commands.powerDeliveryCommands;
        assert q0 == (done + [c.value]) + commands.powerDeliveryCommands;
        ghost var step := AfterCommand(run.next, c.value, now);
        AfterCommandsSnoc(s0, done, c.value, now);
        OutputsThen(uReady, u0, nReady, n0, run, step);
        done := done + [c.value];
        run := Then(run, step);
      }
    }

    method MeasureVoltage(voltage: real)
      requires Valid()
      modifies this, status
      ensures Valid()
      ensures var r := AfterMeasureVoltage(old(State()), voltage);
        State() == r.next && Emitted(r.updates, r.notes)
    {
      currentVoltage := voltage;
      status.PublishStatusUpdate(PdCurrentVoltage, StatusFloat(currentVoltage));
      assert SystemStatus.Notified(status.notificationsReady, status.notifications, []) == status.notifications;
    }

    /** The prologue of `run()`: `initializeHardware`, `loadSettings` with the stored target as
        input, the initialised flag, and the first negotiation. */
    method Initialize(stored: Option<int32>, now: uint32)
      requires Valid()
      modifies this, status
      ensures Valid()
      ensures var r := AfterInitialize(old(State()), stored, now);
        State() == r.next && Emitted(r.updates, r.notes)
    {
      ConfigureVoltage(PD_VOLTAGE_12V);
      targetVoltage := stored.GetOr(PD_VOLTAGE_12V);
      isInitialized := true;
      var _ := StartNegotiation(targetVoltage, now);
    }

    /** `checkPowerGood()` followed by `updateNegotiationState()`. */
    method RunChecks(pgLow: bool, now: uint32)
      requires Valid()
      modifies this, status
      ensures Valid()
      ensures var r := AfterChecks(old(State()), pgLow, now);
        State() == r.next && Emitted(r.updates, r.notes)
    {
      ghost var u0, n0 := status.statusUpdates, status.notifications;
      ghost var uReady, nReady := status.statusUpdatesReady, status.notificationsReady;
      ghost var check := AfterCheckPowerGood(State(), pgLow, now);
      var _ := CheckPowerGood(pgLow, now);
      ghost var update := AfterUpdateNegotiationState(check.next, now);
      UpdateNegotiationState(now);
      OutputsThen(uReady, u0, nReady, n0, check, update);
    }

    method MeasureIfDue(voltage: real, now: uint32, interval: uint32)
      requires Valid()
      modifies this, status
      ensures Valid()
      ensures var r := AfterMeasureIfDue(old(State()), voltage, now, interval);
        State() == r.next && Emitted(r.updates, r.notes)
    {
      if Sub32(now, lastVoltageUpdate) >= interval {
        MeasureVoltage(voltage);
        lastVoltageUpdate := now;
      } else {
        assert SystemStatus.Published(status.statusUpdatesReady, status.statusUpdates, []) == status.statusUpdates by {
          SystemStatus.PublishedBounded(status.statusUpdatesReady, status.statusUpdates, []);
        }
        assert SystemStatus.Notified(status.notificationsReady, status.notifications, []) == status.notifications;
      }
    }

    /** One pass of `run()`'s loop, with one clock reading for the whole pass. */
    method RunOnce(pgLow: bool, now: uint32, voltage: real, interval: uint32)
      requires Valid()
      modifies this, status, commands
      ensures Valid()
      ensures var r := AfterRunOnce(old(State()), old(commands.powerDeliveryCommands), pgLow, now, voltage, interval);
        State() == r.next && Emitted(r.updates, r.notes)
      ensures commands.powerDeliveryCommands == []
      ensures commands.ready == old(commands.ready) && commands.commands == old(commands.commands)
    {
      ghost var u0, n0 := status.statusUpdates, status.notifications;
      ghost var uReady, nReady := status.statusUpdatesReady, status.notificationsReady;
      ghost var processed := AfterCommands(State(), commands.powerDeliveryCommands, now);
      ProcessCommands(now);
      ghost var checks := AfterChecks(processed.next, pgLow, now);
      RunChecks(pgLow, now);
      OutputsThen(uReady, u0, nReady, n0, processed, checks);
      ghost var checked := Then(processed, checks);
      ghost var measure := AfterMeasureIfDue(checked.next, voltage, now, interval);
      MeasureIfDue(voltage, now, interval);
      OutputsThen(uReady, u0, nReady, n0, checked, measure);
    }

    /** `isNegotiationComplete()`. */
    function NegotiationComplete(): (complete: bool)
      reads this
      ensures complete <==> negotiationState in {Success, Failed, Timeout}
    {
      IsNegotiationComplete(negotiationState)
    }
  }
}
