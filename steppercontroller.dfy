/** The motor task's command handling (lib/StepperController/StepperController.cpp): range
    checks, the enable/disable state machine, the DIAG-pin stall detector, unit conversions,
    wrap-aware timing, and command-id allocation for the task's own command queue. Hardware
    readings (the clock, the stepper position and running flag, the DIAG pin, the move result
    code, the driver's "communicating" answer) are inputs; hardware calls are recorded as fields. */
module StepperController {
  import opened Wrappers
  import opened FixedWidth
  import opened CommandTypes
  import Fifo
  import SystemCommand

  // Motor specification (lib/StepperController/StepperController.h)
  const STEPS_PER_REVOLUTION: nat := 200
  const GEAR_RATIO: nat := 10
  const MICRO_STEPS: nat := 16
  const TOTAL_MICRO_STEPS_PER_REVOLUTION: nat := STEPS_PER_REVOLUTION * GEAR_RATIO * MICRO_STEPS
  const MIN_SPEED_RPM: real := 0.1
  const MAX_SPEED_RPM: real := 30.0

  const MIN_RUN_CURRENT: int := 10
  const MAX_RUN_CURRENT: int := 100
  const DEFAULT_SPEED_RPM: real := 1.0
  const DEFAULT_RUN_CURRENT: int32 := 30
  /** FastAccelStepper's `MOVE_OK` result code. */
  const MOVE_OK: int := 0
  /** The longest wait on the command queue, in milliseconds. */
  const MAX_QUEUE_TIMEOUT_MS: nat := 100

  /** The error texts the handlers report, as values; `Text` spells each one out. */
  datatype ErrorMessage =
    | NoError
    | SpeedOutOfRange
    | StepperNotInitialized
    | MoveFailed(code: int)
    | CurrentOutOfRange
    | DriverNotResponding

  function Text(m: ErrorMessage): (text: string)
    ensures text == [] <==> m == NoError
  {
    match m
    case NoError => ""
    case SpeedOutOfRange => "Speed out of range (0.10-30.00 RPM)"
    case StepperNotInitialized => "Stepper not initialized"
    case MoveFailed(code) => "Failed to start stepper movement (result code: " + DecimalString(code) + ")"
    case CurrentOutOfRange => "Current out of range (10-100%)"
    case DriverNotResponding => "TMC2209 driver not responding after setting current"
  }

  /** The decimal text of an integer, as Arduino's `String(int)` prints it. */
  function DecimalString(n: int): (text: string)
    ensures text != []
    decreases if n < 0 then 1 - n else n
  {
    if n < 0 then "-" + DecimalString(-n)
    else if n < 10 then [(('0' as int) + n) as char]
    else DecimalString(n / 10) + [(('0' as int) + n % 10) as char]
  }

  datatype CommandResult = Success | InvalidParameter | HardwareError | CommunicationError

  /** A report in the result queue. */
  datatype CommandResultData = CommandResultData(commandId: uint32, result: CommandResult, errorMessage: ErrorMessage)

  /** A record in the task's own command queue: the command and the id handed to its sender. */
  datatype QueuedCommand = QueuedCommand(data: StepperCommandData, commandId: uint32)

  /** The last motion call made on the stepper object. */
  datatype StepperRequest = NoRequest | RunForward | RunBackward | StopMove | ForceStop

  /** What `saveSettings()` writes to flash. */
  datatype Settings = Settings(speedRPM: real, clockwise: bool, microSteps: nat, runCurrent: int32)

  /** The hardware readings one step of the task sees. */
  datatype Hardware = Hardware(
    now: uint32,                 // millis()
    position: int32,             // stepper->getCurrentPosition()
    stepperRunning: bool,        // stepper->isRunning()
    diagHigh: bool,              // digitalRead(DIAG)
    moveResult: int,             // result of stepper->runForward() / runBackward()
    driverCommunicating: bool)   // stepperDriver.isSetupAndCommunicating()

  /** The speed, direction and current a user sets. */
  datatype MotorConfig = MotorConfig(currentSpeedRPM: real, clockwise: bool, runCurrent: int32)

  /** The driver and stepper objects, with the last calls the controller made on them. */
  datatype Drive = Drive(
    stepperPresent: bool,        // stepper != nullptr
    tmc2209Initialized: bool,
    motorEnabled: bool,
    stepRateHz: uint32,          // last stepper->setSpeedInHz()
    acceleration: uint32,        // last stepper->setAcceleration()
    driverEnabled: bool,         // last stepperDriver.enable() / disable()
    lastRequest: StepperRequest,
    positionZeroed: bool)        // stepper->setCurrentPosition(0) has been called

  /** Run-time statistics. */
  datatype Odometer = Odometer(startTime: uint32, totalSteps: uint32, isFirstStart: bool)

  /** The stall detector's state. */
  datatype Stall = Stall(stallDetected: bool, lastStallTime: uint32, stallCount: uint16)

  /** Values cached by `updateCache()` for other tasks to read. */
  datatype Cache = Cache(cachedCurrentPosition: int32, cachedIsRunning: bool, cachedStallDetected: bool)

  /** The controller's own command queue (null when `xQueueCreate` failed) and its id counter. */
  datatype Commands = Commands(commandQueueReady: bool, commandQueue: seq<QueuedCommand>, nextCommandId: uint32)

  /** The result queue (null when `xQueueCreate` failed) and its capacity. */
  datatype Results = Results(resultQueueReady: bool, resultQueueSize: nat, resultQueue: seq<CommandResultData>)

  /** A snapshot of every member variable of the controller, grouped by concern, plus what it last
      saved to flash. */
  datatype MotorState = MotorState(
    config: MotorConfig,
    drive: Drive,
    odometer: Odometer,
    stall: Stall,
    cache: Cache,
    saved: Option<Settings>,
    commands: Commands,
    results: Results)

  /** What the controller keeps true: bounded queues, null queues empty, and the speed and current
      within the ranges the handlers accept. */
  ghost predicate Inv(s: MotorState) {
    && |s.commands.commandQueue| <= SystemCommand.COMMAND_QUEUE_SIZE
    && (!s.commands.commandQueueReady ==> s.commands.commandQueue == [])
    && |s.results.resultQueue| <= s.results.resultQueueSize
    && (!s.results.resultQueueReady ==> s.results.resultQueue == [])
    && MIN_SPEED_RPM <= s.config.currentSpeedRPM <= MAX_SPEED_RPM
    && MIN_RUN_CURRENT <= s.config.runCurrent <= MAX_RUN_CURRENT
  }

  /** The state the constructor sets up; whether `xQueueCreate` succeeded for each queue is an
      input, and the size of the result queue is a parameter. */
  function Initial(commandQueueCreated: bool, resultQueueCreated: bool, resultQueueSize: nat): (s: MotorState)
    ensures Inv(s)
    ensures !s.drive.stepperPresent && !s.drive.motorEnabled && s.odometer.isFirstStart
    ensures s.commands.nextCommandId == 1 && s.commands.commandQueue == [] && s.results.resultQueue == []
  {
    MotorState(
      MotorConfig(DEFAULT_SPEED_RPM, true, DEFAULT_RUN_CURRENT),
      Drive(false, false, false, 0, 0, false, NoRequest, false),
      Odometer(0, 0, true),
      Stall(false, 0, 0),
      Cache(0, false, false),
      None,
      Commands(commandQueueCreated, [], 1),
      Results(resultQueueCreated, resultQueueSize, []))
  }

  // ----- Conversions -----

  /** `rpmToStepsPerSecond(rpm)`: output-shaft RPM to motor micro-steps per second, truncated
      toward zero. The cast to `uint32_t` is defined only for non-negative values below 2^32. */
  function RpmToStepsPerSecond(rpm: real): (r: uint32)
    requires 0.0 <= rpm && rpm * (TOTAL_MICRO_STEPS_PER_REVOLUTION as real) < 60.0 * (TWO_32 as real)
    ensures r as real <= rpm * (GEAR_RATIO as real) * (STEPS_PER_REVOLUTION as real) * (MICRO_STEPS as real) / 60.0 < (r + 1) as real
  {
    (rpm * (GEAR_RATIO as real) * (STEPS_PER_REVOLUTION as real) * (MICRO_STEPS as real) / 60.0).Floor
  }

  /** A faster shaft never gets a lower step rate. */
  lemma RpmToStepsPerSecondMonotone(a: real, b: real)
    requires 0.0 <= a <= b && b * (TOTAL_MICRO_STEPS_PER_REVOLUTION as real) < 60.0 * (TWO_32 as real)
    ensures RpmToStepsPerSecond(a) <= RpmToStepsPerSecond(b)
  {
    var x := a * (GEAR_RATIO as real) * (STEPS_PER_REVOLUTION as real) * (MICRO_STEPS as real) / 60.0;
    var y := b * (GEAR_RATIO as real) * (STEPS_PER_REVOLUTION as real) * (MICRO_STEPS as real) / 60.0;
    assert x <= y;
  }

  /** The end points of the speed range: 30 RPM is 16000 steps/s, 0.1 RPM is 53 steps/s. */
  lemma RpmToStepsPerSecondRange()
    ensures RpmToStepsPerSecond(MAX_SPEED_RPM) == 16000
    ensures RpmToStepsPerSecond(MIN_SPEED_RPM) == 53
  {
  }

  /** `calculateAccelerationForTime(rpm, t)`: the whole number of steps/s² that brings the motor
      from rest to the step rate of `rpm` in `t` seconds, truncated toward zero. */
  function CalculateAccelerationForTime(targetRPM: real, timeSeconds: real): (r: uint32)
    requires 0.0 <= targetRPM && targetRPM * (TOTAL_MICRO_STEPS_PER_REVOLUTION as real) < 60.0 * (TWO_32 as real)
    requires timeSeconds > 0.0
    requires (RpmToStepsPerSecond(targetRPM) as real) / timeSeconds < TWO_32 as real
    ensures r as real <= (RpmToStepsPerSecond(targetRPM) as real) / timeSeconds < (r + 1) as real
  {
    ((RpmToStepsPerSecond(targetRPM) as real) / timeSeconds).Floor
  }

  /** The default acceleration `begin()` sets: 30 RPM in 10 s is 1600 steps/s². */
  lemma DefaultAcceleration()
    ensures CalculateAccelerationForTime(MAX_SPEED_RPM, 10.0) == 1600
  {
    RpmToStepsPerSecondRange();
  }

  /** C's `abs` on a 32-bit `int`: negating INT_MIN overflows and leaves INT_MIN. */
  function CAbs32(x: int32): (r: int32)
    ensures x != -TWO_31 ==> r >= 0 && (r == x || r == -x)
    ensures x == -TWO_31 ==> r == x
  {
    if x >= 0 then x else if x == -TWO_31 then x else -x
  }

  /** `getTotalRevolutions()` as written: `abs(position)` micro-steps over the micro-steps per
      output revolution. */
  function TotalRevolutionsAsWritten(position: int32): real {
    CAbs32(position) as real / ((STEPS_PER_REVOLUTION * MICRO_STEPS) as real) / (GEAR_RATIO as real)
  }

  /** At position INT_MIN the source reports a negative odometer. */
  lemma TotalRevolutionsAsWrittenNegative()
    ensures TotalRevolutionsAsWritten(-TWO_31) < 0.0
  {
  }

  /** The odometer as intended: the distance from position 0 in output revolutions. */
  function TotalRevolutions(position: int32): (r: real)
    ensures r >= 0.0
    ensures r * (TOTAL_MICRO_STEPS_PER_REVOLUTION as real) == (if position >= 0 then position as int else -(position as int)) as real
    ensures position != -TWO_31 ==> r == TotalRevolutionsAsWritten(position)
  {
    var distance: int := if position >= 0 then position as int else -(position as int);
    distance as real / (TOTAL_MICRO_STEPS_PER_REVOLUTION as real)
  }

  // ----- Timing helpers -----

  /** FreeRTOS `pdMS_TO_TICKS(ms)` for a tick rate of `tickRateHz`. */
  function MsToTicks(ms: nat, tickRateHz: nat): nat {
    ms * tickRateHz / 1000
  }

  /** A longer wait never converts to fewer ticks. */
  lemma MsToTicksMonotone(a: nat, b: nat, tickRateHz: nat)
    requires a <= b
    ensures MsToTicks(a, tickRateHz) <= MsToTicks(b, tickRateHz)
  {
    assert a * tickRateHz <= b * tickRateHz by {
      assert (b - a) * tickRateHz >= 0;
    }
  }

  /** `calculateQueueTimeout(next)`: how long the task may wait for a command before its next
      periodic update is due, at most 100 ms; no wait when the update is overdue. */
  function CalculateQueueTimeout(nextUpdate: uint32, now: uint32, tickRateHz: nat): (ticks: nat)
    ensures nextUpdate <= now ==> ticks == 0
    ensures ticks <= MsToTicks(MAX_QUEUE_TIMEOUT_MS, tickRateHz)
    ensures tickRateHz == 1000 && nextUpdate >= now ==> ticks == Fifo.Min(nextUpdate - now, MAX_QUEUE_TIMEOUT_MS)
  {
    if nextUpdate < now then 0
    else
      var untilUpdate := if nextUpdate - now > MAX_QUEUE_TIMEOUT_MS then MAX_QUEUE_TIMEOUT_MS else nextUpdate - now;
      MsToTicksMonotone(untilUpdate, MAX_QUEUE_TIMEOUT_MS, tickRateHz);
      if untilUpdate > 0 then MsToTicks(untilUpdate, tickRateHz) else 0
  }

  /** `isCacheUpdateDue(next)`: due once the clock reaches `next`, and also when `next` lies more
      than 2^31 ms ahead, which can only mean that `next` was computed before the clock wrapped. */
  function IsCacheUpdateDue(nextUpdate: uint32, now: uint32): bool {
    if nextUpdate > now && nextUpdate - now > 0x8000_0000 then true else now >= nextUpdate
  }

  /** Read with wrap-around, the check never misses a due update: an update at most 2^31 ms in
      the past is due, and one reported not due lies ahead of the clock by at most 2^31 ms. */
  lemma CacheUpdateDueWrapAware(nextUpdate: uint32, now: uint32)
    ensures Sub32(now, nextUpdate) < TWO_31 ==> IsCacheUpdateDue(nextUpdate, now)
    ensures !IsCacheUpdateDue(nextUpdate, now) ==> 0 < Sub32(nextUpdate, now) <= TWO_31
    ensures now >= nextUpdate ==> IsCacheUpdateDue(nextUpdate, now)
  {
  }

  /** An update scheduled at `now + interval` is due by `interval` ms later, whatever wraps. */
  lemma ScheduleAcrossWrap(now: uint32, interval: uint32, later: uint32)
    requires 0 < interval < TWO_31
    requires Sub32(later, now) == interval
    ensures IsCacheUpdateDue(Add32(now, interval), later)
  {
    SubAdd32(now, interval);
  }

  /** The schedule is not always kept to the millisecond: while neither the sum nor the clock
      wraps the update is not due early, but when `now + interval` wraps past 2^32 and the clock
      has not, the update is due at once and stays due until the clock wraps too. */
  lemma ScheduleEarlyAcrossWrap(now: uint32, interval: uint32, later: uint32)
    requires 0 < interval < TWO_31
    ensures now as int + interval as int < TWO_32 && now <= later < Add32(now, interval)
            ==> !IsCacheUpdateDue(Add32(now, interval), later)
    ensures now as int + interval as int >= TWO_32 && later >= now
            ==> IsCacheUpdateDue(Add32(now, interval), later)
  {
  }

  // ----- Derived readings -----

  /** `getRunTime()`: whole seconds since the first start (wrap-aware), 0 before it. */
  function RunTime(o: Odometer, now: uint32): (seconds: nat)
    ensures o.isFirstStart ==> seconds == 0
    ensures !o.isFirstStart ==> seconds * 1000 <= Sub32(now, o.startTime) < (seconds + 1) * 1000
  {
    if o.isFirstStart then 0 else Sub32(now, o.startTime) / 1000
  }

  /** `isRunning()`: the cached running flag of an enabled motor. */
  function IsRunning(s: MotorState): (running: bool)
    ensures running ==> s.drive.motorEnabled
    ensures s.drive.motorEnabled ==> running == s.cache.cachedIsRunning
  {
    s.cache.cachedIsRunning && s.drive.motorEnabled
  }

  // ----- Command handlers, as functions of the state -----

  /** `reportResult(id, result, message)`: offered to the result queue without waiting; dropped
      when the queue is full or was never created. */
  function Report(s: MotorState, commandId: uint32, result: CommandResult, message: ErrorMessage): MotorState {
    if s.results.resultQueueReady
    then s.(results := s.results.(resultQueue := Fifo.Push(s.results.resultQueue, CommandResultData(commandId, result, message), s.results.resultQueueSize)))
    else s
  }

  /** A handler's new state and the result it reported. */
  datatype Handled = Handled(next: MotorState, result: CommandResult)

  function Reported(s: MotorState, commandId: uint32, result: CommandResult, message: ErrorMessage): Handled {
    Handled(Report(s, commandId, result, message), result)
  }

  /** The state with its result queue emptied: everything a handler changes besides reporting. */
  function WithoutResults(s: MotorState): MotorState {
    s.(results := s.results.(resultQueue := []))
  }

  function SettingsOf(c: MotorConfig): Settings {
    Settings(c.currentSpeedRPM, c.clockwise, MICRO_STEPS, c.runCurrent)
  }

  function AfterSetSpeed(s: MotorState, rpm: real, commandId: uint32): Handled {
    if rpm < MIN_SPEED_RPM || rpm > MAX_SPEED_RPM then
      Reported(s, commandId, InvalidParameter, SpeedOutOfRange)
    else if !s.drive.stepperPresent then
      Reported(s, commandId, HardwareError, StepperNotInitialized)
    else
      Reported(s.(config := s.config.(currentSpeedRPM := rpm), drive := s.drive.(stepRateHz := RpmToStepsPerSecond(rpm))),
               commandId, Success, NoError)
  }

  function AfterSetDirection(s: MotorState, clockwise: bool, commandId: uint32): Handled {
    Reported(s.(config := s.config.(clockwise := clockwise)), commandId, Success, NoError)
  }

  function AfterEnable(s: MotorState, commandId: uint32, now: uint32, moveResult: int): Handled {
    if !s.drive.stepperPresent then
      Reported(s, commandId, HardwareError, StepperNotInitialized)
    else
      AfterStartMotor(s, commandId, now, moveResult)
  }

  /** The part of `enableInternal` past the stepper check: request the run in the current
      direction and report how the request went. */
  function AfterStartMotor(s: MotorState, commandId: uint32, now: uint32, moveResult: int): Handled {
    var request := if s.config.clockwise then RunForward else RunBackward;
    if moveResult != MOVE_OK then
      Reported(s.(drive := s.drive.(motorEnabled := false, driverEnabled := false, lastRequest := request)),
               commandId, HardwareError, MoveFailed(moveResult))
    else
      var started := s.(drive := s.drive.(motorEnabled := true, driverEnabled := true, lastRequest := request));
      if s.odometer.isFirstStart then
        Reported(started.(odometer := s.odometer.(startTime := now, isFirstStart := false)), commandId, Success, NoError)
      else
        Reported(started, commandId, Success, NoError)
  }

  function AfterDisable(s: MotorState, commandId: uint32): Handled {
    var request := if s.drive.stepperPresent then StopMove else s.drive.lastRequest;
    Reported(s.(drive := s.drive.(motorEnabled := false, driverEnabled := false, lastRequest := request)), commandId, Success, NoError)
  }

  function AfterEmergencyStop(s: MotorState, commandId: uint32): Handled {
    var request := if s.drive.stepperPresent then ForceStop else s.drive.lastRequest;
    Reported(s.(drive := s.drive.(motorEnabled := false, driverEnabled := false, lastRequest := request)), commandId, Success, NoError)
  }

  function AfterSetRunCurrent(s: MotorState, current: int32, commandId: uint32, communicating: bool): Handled {
    if current < MIN_RUN_CURRENT || current > MAX_RUN_CURRENT then
      Reported(s, commandId, InvalidParameter, CurrentOutOfRange)
    else
      var applied := s.(config := s.config.(runCurrent := current), drive := s.drive.(tmc2209Initialized := communicating));
      if !communicating then
        Reported(applied, commandId, CommunicationError, DriverNotResponding)
      else
        Reported(applied.(saved := Some(SettingsOf(applied.config))), commandId, Success, NoError)
  }

  function AfterResetCounters(s: MotorState, commandId: uint32, now: uint32): Handled {
    var zeroed := s.drive.positionZeroed || s.drive.stepperPresent;
    Reported(s.(drive := s.drive.(positionZeroed := zeroed), odometer := Odometer(now, 0, false)), commandId, Success, NoError)
  }

  function AfterResetStallCount(s: MotorState, commandId: uint32): Handled {
    Reported(s.(stall := Stall(false, 0, 0)), commandId, Success, NoError)
  }

  /** The stall detector on one reading of the DIAG pin. */
  function NextStall(st: Stall, diagHigh: bool, motorEnabled: bool, running: bool, now: uint32): Stall {
    if diagHigh && motorEnabled && running && !st.stallDetected then
      Stall(true, now, Inc16(st.stallCount))
    else if !diagHigh && st.stallDetected then
      st.(stallDetected := false)
    else
      st
  }

  /** `updateCache()`: refresh the cached position and running flag, then run the stall edge
      detector on the DIAG pin. */
  function AfterUpdateCache(s: MotorState, hw: Hardware): MotorState {
    var position := if s.drive.stepperPresent then hw.position else 0;
    var running := s.drive.stepperPresent && hw.stepperRunning;
    var stall := NextStall(s.stall, hw.diagHigh, s.drive.motorEnabled, running, hw.now);
    s.(stall := stall, cache := Cache(position, running, stall.stallDetected))
  }

  /** The kinds `processCommand` has no case for. */
  predicate Unhandled(k: StepperCommand) {
    k in {SetAcceleration, SetSpeedVariation, SetSpeedVariationPhase, EnableSpeedVariation,
          DisableSpeedVariation, SetStallGuardThreshold, StepperCommand.RequestAllStatus}
  }

  /** `processCommand(cmd)`: dispatch on the kind, reading the union member the handler needs. */
  function AfterProcessCommand(s: MotorState, c: QueuedCommand, hw: Hardware): MotorState {
    var id := c.commandId;
    match c.data.command
    case SetSpeed => AfterSetSpeed(s, ReadFloat(c.data.payload), id).next
    case SetDirection => AfterSetDirection(s, ReadBool(c.data.payload), id).next
    case Enable => AfterEnable(s, id, hw.now, hw.moveResult).next
    case Disable => AfterDisable(s, id).next
    case EmergencyStop => AfterEmergencyStop(s, id).next
    case SetCurrent => AfterSetRunCurrent(s, ReadInt(c.data.payload), id, hw.driverCommunicating).next
    case ResetCounters => AfterResetCounters(s, id, hw.now).next
    case ResetStallCount => AfterResetStallCount(s, id).next
    case _ => s
  }

  /** The outcome of a public enqueue method: its new state and the id it returned. */
  datatype Enqueued = Enqueued(next: MotorState, id: uint32)

  /** The public enqueue methods: with a command queue, the next id is taken (even when the send
      then fails) and the command is offered with that id; the method returns the id on success
      and 0 otherwise. */
  function Enqueue(s: MotorState, data: StepperCommandData): Enqueued {
    var c := s.commands;
    if !c.commandQueueReady then Enqueued(s, 0)
    else if |c.commandQueue| < SystemCommand.COMMAND_QUEUE_SIZE then
      Enqueued(s.(commands := Commands(true, c.commandQueue + [QueuedCommand(data, c.nextCommandId)], Inc32(c.nextCommandId))),
               c.nextCommandId)
    else
      Enqueued(s.(commands := c.(nextCommandId := Inc32(c.nextCommandId))), 0)
  }

  /** `begin()` as far as the model goes: the driver's answer and whether a stepper could be
      attached are inputs; with a stepper, the default acceleration and the current speed are
      applied and the driver is left disabled. */
  datatype Started = Started(next: MotorState, ok: bool)

  function AfterBegin(s: MotorState, stepperConnected: bool, communicating: bool): Started {
    var probed := s.(drive := s.drive.(tmc2209Initialized := communicating, stepperPresent := stepperConnected));
    if !stepperConnected then Started(probed, false)
    else Started(WithStartDefaults(probed), true)
  }

  /** What `begin()` applies once a stepper is attached: the default acceleration, the current
      speed, and a disabled driver. */
  function WithStartDefaults(s: MotorState): MotorState {
    var accelerated := s.(drive := s.drive.(acceleration := CalculateAccelerationForTime(MAX_SPEED_RPM, 10.0)));
    var speedSet := AfterSetSpeed(accelerated, accelerated.config.currentSpeedRPM, 0).next;
    speedSet.(drive := speedSet.drive.(driverEnabled := false))
  }

  /** One pass of the body of `run()`'s loop: take one waiting command, if any, and process it;
      then refresh the cache if it is due and schedule the next refresh. */
  datatype Iteration = Iteration(next: MotorState, nextCacheUpdate: uint32)

  function AfterRunOnce(s: MotorState, hw: Hardware, nextCacheUpdate: uint32, cacheInterval: uint32): Iteration {
    var c := s.commands;
    var processed :=
      if c.commandQueueReady && c.commandQueue != []
      then AfterProcessCommand(s.(commands := c.(commandQueue := c.commandQueue[1..])), c.commandQueue[0], hw)
      else s;
    if IsCacheUpdateDue(nextCacheUpdate, hw.now)
    then Iteration(AfterUpdateCache(processed, hw), Add32(hw.now, cacheInterval))
    else Iteration(processed, nextCacheUpdate)
  }

  // ----- Properties of the handlers -----

  /** Speed changes: an out-of-range value is refused, not clamped; a missing stepper is a
      hardware error; both leave everything but the result queue as it was. An accepted value is
      stored and its step rate applied. */
  lemma SetSpeedOutcome(s: MotorState, rpm: real, id: uint32)
    ensures var h := AfterSetSpeed(s, rpm, id);
      && (rpm < MIN_SPEED_RPM || rpm > MAX_SPEED_RPM ==>
            h.result == InvalidParameter && WithoutResults(h.next) == WithoutResults(s))
      && (MIN_SPEED_RPM <= rpm <= MAX_SPEED_RPM && !s.drive.stepperPresent ==>
            h.result == HardwareError && WithoutResults(h.next) == WithoutResults(s))
      && (h.result == Success <==> MIN_SPEED_RPM <= rpm <= MAX_SPEED_RPM && s.drive.stepperPresent)
      && (h.result == Success ==>
            h.next.config.currentSpeedRPM == rpm && h.next.drive.stepRateHz == RpmToStepsPerSecond(rpm))
      && (h.result != Success ==> h.next.config == s.config)
  {
  }

  /** Run current: an out-of-range value is refused and nothing else changes; an in-range value is
      stored even when the driver then stops answering; settings are saved exactly on success. */
  lemma SetRunCurrentOutcome(s: MotorState, current: int32, id: uint32, communicating: bool)
    ensures var h := AfterSetRunCurrent(s, current, id, communicating);
      && (current < MIN_RUN_CURRENT || current > MAX_RUN_CURRENT ==>
            h.result == InvalidParameter && WithoutResults(h.next) == WithoutResults(s))
      && (MIN_RUN_CURRENT <= current <= MAX_RUN_CURRENT ==> h.next.config.runCurrent == current)
      && (MIN_RUN_CURRENT <= current <= MAX_RUN_CURRENT && !communicating ==> h.result == CommunicationError)
      && (h.result == Success <==> MIN_RUN_CURRENT <= current <= MAX_RUN_CURRENT && communicating)
      && (h.result != Success ==> h.next.saved == s.saved)
      && (h.result == Success ==> h.next.saved == Some(SettingsOf(h.next.config)))
  {
  }

  /** The stall detector: the count rises by exactly one (modulo 2^16), and the flag is raised,
      only on a high DIAG pin while the motor is enabled, running, and not already stalled; the
      flag drops only when DIAG is low; afterwards the cached flag equals the flag. */
  lemma StallEdgeDetector(s: MotorState, hw: Hardware)
    ensures var n := AfterUpdateCache(s, hw);
      var rising := hw.diagHigh && s.drive.motorEnabled && n.cache.cachedIsRunning && !s.stall.stallDetected;
      && n.cache.cachedIsRunning == (s.drive.stepperPresent && hw.stepperRunning)
      && n.stall.stallCount == (if rising then Inc16(s.stall.stallCount) else s.stall.stallCount)
      && n.stall.stallDetected == (rising || (s.stall.stallDetected && hw.diagHigh))
      && (s.stall.stallDetected && !n.stall.stallDetected ==> !hw.diagHigh)
      && (!s.stall.stallDetected && n.stall.stallDetected ==> rising && n.stall.lastStallTime == hw.now)
      && n.cache.cachedStallDetected == n.stall.stallDetected
      && n.drive == s.drive && n.results == s.results && n.commands == s.commands
  {
  }

  /** A steady high DIAG pin counts one stall, not one per update. */
  lemma StallCountedOnce(s: MotorState, hw: Hardware)
    requires hw.diagHigh
    ensures var once := AfterUpdateCache(s, hw);
      AfterUpdateCache(once, hw).stall == once.stall
  {
  }

  /** `resetStallCount` zeroes the count and the flag. */
  lemma ResetStallCountClears(s: MotorState, id: uint32)
    ensures var h := AfterResetStallCount(s, id);
      h.result == Success && h.next.stall.stallCount == 0 && !h.next.stall.stallDetected
      && WithoutResults(h.next).(stall := s.stall) == WithoutResults(s)
  {
  }

  /** Resetting the counters zeroes the stepper's position when there is one, restarts the run-time
      clock at `now` with no steps counted, and touches nothing else but the result queue. */
  lemma ResetCountersRestarts(s: MotorState, id: uint32, now: uint32, elapsed: uint32)
    ensures var h := AfterResetCounters(s, id, now);
      && h.result == Success
      && (s.drive.stepperPresent ==> h.next.drive.positionZeroed)
      && (!s.drive.stepperPresent ==> h.next.drive == s.drive)
      && h.next.odometer.totalSteps == 0 && !h.next.odometer.isFirstStart
      && RunTime(h.next.odometer, Add32(now, elapsed)) == elapsed / 1000
      && WithoutResults(h.next).(drive := s.drive, odometer := s.odometer) == WithoutResults(s)
  {
    SubAdd32(now, elapsed);
  }

  /** Enabling: without a stepper, or when the move is refused, the motor ends disabled; on success
      it ends enabled, and the run-time origin is captured only on the very first start. */
  lemma EnableOutcome(s: MotorState, id: uint32, now: uint32, moveResult: int)
    ensures var h := AfterEnable(s, id, now, moveResult);
      && (!s.drive.stepperPresent ==> h.result == HardwareError && WithoutResults(h.next) == WithoutResults(s))
      && (s.drive.stepperPresent && moveResult != MOVE_OK ==>
            h.result == HardwareError && !h.next.drive.motorEnabled && !h.next.drive.driverEnabled
            && h.next.odometer == s.odometer)
      && (h.result == Success <==> s.drive.stepperPresent && moveResult == MOVE_OK)
      && (h.result == Success ==>
            (h.next.drive.motorEnabled && !h.next.odometer.isFirstStart
             && h.next.odometer.startTime == (if s.odometer.isFirstStart then now else s.odometer.startTime)))
      && (!s.odometer.isFirstStart ==> h.next.odometer == s.odometer)
  {
  }

  /** Disabling and the emergency stop always succeed and leave the motor disabled, so a second
      call changes nothing but the result queue. */
  lemma DisableIdempotent(s: MotorState, id1: uint32, id2: uint32)
    ensures var once := AfterDisable(s, id1);
      var twice := AfterDisable(once.next, id2);
      && once.result == Success && twice.result == Success
      && !once.next.drive.motorEnabled && !once.next.drive.driverEnabled
      && WithoutResults(twice.next) == WithoutResults(once.next)
    ensures var once := AfterEmergencyStop(s, id1);
      var twice := AfterEmergencyStop(once.next, id2);
      && once.result == Success && twice.result == Success
      && !once.next.drive.motorEnabled && !once.next.drive.driverEnabled
      && WithoutResults(twice.next) == WithoutResults(once.next)
  {
  }

  /** Dispatch: the seven kinds without a case change nothing and report nothing; SET_SPEED reads
      the float member, SET_DIRECTION the bool member and SET_CURRENT the int member. */
  lemma ProcessCommandDispatch(s: MotorState, c: QueuedCommand, hw: Hardware)
    ensures Unhandled(c.data.command) ==> AfterProcessCommand(s, c, hw) == s
    ensures c.data.command == SetSpeed ==>
              AfterProcessCommand(s, c, hw) == AfterSetSpeed(s, ReadFloat(c.data.payload), c.commandId).next
    ensures c.data.command == SetDirection ==>
              AfterProcessCommand(s, c, hw) == AfterSetDirection(s, ReadBool(c.data.payload), c.commandId).next
    ensures c.data.command == SetCurrent ==>
              AfterProcessCommand(s, c, hw) == AfterSetRunCurrent(s, ReadInt(c.data.payload), c.commandId, hw.driverCommunicating).next
  {
  }

  /** Every handled command reports exactly one result, in the order processed, unless the result
      queue is full or missing. */
  lemma ProcessCommandReportsOnce(s: MotorState, c: QueuedCommand, hw: Hardware)
    requires !Unhandled(c.data.command)
    requires s.results.resultQueueReady && |s.results.resultQueue| < s.results.resultQueueSize
    ensures var r := AfterProcessCommand(s, c, hw).results.resultQueue;
      |r| == |s.results.resultQueue| + 1 && r[..|s.results.resultQueue|] == s.results.resultQueue
      && r[|s.results.resultQueue|].commandId == c.commandId
  {
  }

  /** Every step keeps the invariant: queues stay within capacity and the speed and current stay
      in range, since handlers refuse values outside it. */
  lemma InvPreserved(s: MotorState, c: QueuedCommand, hw: Hardware, data: StepperCommandData, nextCacheUpdate: uint32, interval: uint32)
    requires Inv(s)
    ensures Inv(AfterProcessCommand(s, c, hw))
    ensures Inv(AfterUpdateCache(s, hw))
    ensures Inv(Enqueue(s, data).next)
    ensures Inv(AfterRunOnce(s, hw, nextCacheUpdate, interval).next)
  {
    var q := s.commands;
    if q.commandQueueReady && q.commandQueue != [] {
      var rest := s.(commands := q.(commandQueue := q.commandQueue[1..]));
      assert Inv(rest);
      InvProcess(rest, q.commandQueue[0], hw);
    }
    InvProcess(s, c, hw);
    assert Inv(AfterUpdateCache(s, hw));
  }

  lemma InvProcess(s: MotorState, c: QueuedCommand, hw: Hardware)
    requires Inv(s)
    ensures Inv(AfterProcessCommand(s, c, hw))
  {
    var id := c.commandId;
    match c.data.command
    case SetSpeed => InvReport(s, AfterSetSpeed(s, ReadFloat(c.data.payload), id));
    case SetDirection => InvReport(s, AfterSetDirection(s, ReadBool(c.data.payload), id));
    case Enable => InvReport(s, AfterEnable(s, id, hw.now, hw.moveResult));
    case Disable => InvReport(s, AfterDisable(s, id));
    case EmergencyStop => InvReport(s, AfterEmergencyStop(s, id));
    case SetCurrent => InvReport(s, AfterSetRunCurrent(s, ReadInt(c.data.payload), id, hw.driverCommunicating));
    case ResetCounters => InvReport(s, AfterResetCounters(s, id, hw.now));
    case ResetStallCount => InvReport(s, AfterResetStallCount(s, id));
    case _ =>
  }

  /** A handler keeps the invariant when it leaves the queues as they were, apart from one report,
      and keeps the speed and current in range. */
  lemma InvReport(s: MotorState, h: Handled)
    requires Inv(s)
    requires h.next.commands == s.commands
    requires h.next.results.resultQueueReady == s.results.resultQueueReady
    requires h.next.results.resultQueueSize == s.results.resultQueueSize
    requires |h.next.results.resultQueue| <= s.results.resultQueueSize
    requires !s.results.resultQueueReady ==> h.next.results.resultQueue == []
    requires MIN_SPEED_RPM <= h.next.config.currentSpeedRPM <= MAX_SPEED_RPM
    requires MIN_RUN_CURRENT <= h.next.config.runCurrent <= MAX_RUN_CURRENT
    ensures Inv(h.next)
  {
  }

  /** Command ids: with a queue, every call takes the next id whether or not the send succeeds,
      and returns it exactly on success; without one, nothing changes and 0 is returned. */
  lemma EnqueueTakesFreshId(s: MotorState, data: StepperCommandData)
    ensures var e := Enqueue(s, data);
      var c := s.commands;
      && (!c.commandQueueReady ==> e == Enqueued(s, 0))
      && (c.commandQueueReady ==> e.next.commands.nextCommandId == Inc32(c.nextCommandId))
      && (c.commandQueueReady && c.nextCommandId < TWO_32 - 1 ==> e.next.commands.nextCommandId == c.nextCommandId + 1)
      && (c.commandQueueReady && |c.commandQueue| < SystemCommand.COMMAND_QUEUE_SIZE ==>
            e.id == c.nextCommandId && e.next.commands.commandQueue == c.commandQueue + [QueuedCommand(data, e.id)])
      && (|c.commandQueue| >= SystemCommand.COMMAND_QUEUE_SIZE ==> e.id == 0 && e.next.commands.commandQueue == c.commandQueue)
      && e.next.(commands := c) == s
  {
  }

  /** Queued ids are positive, below the next id, and increasing from the front to the back. */
  ghost predicate FreshIds(c: Commands) {
    && 0 < c.nextCommandId
    && (forall i :: 0 <= i < |c.commandQueue| ==> 0 < c.commandQueue[i].commandId < c.nextCommandId)
    && (forall i, j :: 0 <= i < j < |c.commandQueue| ==> c.commandQueue[i].commandId < c.commandQueue[j].commandId)
  }

  /** Until the id counter wraps, enqueueing and one loop pass keep the queued ids fresh, so a
      returned id names one queued command and 0 always means failure. */
  lemma FreshIdsPreserved(s: MotorState, data: StepperCommandData, hw: Hardware, nextCacheUpdate: uint32, interval: uint32)
    requires FreshIds(s.commands) && s.commands.nextCommandId < TWO_32 - 1
    ensures FreshIds(Enqueue(s, data).next.commands)
    ensures FreshIds(AfterRunOnce(s, hw, nextCacheUpdate, interval).next.commands)
  {
    var c := s.commands;
    var e := Enqueue(s, data);
    if c.commandQueueReady && |c.commandQueue| < SystemCommand.COMMAND_QUEUE_SIZE {
      var q := e.next.commands.commandQueue;
      assert q == c.commandQueue + [QueuedCommand(data, c.nextCommandId)];
      forall i | 0 <= i < |q| ensures 0 < q[i].commandId < e.next.commands.nextCommandId {
        if i < |c.commandQueue| { assert q[i] == c.commandQueue[i]; }
      }
      forall i, j | 0 <= i < j < |q| ensures q[i].commandId < q[j].commandId {
        assert q[i] == c.commandQueue[i];
        if j < |c.commandQueue| { assert q[j] == c.commandQueue[j]; }
      }
    }
    if c.commandQueueReady && c.commandQueue != [] {
      var rest := s.(commands := c.(commandQueue := c.commandQueue[1..]));
      assert FreshIds(rest.commands);
      ProcessKeepsCommands(rest, c.commandQueue[0], hw);
    }
  }

  /** Processing a command and refreshing the cache never touch the command queue or the id
      counter. */
  lemma ProcessKeepsCommands(s: MotorState, c: QueuedCommand, hw: Hardware)
    ensures AfterProcessCommand(s, c, hw).commands == s.commands
    ensures AfterUpdateCache(AfterProcessCommand(s, c, hw), hw).commands == s.commands
  {
  }

  // ----- The controller object -----

  class StepperController {
    var stepperPresent: bool
    var currentSpeedRPM: real
    var runCurrent: int32
    var motorEnabled: bool
    var clockwise: bool
    var startTime: uint32
    var totalSteps: uint32
    var isFirstStart: bool
    var tmc2209Initialized: bool
    var stallDetected: bool
    var lastStallTime: uint32
    var stallCount: uint16
    var cachedCurrentPosition: int32
    var cachedIsRunning: bool
    var cachedStallDetected: bool
    var nextCommandId: uint32
    var stepRateHz: uint32
    var acceleration: uint32
    var driverEnabled: bool
    var lastRequest: StepperRequest
    var positionZeroed: bool
    var saved: Option<Settings>
    var commandQueueReady: bool
    var commandQueue: seq<QueuedCommand>
    var resultQueueReady: bool
    const resultQueueSize: nat
    var resultQueue: seq<CommandResultData>

    function State(): MotorState
      reads this
    {
      MotorState(
        MotorConfig(currentSpeedRPM, clockwise, runCurrent),
        Drive(stepperPresent, tmc2209Initialized, motorEnabled, stepRateHz, acceleration, driverEnabled, lastRequest, positionZeroed),
        Odometer(startTime, totalSteps, isFirstStart),
        Stall(stallDetected, lastStallTime, stallCount),
        Cache(cachedCurrentPosition, cachedIsRunning, cachedStallDetected),
        saved,
        Commands(commandQueueReady, commandQueue, nextCommandId),
        Results(resultQueueReady, resultQueueSize, resultQueue))
    }

    ghost predicate Valid()
      reads this
    {
      Inv(State())
    }

    /** The constructor: default settings, no stepper yet, and both queues created when
        `xQueueCreate` succeeds. */
    constructor (commandQueueCreated: bool, resultQueueCreated: bool, resultQueueSize: nat)
      ensures Valid()
      ensures State() == Initial(commandQueueCreated, resultQueueCreated, resultQueueSize)
    {
      stepperPresent := false;
      currentSpeedRPM, runCurrent := DEFAULT_SPEED_RPM, DEFAULT_RUN_CURRENT;
      motorEnabled, clockwise := false, true;
      startTime, totalSteps, isFirstStart := 0, 0, true;
      tmc2209Initialized := false;
      stallDetected, lastStallTime, stallCount := false, 0, 0;
      cachedCurrentPosition, cachedIsRunning, cachedStallDetected := 0, false, false;
      nextCommandId := 1;
      stepRateHz, acceleration, driverEnabled, lastRequest := 0, 0, false, NoRequest;
      positionZeroed := false;
      saved := None;
      commandQueueReady, commandQueue := commandQueueCreated, [];
      resultQueueReady, this.resultQueueSize, resultQueue := resultQueueCreated, resultQueueSize, [];
    }

    method Begin(stepperConnected: bool, communicating: bool) returns (ok: bool)
      requires Valid()
      modifies this
      ensures Valid()
      ensures State() == AfterBegin(old(State()), stepperConnected, communicating).next
      ensures ok == AfterBegin(old(State()), stepperConnected, communicating).ok
    {
      tmc2209Initialized := communicating;
      stepperPresent := stepperConnected;
      if !stepperPresent {
        return false;
      }
      ApplyStartDefaults();
      return true;
    }

    method ApplyStartDefaults()
      requires Valid()
      modifies this
      ensures Valid()
      ensures State() == WithStartDefaults(old(State()))
    {
      acceleration := CalculateAccelerationForTime(MAX_SPEED_RPM, 10.0);
      SetSpeedInternal(currentSpeedRPM, 0);
      driverEnabled := false;
    }

    method ReportResult(commandId: uint32, result: CommandResult, message: ErrorMessage)
      requires Valid()
      modifies this
      ensures Valid()
      ensures State() == Report(old(State()), commandId, result, message)
    {
      if !resultQueueReady {
        return;
      }
      resultQueue := Fifo.Push(resultQueue, CommandResultData(commandId, result, message), resultQueueSize);
    }

    /** `getCommandResult(out)`: a non-blocking pop of the oldest report. */
    method GetCommandResult() returns (r: Option<CommandResultData>)
      requires Valid()
      modifies this
      ensures Valid()
      ensures old(resultQueue) == [] ==> r == None && State() == old(State())
      ensures old(resultQueue) != [] ==>
                r == Some(old(resultQueue)[0]) && State() == old(State()).(results := old(State()).results.(resultQueue := old(resultQueue)[1..]))
    {
      if !resultQueueReady || resultQueue == [] {
        return None;
      }
      r := Some(resultQueue[0]);
      resultQueue := resultQueue[1..];
    }

    method SetSpeedInternal(rpm: real, commandId: uint32)
      requires Valid()
      modifies this
      ensures Valid()
      ensures State() == AfterSetSpeed(old(State()), rpm, commandId).next
    {
      if rpm < MIN_SPEED_RPM || rpm > MAX_SPEED_RPM {
        ReportResult(commandId, InvalidParameter, SpeedOutOfRange);
        return;
      }
      if !stepperPresent {
        ReportResult(commandId, HardwareError, StepperNotInitialized);
        return;
      }
      currentSpeedRPM := rpm;
      var stepsPerSecond := RpmToStepsPerSecond(rpm);
      stepRateHz := stepsPerSecond;
      ReportResult(commandId, Success, NoError);
    }

    method SetDirectionInternal(clockwise: bool, commandId: uint32)
      requires Valid()
      modifies this
      ensures Valid()
      ensures State() == AfterSetDirection(old(State()), clockwise, commandId).next
    {
      this.clockwise := clockwise;
      ReportResult(commandId, Success, NoError);
    }

    method EnableInternal(commandId: uint32, now: uint32, moveResult: int)
      requires Valid()
      modifies this
      ensures Valid()
      ensures State() == AfterEnable(old(State()), commandId, now, moveResult).next
    {
      if !stepperPresent {
        ReportResult(commandId, HardwareError, StepperNotInitialized);
        return;
      }
      StartMotor(commandId, now, moveResult);
    }

    method StartMotor(commandId: uint32, now: uint32, moveResult: int)
      requires Valid()
      modifies this
      ensures Valid()
      ensures State() == AfterStartMotor(old(State()), commandId, now, moveResult).next
    {
      motorEnabled := true;
      driverEnabled := true;
      lastRequest := if clockwise then RunForward else RunBackward;
      if moveResult != MOVE_OK {
        AbandonStart(commandId, moveResult);
        return;
      }
      MarkFirstStart(now);
      ReportResult(commandId, Success, NoError);
    }

    /** A refused run request switches the motor and the driver off again and reports the code. */
    method AbandonStart(commandId: uint32, moveResult: int)
      requires Valid()
      modifies this
      ensures Valid()
      ensures State() == Report(old(State()).(drive := old(State()).drive.(motorEnabled := false, driverEnabled := false)),
                                commandId, HardwareError, MoveFailed(moveResult))
    {
      motorEnabled := false;
      driverEnabled := false;
      ReportResult(commandId, HardwareError, MoveFailed(moveResult));
    }

    /** The run-time origin is taken at the first successful start only. */
    method MarkFirstStart(now: uint32)
      requires Valid()
      modifies this
      ensures Valid()
      ensures State() == if old(isFirstStart)
                         then old(State()).(odometer := old(State()).odometer.(startTime := now, isFirstStart := false))
                         else old(State())
    {
      if isFirstStart {
        startTime := now;
        isFirstStart := false;
      }
    }

    method DisableInternal(commandId: uint32)
      requires Valid()
      modifies this
      ensures Valid()
      ensures State() == AfterDisable(old(State()), commandId).next
    {
      motorEnabled := false;
      if stepperPresent {
        lastRequest := StopMove;
      }
      driverEnabled := false;
      ReportResult(commandId, Success, NoError);
    }

    method EmergencyStopInternal(commandId: uint32)
      requires Valid()
      modifies this
      ensures Valid()
      ensures State() == AfterEmergencyStop(old(State()), commandId).next
    {
      motorEnabled := false;
      if stepperPresent {
        lastRequest := ForceStop;
      }
      driverEnabled := false;
      ReportResult(commandId, Success, NoError);
    }

    /** `saveSettings()`: the speed, direction, micro-steps and current go to flash. */
    method SaveSettings()
      requires Valid()
      modifies this
      ensures Valid()
      ensures State() == old(State()).(saved := Some(SettingsOf(old(State()).config)))
    {
      saved := Some(Settings(currentSpeedRPM, clockwise, MICRO_STEPS, runCurrent));
    }

    method SetRunCurrentInternal(current: int32, commandId: uint32, communicating: bool)
      requires Valid()
      modifies this
      ensures Valid()
      ensures State() == AfterSetRunCurrent(old(State()), current, commandId, communicating).next
    {
      if current < MIN_RUN_CURRENT || current > MAX_RUN_CURRENT {
        ReportResult(commandId, InvalidParameter, CurrentOutOfRange);
        return;
      }
      runCurrent := current;
      tmc2209Initialized := communicating;
      if !tmc2209Initialized {
        ReportResult(commandId, CommunicationError, DriverNotResponding);
        return;
      }
      SaveSettings();
      ReportResult(commandId, Success, NoError);
    }

    method ResetCountersInternal(commandId: uint32, now: uint32)
      requires Valid()
      modifies this
      ensures Valid()
      ensures State() == AfterResetCounters(old(State()), commandId, now).next
    {
      if stepperPresent {
        positionZeroed := true;
      }
      totalSteps := 0;
      startTime := now;
      isFirstStart := false;
      ReportResult(commandId, Success, NoError);
    }

    method ResetStallCountInternal(commandId: uint32)
      requires Valid()
      modifies this
      ensures Valid()
      ensures State() == AfterResetStallCount(old(State()), commandId).next
    {
      stallCount := 0;
      stallDetected := false;
      lastStallTime := 0;
      ReportResult(commandId, Success, NoError);
    }

    method UpdateCache(hw: Hardware)
      requires Valid()
      modifies this
      ensures Valid()
      ensures State() == AfterUpdateCache(old(State()), hw)
    {
      CacheDriverState(hw.position, hw.stepperRunning);
      DetectStall(hw.diagHigh, hw.now);
      cachedStallDetected := stallDetected;
    }

    /** The position and running flag are read from the driver only when a stepper is attached. */
    method CacheDriverState(position: int32, running: bool)
      requires Valid()
      modifies this
      ensures Valid()
      ensures State() == old(State()).(cache := old(State()).cache.(
                cachedCurrentPosition := if stepperPresent then position else 0,
                cachedIsRunning := stepperPresent && running))
    {
      if stepperPresent {
        cachedCurrentPosition := position;
        cachedIsRunning := running;
      } else {
        cachedCurrentPosition := 0;
        cachedIsRunning := false;
      }
    }

    /** The edge detector on the DIAG pin, run on the freshly cached running flag. */
    method DetectStall(diagHigh: bool, now: uint32)
      requires Valid()
      modifies this
      ensures Valid()
      ensures State() == old(State()).(stall := NextStall(old(State()).stall, diagHigh, motorEnabled, cachedIsRunning, now))
    {
      if diagHigh && motorEnabled && cachedIsRunning && !stallDetected {
        stallDetected := true;
        lastStallTime := now;
        stallCount := Inc16(stallCount);
      } else if !diagHigh && stallDetected {
        stallDetected := false;
      }
    }

    method ProcessCommand(c: QueuedCommand, hw: Hardware)
      requires Valid()
      modifies this
      ensures Valid()
      ensures State() == AfterProcessCommand(old(State()), c, hw)
    {
      match c.data.command {
        case SetSpeed => SetSpeedInternal(ReadFloat(c.data.payload), c.commandId);
        case SetDirection => SetDirectionInternal(ReadBool(c.data.payload), c.commandId);
        case Enable => EnableInternal(c.commandId, hw.now, hw.moveResult);
        case Disable => DisableInternal(c.commandId);
        case EmergencyStop => EmergencyStopInternal(c.commandId);
        case SetCurrent => SetRunCurrentInternal(ReadInt(c.data.payload), c.commandId, hw.driverCommunicating);
        case ResetCounters => ResetCountersInternal(c.commandId, hw.now);
        case ResetStallCount => ResetStallCountInternal(c.commandId);
        case _ =>
      }
    }

    method RunOnce(hw: Hardware, nextCacheUpdate: uint32, cacheInterval: uint32) returns (next: uint32)
      requires Valid()
      modifies this
      ensures Valid()
      ensures State() == AfterRunOnce(old(State()), hw, nextCacheUpdate, cacheInterval).next
      ensures next == AfterRunOnce(old(State()), hw, nextCacheUpdate, cacheInterval).nextCacheUpdate
    {
      if commandQueueReady && commandQueue != [] {
        var c := commandQueue[0];
        commandQueue := commandQueue[1..];
        ProcessCommand(c, hw);
      }
      if IsCacheUpdateDue(nextCacheUpdate, hw.now) {
        UpdateCache(hw);
        next := Add32(hw.now, cacheInterval);
      } else {
        next := nextCacheUpdate;
      }
    }

    /** Shared body of the public enqueue methods. */
    method EnqueueCommand(data: StepperCommandData) returns (id: uint32)
      requires Valid()
      modifies this
      ensures Valid()
      ensures State() == Enqueue(old(State()), data).next && id == Enqueue(old(State()), data).id
    {
      if !commandQueueReady {
        return 0;
      }
      var commandId := nextCommandId;
      nextCommandId := Inc32(nextCommandId);
      if |commandQueue| < SystemCommand.COMMAND_QUEUE_SIZE {
        commandQueue := commandQueue + [QueuedCommand(data, commandId)];
        return commandId;
      }
      return 0;
    }

    /** The outcome of a public enqueue method that sends `data`. */
    twostate predicate EnqueuedAs(data: StepperCommandData, id: uint32)
      reads this
    {
      State() == Enqueue(old(State()), data).next && id == Enqueue(old(State()), data).id
    }

    method SetSpeed(rpm: real) returns (id: uint32)
      requires Valid()
      modifies this
      ensures Valid() && EnqueuedAs(StepperCommandWithFloat(StepperCommand.SetSpeed, rpm), id)
    {
      id := EnqueueCommand(StepperCommandWithFloat(StepperCommand.SetSpeed, rpm));
    }

    method SetDirection(clockwise: bool) returns (id: uint32)
      requires Valid()
      modifies this
      ensures Valid() && EnqueuedAs(StepperCommandWithBool(StepperCommand.SetDirection, clockwise), id)
    {
      id := EnqueueCommand(StepperCommandWithBool(StepperCommand.SetDirection, clockwise));
    }

    method Enable() returns (id: uint32)
      requires Valid()
      modifies this
      ensures Valid() && EnqueuedAs(StepperCommandOf(StepperCommand.Enable), id)
    {
      id := EnqueueCommand(StepperCommandOf(StepperCommand.Enable));
    }

    method Disable() returns (id: uint32)
      requires Valid()
      modifies this
      ensures Valid() && EnqueuedAs(StepperCommandOf(StepperCommand.Disable), id)
    {
      id := EnqueueCommand(StepperCommandOf(StepperCommand.Disable));
    }

    /** Sent without waiting; in a single-threaded model that is the same as the others' 10 ms. */
    method EmergencyStop() returns (id: uint32)
      requires Valid()
      modifies this
      ensures Valid() && EnqueuedAs(StepperCommandOf(StepperCommand.EmergencyStop), id)
    {
      id := EnqueueCommand(StepperCommandOf(StepperCommand.EmergencyStop));
    }

    method SetRunCurrent(current: int32) returns (id: uint32)
      requires Valid()
      modifies this
      ensures Valid() && EnqueuedAs(StepperCommandWithInt(StepperCommand.SetCurrent, current), id)
    {
      id := EnqueueCommand(StepperCommandWithInt(StepperCommand.SetCurrent, current));
    }

    method ResetCounters() returns (id: uint32)
      requires Valid()
      modifies this
      ensures Valid() && EnqueuedAs(StepperCommandOf(StepperCommand.ResetCounters), id)
    {
      id := EnqueueCommand(StepperCommandOf(StepperCommand.ResetCounters));
    }

    method ResetStallCount() returns (id: uint32)
      requires Valid()
      modifies this
      ensures Valid() && EnqueuedAs(StepperCommandOf(StepperCommand.ResetStallCount), id)
    {
      id := EnqueueCommand(StepperCommandOf(StepperCommand.ResetStallCount));
    }

    /** `setAccelerationForTime(rpm, t)`: applies the computed acceleration when a stepper is
        attached. */
    method SetAccelerationForTime(targetRPM: real, timeSeconds: real)
      requires Valid()
      requires 0.0 <= targetRPM && targetRPM * (TOTAL_MICRO_STEPS_PER_REVOLUTION as real) < 60.0 * (TWO_32 as real)
      requires timeSeconds > 0.0
      requires (RpmToStepsPerSecond(targetRPM) as real) / timeSeconds < TWO_32 as real
      modifies this
      ensures Valid()
      ensures State() == if old(stepperPresent)
                         then old(State()).(drive := old(State()).drive.(acceleration := CalculateAccelerationForTime(targetRPM, timeSeconds)))
                         else old(State())
    {
      if !stepperPresent {
        return;
      }
      acceleration := CalculateAccelerationForTime(targetRPM, timeSeconds);
    }

    function GetRunTime(now: uint32): (seconds: nat)
      reads this
      ensures seconds == RunTime(State().odometer, now)
      ensures isFirstStart ==> seconds == 0
    {
      if isFirstStart then 0 else Sub32(now, startTime) / 1000
    }

    function GetTotalRevolutions(): (r: real)
      reads this
      ensures r >= 0.0 && r == TotalRevolutions(cachedCurrentPosition)
      ensures cachedCurrentPosition != -TWO_31 ==> r == TotalRevolutionsAsWritten(cachedCurrentPosition)
    {
      TotalRevolutions(cachedCurrentPosition)
    }
  }
}
