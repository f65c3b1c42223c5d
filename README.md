# BratenDreher motor and power-delivery core, in Dafny

BratenDreher is a rotisserie controller for an ESP32. A stepper motor turns the spit through a
TMC2209 driver, and a CH224K chip negotiates a USB-C power-delivery (PD) voltage. Tasks talk
through two bounded message channels:

- **SystemCommand** carries motor commands (20 slots) and power-delivery commands;
- **SystemStatus** carries warnings and errors (10 slots) and typed status updates (30 slots).

This project models four parts of the code:

- the message records (`CommandTypes.h`, `StatusTypes.h`);
- the two channels (`SystemCommand.cpp`, `SystemStatus.cpp`);
- the motor task's command handling (`StepperController.cpp`);
- the power-delivery negotiation state machine (`PowerDeliveryTask.cpp`).

It proves what those components promise.

## How the model is built

- **Layout.** Each source file is its own module:
  - `commandtypes.dfy`, `statustypes.dfy`: the records;
  - `systemcommand.dfy`, `systemstatus.dfy`: the channels;
  - `steppercontroller.dfy`: the motor task;
  - `powerdelivery.dfy`: the power-delivery task.

  Small shared modules hold the rest:
  - `FixedWidth`: 32-bit and 16-bit wrap-around arithmetic;
  - `Fifo`: a bounded queue that drops what does not fit, as a zero-wait `xQueueSend` does;
  - `Wrappers`: `Option`.
- **Objects with fields.** Each object whose fields the source updates in place is a `class`:
  the channels, the controller and the PD task. Each method states its new state as a function
  of the old one. The controller and the PD task expose a `State()` snapshot. Each method
  ensures `State() == After…(old(State()), …)`, where `After…` is a pure step function, and the
  properties are proved as lemmas about those functions.
- **What the PD task publishes.** `Emitted` ties the status queues to `SystemStatus.Published` /
  `SystemStatus.Notified` applied to their old contents.
- **Hardware calls** are recorded as fields:
  - the step rate last set;
  - the acceleration last set;
  - whether the driver was enabled;
  - the last motion request;
  - whether the position was reset to 0;
  - the CFG pin levels;
  - the settings last saved.
- **Hardware readings** are parameters:
  - `millis()`;
  - the stepper position and running flag;
  - the DIAG and PG pins;
  - FastAccelStepper's move result code;
  - the driver's `isSetupAndCommunicating()` answer;
  - the measured bus voltage;
  - the target voltage stored in flash;
  - whether each `xQueueCreate` succeeded.
- **C unions.** Each union is a datatype that records which member was written. Reading another
  member yields 0, false or 0.0.
- **Error texts.** The handlers' error texts are the `ErrorMessage` datatype, and `Text` spells
  each one out.
- **Forever-loops.** Each `while (true)` loop is modelled as one pass, `RunOnce`. A pass reads
  the clock once.

### Where the code and its description differ (the model follows the code, except for the Findings row)

- `setSpeedInternal` refuses an out-of-range speed with INVALID_PARAMETER. It does not clamp it.
- `startNegotiation` accepts any voltage from 5 V to 20 V, not only the five PD voltages.
  `configureVoltage` then drives the 12 V pattern for an unsupported value such as 7 V.
- A negotiation that runs 2000 ms without power good moves to TIMEOUT, not to FAILED.
  FAILED is entered only when power is lost after SUCCESS.
- The comment in `begin()` promises 3200 steps/s² as the default acceleration. The computation
  gives 1600 (`StepperController.DefaultAcceleration`).
- `isCacheUpdateDue` handles a clock that wrapped after the schedule was computed. It does not
  handle a schedule `millis() + interval` that itself wrapped: that update is due at once, on
  every pass until the clock wraps too (`StepperController.ScheduleEarlyAcrossWrap`).
- SET_TARGET_VOLTAGE stores and saves the requested voltage even when `startNegotiation`
  refuses it. A later power-good edge during a running negotiation then reports that refused
  value as the negotiated voltage (`PowerDeliveryTask.RefusedTargetCanBeReported`).

## Model

| member | source | states |
|---|---|---|
| CommandTypes.DefaultStepperCommand | lib/SystemCommand/CommandTypes.h:41-43 | the default motor command is ENABLE, and every union member reads as zero |
| CommandTypes.StepperCommandOf | lib/SystemCommand/CommandTypes.h:44-46 | the kind-only constructor keeps the kind and leaves a union that reads as zero |
| CommandTypes.StepperCommandWithFloat | lib/SystemCommand/CommandTypes.h:47-49 | the value written as a float reads back as that float |
| CommandTypes.StepperCommandWithBool | lib/SystemCommand/CommandTypes.h:50-52 | the value written as a bool reads back as that bool |
| CommandTypes.StepperCommandWithInt | lib/SystemCommand/CommandTypes.h:53-55 | the value written as an int reads back as that int |
| CommandTypes.StepperCommandWithUint32 | lib/SystemCommand/CommandTypes.h:56-58 | the value written as a uint32 reads back as that uint32 |
| CommandTypes.DefaultPowerDeliveryCommand | lib/SystemCommand/CommandTypes.h:70-72 | the default PD command is REQUEST_ALL_STATUS with a zero union |
| CommandTypes.PowerDeliveryCommandOf | lib/SystemCommand/CommandTypes.h:73-75 | the kind-only PD constructor keeps the kind, union zero |
| CommandTypes.PowerDeliveryCommandWithFloat | lib/SystemCommand/CommandTypes.h:76-78 | the float value reads back |
| CommandTypes.PowerDeliveryCommandWithBool | lib/SystemCommand/CommandTypes.h:79-81 | the bool value reads back |
| CommandTypes.PowerDeliveryCommandWithInt | lib/SystemCommand/CommandTypes.h:82-84 | the int value (the target voltage) reads back |
| StatusTypes.CString | lib/SystemStatus/StatusTypes.h:49 | the text a char buffer holds is a NUL-free prefix of it, ended by a NUL or by the buffer's end |
| StatusTypes.CStringAt | lib/SystemStatus/StatusTypes.h:53-54 | a text with its first NUL at position n holds exactly its first n characters |
| StatusTypes.CStringPrefix | lib/SystemStatus/StatusTypes.h:53-54 | with no NUL before position n, the text holds at least its first n characters |
| StatusTypes.Take | lib/SystemStatus/StatusTypes.h:53 | a copy bounded by n characters is a prefix of the length min(length, n) |
| StatusTypes.CStringTake | lib/SystemStatus/StatusTypes.h:53-54 | bounding a buffer and then reading its text is reading its text and then bounding it |
| StatusTypes.StoredText | lib/SystemStatus/StatusTypes.h:51-58 | a null message stores nothing; any other stores exactly the first min(length, 127) characters of its C string, NUL-free |
| StatusTypes.SetMessage | lib/SystemStatus/StatusTypes.h:51-58 | setMessage keeps the severity and stores the first min(length, 127) characters of the C string; null empties the text |
| StatusTypes.WriteMessage | lib/SystemStatus/StatusTypes.h:51-58 | the strncpy into the 128-byte array leaves exactly the stored text readable, NUL-padded to the end; a null message writes only the leading NUL |
| StatusTypes.DefaultRecords | lib/SystemStatus/StatusTypes.h:50-89 | the default notification is an empty WARNING, the default status update is SPEED_UPDATE 0.0, and a null message empties any notification |
| FixedWidth.Sub32 | lib/PowerDeliveryTask/PowerDeliveryTask.cpp:197 | unsigned subtraction of elapsed time is the true difference, or 2^32 minus the deficit across a wrap |
| FixedWidth.Add32 | lib/StepperController/StepperController.cpp:207 | unsigned scheduling addition wraps at 2^32 |
| FixedWidth.Inc16 | lib/StepperController/StepperController.cpp:260 | the 16-bit stall counter increments, wrapping to 0 |
| FixedWidth.Inc32 | lib/StepperController/StepperController.cpp:505 | the 32-bit command-id counter increments, wrapping to 0 |
| FixedWidth.SubAdd32 | lib/StepperController/StepperController.cpp:207 | elapsed time since a start recovers the interval added to it, whatever wraps |
| Fifo.OfferKeepsPrefix | lib/SystemStatus/SystemStatus.cpp:92-98 | zero-wait sends keep the queue, append the longest prefix of the new items that fits, and never exceed capacity |
| Fifo.OfferWithRoom | lib/SystemStatus/SystemStatus.cpp:92-98 | with room for all of them, zero-wait sends append every item in order |
| Fifo.OfferConcat | lib/SystemStatus/SystemStatus.cpp:92-98 | sending two batches in turn is sending their concatenation |
| Fifo.OfferOne | lib/SystemStatus/SystemStatus.cpp:97 | one send is one bounded push |
| SystemStatus.NotificationFor | lib/SystemStatus/SystemStatus.cpp:44-62 | the record holds the severity and exactly the first min(length, 127) characters of the message's C string, all of it when short and NUL-free; it agrees with setMessage on a default record |
| SystemStatus.PublishedConcat | lib/SystemStatus/SystemStatus.cpp:92-126 | publishing updates in two batches equals publishing them at once |
| SystemStatus.NotifiedConcat | lib/SystemStatus/SystemStatus.cpp:44-65 | sending notifications in two batches equals sending them at once |
| SystemStatus.PublishedBounded | lib/SystemStatus/SystemStatus.cpp:92-126 | the status queue never exceeds 30 entries, and updates that fit are appended in order |
| SystemStatus.NotifiedBounded | lib/SystemStatus/SystemStatus.cpp:44-65 | the notification queue never exceeds 10 entries |
| SystemStatus.SystemStatus.constructor | lib/SystemStatus/SystemStatus.cpp:9-10 | both queue handles start null, both queues empty |
| SystemStatus.SystemStatus.Begin | lib/SystemStatus/SystemStatus.cpp:23-41 | success exactly when both queues are created; when the second creation fails the first queue is released again |
| SystemStatus.SystemStatus.SendNotification | lib/SystemStatus/SystemStatus.cpp:44-65 | without a queue nothing happens; otherwise the bounded record is appended when there is room and dropped when full; status updates untouched |
| SystemStatus.SystemStatus.GetNotification | lib/SystemStatus/SystemStatus.cpp:67-71 | returns and removes the oldest notification, or nothing when none waits |
| SystemStatus.SystemStatus.PendingNotificationCount | lib/SystemStatus/SystemStatus.cpp:79-83 | the number of queued notifications, 0 without a queue, never above 10 |
| SystemStatus.SystemStatus.HasNotifications | lib/SystemStatus/SystemStatus.cpp:73-77 | true exactly when the pending count is positive |
| SystemStatus.SystemStatus.ClearNotifications | lib/SystemStatus/SystemStatus.cpp:85-89 | empties the notification queue and nothing else |
| SystemStatus.SystemStatus.PublishStatusUpdate | lib/SystemStatus/SystemStatus.cpp:92-126 | without a queue nothing happens; otherwise the typed update is appended when there is room and dropped when full; notifications untouched |
| SystemStatus.SystemStatus.GetStatusUpdate | lib/SystemStatus/SystemStatus.cpp:128-132 | returns and removes the oldest status update, or nothing |
| SystemStatus.SystemStatus.PendingStatusUpdateCount | lib/SystemStatus/SystemStatus.cpp:140-144 | the number of queued status updates, 0 without a queue, never above 30 |
| SystemStatus.SystemStatus.HasStatusUpdates | lib/SystemStatus/SystemStatus.cpp:134-138 | true exactly when the pending count is positive |
| SystemStatus.SystemStatus.ClearStatusUpdates | lib/SystemStatus/SystemStatus.cpp:146-150 | empties the status queue and nothing else |
| SystemCommand.SystemCommand.constructor | lib/SystemCommand/SystemCommand.cpp:9-10 | the command queue handle starts null and empty |
| SystemCommand.SystemCommand.Begin | lib/SystemCommand/SystemCommand.cpp:19-28 | success exactly when the queue is created; a fresh queue is empty |
| SystemCommand.SystemCommand.SendCommand | lib/SystemCommand/SystemCommand.cpp:31-49 | succeeds exactly when the queue exists and has room, and then the command is the new back of the queue; otherwise nothing changes |
| SystemCommand.SystemCommand.SendCommandKind | lib/SystemCommand/SystemCommand.cpp:51-54 | sends the kind with a zero union, with the same outcome rule |
| SystemCommand.SystemCommand.SendCommandFloat | lib/SystemCommand/SystemCommand.cpp:56-59 | sends the kind with the float value |
| SystemCommand.SystemCommand.SendCommandBool | lib/SystemCommand/SystemCommand.cpp:61-64 | sends the kind with the bool value |
| SystemCommand.SystemCommand.SendCommandInt | lib/SystemCommand/SystemCommand.cpp:66-69 | sends the kind with the int value |
| SystemCommand.SystemCommand.SendCommandUint32 | lib/SystemCommand/SystemCommand.cpp:71-74 | sends the kind with the uint32 value |
| SystemCommand.SystemCommand.EmergencyStop | lib/SystemCommand/SystemCommand.cpp:76-82 | EMERGENCY_STOP goes to the back of the same queue and is refused by a full queue like any other command |
| SystemCommand.SystemCommand.GetCommand | lib/SystemCommand/SystemCommand.cpp:84-98 | returns and removes the oldest command, or nothing when none waits or there is no queue |
| SystemCommand.SystemCommand.PendingCommandCount | lib/SystemCommand/SystemCommand.cpp:106-110 | the number of queued motor commands, 0 without a queue, never above 20 |
| SystemCommand.SystemCommand.HasCommands | lib/SystemCommand/SystemCommand.cpp:100-104 | true exactly when the pending count is positive |
| SystemCommand.SystemCommand.ClearCommands | lib/SystemCommand/SystemCommand.cpp:112-116 | empties the motor command queue and nothing else |
| SystemCommand.SystemCommand.SendPowerDeliveryCommand | lib/PowerDeliveryTask/PowerDeliveryTask.cpp:222 | a PD command is accepted exactly when its queue has room, and then is its new back |
| SystemCommand.SystemCommand.GetPowerDeliveryCommand | lib/PowerDeliveryTask/PowerDeliveryTask.cpp:222 | the zero-wait receive returns and removes the oldest PD command, or nothing |
| StepperController.Text | lib/StepperController/StepperController.cpp:332-443 | every error has a non-empty text and SUCCESS reports have none |
| StepperController.DecimalString | lib/StepperController/StepperController.cpp:383 | the printed result code is never empty |
| StepperController.Initial | lib/StepperController/StepperController.cpp:3-22 | the constructed controller satisfies the invariant, has no stepper, is disabled, awaits its first start, hands out id 1 first, and starts with empty queues |
| StepperController.RpmToStepsPerSecond | lib/StepperController/StepperController.cpp:156-162 | the step rate is the exact micro-step rate of the shaft speed, truncated toward zero |
| StepperController.RpmToStepsPerSecondMonotone | lib/StepperController/StepperController.cpp:156-162 | a faster shaft never gets a lower step rate |
| StepperController.RpmToStepsPerSecondRange | lib/StepperController/StepperController.cpp:156-162 | the speed range 0.1–30 RPM maps to 53–16000 steps/s |
| StepperController.CalculateAccelerationForTime | lib/StepperController/StepperController.cpp:618-631 | the acceleration is the step rate of the target divided by the time, truncated toward zero |
| StepperController.DefaultAcceleration | lib/StepperController/StepperController.cpp:88-91 | the default acceleration is 1600 steps/s², not the 3200 its comment states |
| StepperController.CAbs32 | lib/StepperController/StepperController.cpp:166 | C `abs` on 32-bit int: the magnitude, except INT_MIN, which stays INT_MIN |
| StepperController.TotalRevolutionsAsWrittenNegative | lib/StepperController/StepperController.cpp:164-168 | at position INT_MIN the odometer as written is negative |
| StepperController.TotalRevolutions | lib/StepperController/StepperController.cpp:164-168 | the odometer is never negative and equals the distance from 0 in output revolutions; it agrees with the code everywhere but INT_MIN |
| StepperController.MsToTicksMonotone | lib/StepperController/StepperController.cpp:228 | a longer wait never converts to fewer ticks |
| StepperController.CalculateQueueTimeout | lib/StepperController/StepperController.cpp:213-229 | no wait once the update is overdue; never more than 100 ms; at 1 kHz exactly min(time left, 100) |
| StepperController.CacheUpdateDueWrapAware | lib/StepperController/StepperController.cpp:231-240 | an update due up to 2^31 ms ago is never missed, and one not due lies at most 2^31 ms ahead |
| StepperController.ScheduleAcrossWrap | lib/StepperController/StepperController.cpp:205-208 | an update scheduled at now + interval is due by interval ms later, even across the clock's wrap |
| StepperController.ScheduleEarlyAcrossWrap | lib/StepperController/StepperController.cpp:205-208 | without a wrap the update is never due before now + interval; when now + interval wraps and the clock has not, it is due at once and on every pass until the clock wraps |
| StepperController.RunTime | lib/StepperController/StepperController.cpp:170-173 | 0 before the first start; otherwise the whole seconds of the wrap-aware elapsed time |
| StepperController.IsRunning | lib/StepperController/StepperController.cpp:175-178 | a motor reported running is enabled, and an enabled motor reports the cached running flag |
| StepperController.SetSpeedOutcome | lib/StepperController/StepperController.cpp:329-350 | out of range: INVALID_PARAMETER, nothing else changes; no stepper: HARDWARE_ERROR; success exactly otherwise, storing the speed and applying its step rate |
| StepperController.SetRunCurrentOutcome | lib/StepperController/StepperController.cpp:424-451 | out of range: INVALID_PARAMETER, nothing changes; an in-range value is stored even when the driver then stops answering (COMMUNICATION_ERROR); settings are saved exactly on success |
| StepperController.StallEdgeDetector | lib/StepperController/StepperController.cpp:242-269 | a stall is counted once, and the flag raised, only on a high DIAG pin while enabled, running and not yet stalled; the flag drops only on a low pin; the cached flag follows it |
| StepperController.StallCountedOnce | lib/StepperController/StepperController.cpp:256-266 | a DIAG pin that stays high counts one stall, not one per update |
| StepperController.ResetCountersRestarts | lib/StepperController/StepperController.cpp:307-318 | with a stepper its position is zeroed; the step count is 0 and the run time counts from now; SUCCESS is reported and nothing else changes |
| StepperController.ResetStallCountClears | lib/StepperController/StepperController.cpp:320-327 | the stall statistics are cleared, SUCCESS is reported, and nothing else changes |
| StepperController.EnableOutcome | lib/StepperController/StepperController.cpp:359-394 | no stepper or a refused move leaves the motor and driver off with HARDWARE_ERROR; success exactly otherwise, with the run-time origin taken only on the first start |
| StepperController.DisableIdempotent | lib/StepperController/StepperController.cpp:396-422 | disable and emergency stop always succeed and leave motor and driver off, so repeating them changes nothing but the result queue |
| StepperController.ProcessCommandDispatch | lib/StepperController/StepperController.cpp:271-305 | the seven kinds with no case do nothing; SET_SPEED, SET_DIRECTION and SET_CURRENT use the float, bool and int union members |
| StepperController.ProcessCommandReportsOnce | lib/StepperController/StepperController.cpp:271-305 | every handled command appends exactly one report, tagged with its id, behind the earlier ones |
| StepperController.InvPreserved | lib/StepperController/StepperController.cpp:180-211 | processing, cache updates, enqueueing and a whole loop pass keep both queues bounded and the speed and current within their accepted ranges |
| StepperController.InvProcess | lib/StepperController/StepperController.cpp:271-305 | each handled command keeps the invariant |
| StepperController.InvReport | lib/StepperController/StepperController.cpp:453-463 | a handler that only reports and keeps the settings in range keeps the invariant |
| StepperController.EnqueueTakesFreshId | lib/StepperController/StepperController.cpp:502-515 | with a queue, each call consumes the next id, returns it exactly when the send succeeds and 0 otherwise, and queues the command under it; without a queue nothing changes |
| StepperController.FreshIdsPreserved | lib/StepperController/StepperController.cpp:502-616 | until the id counter wraps, queued ids stay positive, distinct, increasing and below the next id, so a returned id names one command and 0 means failure |
| StepperController.ProcessKeepsCommands | lib/StepperController/StepperController.cpp:242-305 | processing a command and refreshing the cache never touch the command queue or the id counter |
| StepperController.StepperController.constructor | lib/StepperController/StepperController.cpp:3-22 | the fields are the initial state |
| StepperController.StepperController.Begin | lib/StepperController/StepperController.cpp:33-111 | records the driver's answer; without a stepper it fails; otherwise it applies the start defaults and succeeds |
| StepperController.StepperController.ApplyStartDefaults | lib/StepperController/StepperController.cpp:88-97 | default acceleration, the current speed through the speed handler, driver disabled |
| StepperController.StepperController.ReportResult | lib/StepperController/StepperController.cpp:453-463 | the report is appended to the result queue when it exists and has room |
| StepperController.StepperController.GetCommandResult | lib/StepperController/StepperController.cpp:465-469 | returns and removes the oldest report, or nothing |
| StepperController.StepperController.SetSpeedInternal | lib/StepperController/StepperController.cpp:329-350 | refuses an out-of-range speed or a missing stepper, else stores the speed and applies its step rate; reports once either way (outcomes in SetSpeedOutcome) |
| StepperController.StepperController.SetDirectionInternal | lib/StepperController/StepperController.cpp:352-357 | stores the direction and reports SUCCESS |
| StepperController.StepperController.EnableInternal | lib/StepperController/StepperController.cpp:359-394 | HARDWARE_ERROR without a stepper, else starts the motor in the current direction (outcomes in EnableOutcome) |
| StepperController.StepperController.StartMotor | lib/StepperController/StepperController.cpp:365-393 | requests a run in the current direction; a refused move is abandoned, a successful one marks the first start and reports SUCCESS |
| StepperController.StepperController.AbandonStart | lib/StepperController/StepperController.cpp:379-385 | a refused move turns motor and driver off and reports HARDWARE_ERROR with the code |
| StepperController.StepperController.MarkFirstStart | lib/StepperController/StepperController.cpp:387-390 | the run-time origin is taken only on the first start |
| StepperController.StepperController.DisableInternal | lib/StepperController/StepperController.cpp:396-408 | motor and driver off, the move stopped if there is a stepper, SUCCESS |
| StepperController.StepperController.EmergencyStopInternal | lib/StepperController/StepperController.cpp:410-422 | motor and driver off, a forced stop if there is a stepper, SUCCESS |
| StepperController.StepperController.SaveSettings | lib/StepperController/StepperController.cpp:471-483 | speed, direction, micro-steps and current are what was saved |
| StepperController.StepperController.SetRunCurrentInternal | lib/StepperController/StepperController.cpp:424-451 | refuses an out-of-range current; else stores it, records the driver's answer, and saves settings only when the driver answers (outcomes in SetRunCurrentOutcome) |
| StepperController.StepperController.ResetCountersInternal | lib/StepperController/StepperController.cpp:307-318 | State() equals AfterResetCounters: the stepper's position is zeroed when there is one, the step count, start time and first-start flag restart, and SUCCESS is reported |
| StepperController.StepperController.ResetStallCountInternal | lib/StepperController/StepperController.cpp:320-327 | zeroes the stall count, flag and time, and reports SUCCESS |
| StepperController.StepperController.UpdateCache | lib/StepperController/StepperController.cpp:242-269 | caches position and running flag, runs the stall edge detector, and caches its flag (see StallEdgeDetector) |
| StepperController.StepperController.CacheDriverState | lib/StepperController/StepperController.cpp:244-250 | position and running flag come from the stepper when attached, 0 and false otherwise |
| StepperController.StepperController.DetectStall | lib/StepperController/StepperController.cpp:253-266 | the stall state follows the edge detector on the fresh running flag |
| StepperController.StepperController.ProcessCommand | lib/StepperController/StepperController.cpp:271-305 | hands each kind to its handler with the union member it needs; kinds without a case do nothing (see ProcessCommandDispatch) |
| StepperController.StepperController.RunOnce | lib/StepperController/StepperController.cpp:196-210 | one pass: the oldest waiting command is processed, then the cache is refreshed and rescheduled when due; without a command queue the receive is skipped |
| StepperController.StepperController.EnqueueCommand | lib/StepperController/StepperController.cpp:502-515 | 0 without a queue; otherwise consumes the next id and returns it exactly when the command fits (see EnqueueTakesFreshId) |
| StepperController.StepperController.SetSpeed | lib/StepperController/StepperController.cpp:502-515 | enqueues SET_SPEED with the float value under a fresh id |
| StepperController.StepperController.SetDirection | lib/StepperController/StepperController.cpp:517-530 | enqueues SET_DIRECTION with the bool value |
| StepperController.StepperController.Enable | lib/StepperController/StepperController.cpp:532-544 | enqueues ENABLE |
| StepperController.StepperController.Disable | lib/StepperController/StepperController.cpp:546-558 | enqueues DISABLE |
| StepperController.StepperController.EmergencyStop | lib/StepperController/StepperController.cpp:560-573 | enqueues EMERGENCY_STOP |
| StepperController.StepperController.SetRunCurrent | lib/StepperController/StepperController.cpp:575-588 | enqueues SET_CURRENT with the int value |
| StepperController.StepperController.ResetCounters | lib/StepperController/StepperController.cpp:590-602 | enqueues RESET_COUNTERS |
| StepperController.StepperController.ResetStallCount | lib/StepperController/StepperController.cpp:604-616 | enqueues RESET_STALL_COUNT |
| StepperController.StepperController.SetAccelerationForTime | lib/StepperController/StepperController.cpp:633-644 | with a stepper the computed acceleration is applied; without one nothing changes |
| StepperController.StepperController.GetRunTime | lib/StepperController/StepperController.cpp:170-173 | the run time of the current odometer, 0 before the first start |
| StepperController.StepperController.GetTotalRevolutions | lib/StepperController/StepperController.cpp:164-168 | the corrected, never negative odometer of the cached position, equal to the source's value at every position but INT_MIN |
| PowerDeliveryTask.Ordinal | lib/PowerDeliveryTask/PowerDeliveryTask.h:47-53 | the published state number lies in 0..5 |
| PowerDeliveryTask.OrdinalInjective | lib/PowerDeliveryTask/PowerDeliveryTask.cpp:202 | distinct states are published as distinct numbers |
| PowerDeliveryTask.CfgPatternInjective | lib/PowerDeliveryTask/PowerDeliveryTask.cpp:102-146 | the five PD voltages get five different pin patterns, CFG1 is high only for 5 V, and any other value gets the 12 V pattern |
| PowerDeliveryTask.InitialPd | lib/PowerDeliveryTask/PowerDeliveryTask.cpp:6-21 | the task starts IDLE, targeting 12 V, with nothing negotiated, power not good, uninitialised |
| PowerDeliveryTask.StatusSnapshot | lib/PowerDeliveryTask/PowerDeliveryTask.cpp:208-216 | four updates: negotiation status, power good, current voltage, negotiated voltage, in that order |
| PowerDeliveryTask.StatusSnapshotDetermines | lib/PowerDeliveryTask/PowerDeliveryTask.cpp:208-216 | the snapshot determines the negotiation state, power good, measured and negotiated voltage |
| PowerDeliveryTask.ThenAssoc | lib/PowerDeliveryTask/PowerDeliveryTask.cpp:44-64 | running steps in sequence is associative in state and outputs |
| PowerDeliveryTask.AfterCommandsSnoc | lib/PowerDeliveryTask/PowerDeliveryTask.cpp:222-239 | draining one more command extends the run by that command's step |
| PowerDeliveryTask.NegotiationCompletion | lib/PowerDeliveryTask/PowerDeliveryTask.cpp:192-206 | complete exactly in SUCCESS, FAILED and TIMEOUT; the timeout check leaves complete states alone; a negotiation past 2000 ms becomes complete |
| PowerDeliveryTask.StartNegotiationOutcome | lib/PowerDeliveryTask/PowerDeliveryTask.cpp:242-261 | outside 5–20 V nothing changes; otherwise NEGOTIATING with that target and start time, its pin pattern, one status update, and the negotiated voltage untouched |
| PowerDeliveryTask.StartNegotiationIsRangeCheck | lib/PowerDeliveryTask/PowerDeliveryTask.cpp:243 | 7 V is accepted and configured with the 12 V pattern |
| PowerDeliveryTask.PowerGoodDebounce | lib/PowerDeliveryTask/PowerDeliveryTask.cpp:155-190 | a raw change only restarts the timer; the debounced state changes only to a reading seen on the previous check, at least 100 ms old; otherwise nothing is published and the negotiation is untouched |
| PowerDeliveryTask.PowerGoodTransitions | lib/PowerDeliveryTask/PowerDeliveryTask.cpp:166-186 | on a debounced change: power good while NEGOTIATING gives SUCCESS at the target voltage; power lost in SUCCESS gives FAILED, 0 V and a warning; else only the power-good status is published |
| PowerDeliveryTask.TimeoutPublishesOnce | lib/PowerDeliveryTask/PowerDeliveryTask.cpp:192-206 | only a negotiation 2000 ms old changes, to TIMEOUT, with one status update and one error; later checks publish nothing more |
| PowerDeliveryTask.SetTargetVoltageAlwaysSaved | lib/PowerDeliveryTask/PowerDeliveryTask.cpp:223-238 | SET_TARGET_VOLTAGE stores and saves the value even when refused, leaving the state; AUTO_NEGOTIATE_HIGHEST does nothing; REQUEST_ALL_STATUS publishes the snapshot |
| PowerDeliveryTask.RefusedTargetCanBeReported | lib/PowerDeliveryTask/PowerDeliveryTask.cpp:175-177 | a refused 99 V target set during a negotiation is reported as negotiated while the pins ask for 12 V |
| PowerDeliveryTask.PdInvSteps | lib/PowerDeliveryTask/PowerDeliveryTask.cpp:155-240 | each command, power-good check and timeout check keeps the invariant (SUCCESS only with power good, FAILED only at 0 V, never AUTO_NEGOTIATING) |
| PowerDeliveryTask.PdInvCommands | lib/PowerDeliveryTask/PowerDeliveryTask.cpp:218-240 | draining any sequence of commands keeps the invariant |
| PowerDeliveryTask.PdInvRunOnce | lib/PowerDeliveryTask/PowerDeliveryTask.cpp:44-64 | a whole loop pass keeps the invariant |
| PowerDeliveryTask.InitializeKeepsPdInv | lib/PowerDeliveryTask/PowerDeliveryTask.cpp:30-41 | the start-up establishes the invariant, marks the task initialised, targets the stored voltage (12 V by default), and negotiates exactly when that is in range |
| PowerDeliveryTask.OutputsThen | lib/PowerDeliveryTask/PowerDeliveryTask.cpp:44-64 | publishing two steps' outputs in turn equals publishing the sequenced step's outputs |
| PowerDeliveryTask.PowerDeliveryTask.constructor | lib/PowerDeliveryTask/PowerDeliveryTask.cpp:6-21 | the fields are the initial state |
| PowerDeliveryTask.PowerDeliveryTask.ConfigureVoltage | lib/PowerDeliveryTask/PowerDeliveryTask.cpp:102-146 | the pins carry the voltage's pattern and nothing else changes |
| PowerDeliveryTask.PowerDeliveryTask.StartNegotiation | lib/PowerDeliveryTask/PowerDeliveryTask.cpp:242-261 | returns whether the voltage is within 5–20 V; if so enters NEGOTIATING, drives its pattern and publishes the state; else changes nothing |
| PowerDeliveryTask.PowerDeliveryTask.TrackPowerGoodReading | lib/PowerDeliveryTask/PowerDeliveryTask.cpp:156-163 | a changed raw reading restarts the debounce timer |
| PowerDeliveryTask.PowerDeliveryTask.ApplyPowerGoodChange | lib/PowerDeliveryTask/PowerDeliveryTask.cpp:166-186 | stores and publishes the new debounced state; NEGOTIATING with power becomes SUCCESS, SUCCESS without power becomes FAILED with a warning |
| PowerDeliveryTask.PowerDeliveryTask.CheckPowerGood | lib/PowerDeliveryTask/PowerDeliveryTask.cpp:155-190 | debounces the PG reading as PowerGoodDebounce describes and returns the debounced state |
| PowerDeliveryTask.PowerDeliveryTask.UpdateNegotiationState | lib/PowerDeliveryTask/PowerDeliveryTask.cpp:192-206 | a negotiation 2000 ms old times out, publishing the state and an error; otherwise nothing happens |
| PowerDeliveryTask.PowerDeliveryTask.PublishStatusUpdates | lib/PowerDeliveryTask/PowerDeliveryTask.cpp:208-216 | the state is unchanged and the snapshot is published |
| PowerDeliveryTask.PowerDeliveryTask.SaveSettings | lib/PowerDeliveryTask/PowerDeliveryTask.cpp:94-100 | the saved target is the current target |
| PowerDeliveryTask.PowerDeliveryTask.HandleCommand | lib/PowerDeliveryTask/PowerDeliveryTask.cpp:223-238 | SET_TARGET_VOLTAGE stores, tries and saves the target; REQUEST_ALL_STATUS publishes the snapshot; AUTO_NEGOTIATE_HIGHEST does nothing |
| PowerDeliveryTask.PowerDeliveryTask.TakeAndHandle | lib/PowerDeliveryTask/PowerDeliveryTask.cpp:222-238 | takes the oldest PD command, if any, and handles it; with none waiting nothing changes |
| PowerDeliveryTask.PowerDeliveryTask.ProcessCommands | lib/PowerDeliveryTask/PowerDeliveryTask.cpp:218-240 | drains the PD queue, leaving the state and outputs of handling every waiting command in order |
| PowerDeliveryTask.PowerDeliveryTask.MeasureVoltage | lib/PowerDeliveryTask/PowerDeliveryTask.cpp:148-153 | stores and publishes the measured voltage |
| PowerDeliveryTask.PowerDeliveryTask.Initialize | lib/PowerDeliveryTask/PowerDeliveryTask.cpp:30-41 | drives the 12 V pattern, loads the stored target (12 V by default), marks the task initialised and starts negotiating the target |
| PowerDeliveryTask.PowerDeliveryTask.RunChecks | lib/PowerDeliveryTask/PowerDeliveryTask.cpp:50-54 | power-good check then timeout check |
| PowerDeliveryTask.PowerDeliveryTask.MeasureIfDue | lib/PowerDeliveryTask/PowerDeliveryTask.cpp:57-60 | measures and notes the time once the interval has passed (wrap-aware) |
| PowerDeliveryTask.PowerDeliveryTask.RunOnce | lib/PowerDeliveryTask/PowerDeliveryTask.cpp:44-64 | one pass: drain commands, run the checks, measure when due; the PD queue ends empty |
| PowerDeliveryTask.PowerDeliveryTask.NegotiationComplete | lib/PowerDeliveryTask/PowerDeliveryTask.cpp:263-267 | complete exactly in SUCCESS, FAILED and TIMEOUT |

## Left out

- Preferences: the motor task's `initPreferences` and `loadSettings` are not modelled.
  - `begin` starts from the settings already in memory.
  - The PD task's `loadSettings` is modelled; the stored voltage is an input.
  - `saveSettings` records what it writes and does not model the flash library.
  - The micro-step count that the motor task's `loadSettings` may change is fixed at 16.
- Hardware set-up: `configureDriver`, pin modes, the FastAccelStepper engine and the TMC2209
  serial set-up are left out. Their observable result is an input: whether a stepper attached,
  and whether the driver answers.
- `measureVoltage`'s ADC scaling is out: the measured voltage is an input.
- Floating point: C `float` is `real`, so rounding of speeds, step rates and voltages is not
  modelled. The truncating casts to `uint32_t` are modelled. `real` has no NaN either.
- StepperController.InvPreserved: its speed range holds for `real` speeds only. In C a NaN speed
  fails both comparisons of `setSpeedInternal`'s range test, so it is stored and handed to the
  undefined cast in `rpmToStepsPerSecond`; the model cannot express that input.
- Text is a sequence of characters, not of bytes. `String::length()` and the 127-byte cut count
  bytes, so a UTF-8 message can be cut inside a multi-byte character. The model's cut counts
  characters and cannot split one.
- StepperController.StepperController.RunOnce: without a command queue the model skips the
  receive. `run()` hands the null handle to `xQueueReceive`, whose `configASSERT` halts the
  task; that halt is not modelled.
- StepperController.StepperController.GetTotalRevolutions: returns the corrected odometer
  `TotalRevolutions` (see Findings). At cached position INT_MIN the code as written gives the
  negative `TotalRevolutionsAsWritten` value, and this member does not.
- The stepper's position after `setCurrentPosition(0)`: the reset is recorded in
  `positionZeroed`, but every later position reading is an input, so the model does not tie
  the next cached position to 0.
- Reading a union member other than the one written yields 0, false or 0.0. In C it yields the
  other member's bytes.
- Concurrency and blocking:
  - each task runs alone;
  - blocking timeouts on queue operations cannot change an outcome;
  - the `while (true)` loops of both `run()` methods are modelled as one pass (`RunOnce`) with
    a single clock reading per pass.
- The motor task's `run()` prologue (`begin()` and the first schedule) is modelled as `Begin`
  only.
- Declared but not defined in the source:
  - the speed-variation, acceleration and StallGuard-threshold handlers;
  - auto-negotiation of the highest voltage;
  - the PD task's public `setTargetVoltage` / `requestStatus`.

  Their commands have no case in the dispatchers, which the model proves do nothing with them.
- The PD command queue behind `getPowerDeliveryCommand` has no implementation in the source. It
  is modelled as an always-present FIFO of a given capacity. `SendPowerDeliveryCommand` is the
  model's producer for it.
- The simple getters are left out: the PD task's `isPowerGood`, `getCurrentVoltage`,
  `getNegotiatedVoltage` and `getNegotiationState`. So are the singletons' `getInstance`, the
  destructors and `Serial` logging.
- BLEManager, Task, main, OTA and the debug print helpers are not part of this model.
- Some constants are parameters because the source defines them elsewhere:
  - the result queue size;
  - the cache update interval;
  - the FreeRTOS tick rate;
  - the PD voltage measurement interval.
- The PD task's `lastStatusUpdate` field is never read, so it is left out.
- The header lists five negotiation states. TIMEOUT is taken as the sixth, published as 5.
- StepperController.CalculateAccelerationForTime: requires a non-negative target whose step rate
  fits 32 bits, a positive time and a quotient below 2^32. Outside those inputs C's
  float-to-`uint32_t` casts are undefined.
- StepperController.RpmToStepsPerSecond: requires a non-negative speed whose step rate fits 32
  bits, for the same reason.
- PowerDeliveryTask.StatusSnapshot: its contract states only the kinds, in order. The values
  are stated by `StatusSnapshotDetermines` and follow from the body.

## Findings

| source | as written | input that shows it | evidently intended | confidence | as-written member | corrected member |
|---|---|---|---|---|---|---|
| lib/StepperController/StepperController.cpp:164-168 | `getTotalRevolutions` takes `abs` of the 32-bit cached position; `abs(INT_MIN)` overflows and stays negative | cached position −2147483648 gives about −67108.9 revolutions | a distance that is never negative: \|position\| / 32000 | not executed | StepperController.TotalRevolutionsAsWrittenNegative | StepperController.TotalRevolutions |
