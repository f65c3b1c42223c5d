/** The command channel (lib/SystemCommand/SystemCommand.cpp): a 20-slot FIFO of motor commands
    behind a handle that stays null until `begin` creates it, and the FIFO of power-delivery
    commands that the power-delivery task drains. */
module SystemCommand {
  import opened Wrappers
  import opened FixedWidth
  import opened CommandTypes
  import Fifo

  const COMMAND_QUEUE_SIZE: nat := 20

  class SystemCommand {
    /** `commandQueue != nullptr` */
    var ready: bool
    var commands: seq<StepperCommandData>
    /** The power-delivery command queue, whose implementation is not part of this model: an
        always-present bounded FIFO of the given capacity. */
    const powerDeliveryCapacity: nat
    var powerDeliveryCommands: seq<PowerDeliveryCommandData>

    ghost predicate Valid()
      reads this
    {
      && |commands| <= COMMAND_QUEUE_SIZE
      && (!ready ==> commands == [])
      && |powerDeliveryCommands| <= powerDeliveryCapacity
    }

    constructor (powerDeliveryCapacity: nat)
      ensures Valid()
      ensures !ready && commands == []
      ensures this.powerDeliveryCapacity == powerDeliveryCapacity && powerDeliveryCommands == []
    {
      ready, commands := false, [];
      this.powerDeliveryCapacity := powerDeliveryCapacity;
      powerDeliveryCommands := [];
    }

    /** `begin()`: the handle is whatever `xQueueCreate` returned; a fresh queue is empty. */
    method Begin(queueCreated: bool) returns (ok: bool)
      requires Valid()
      modifies this
      ensures Valid()
      ensures ok == queueCreated && ready == queueCreated && commands == []
      ensures powerDeliveryCommands == old(powerDeliveryCommands)
    {
      ready, commands := queueCreated, [];
      ok := queueCreated;
    }

    /** The outcome of offering `command` to the motor command queue: it succeeds exactly when
        the queue exists and is not full, and then the command is the new back of the queue;
        otherwise nothing changes. */
    twostate predicate Sent(command: StepperCommandData, ok: bool)
      reads this
    {
      && ok == (old(ready) && |old(commands)| < COMMAND_QUEUE_SIZE)
      && commands == (if ok then old(commands) + [command] else old(commands))
      && ready == old(ready)
      && powerDeliveryCommands == old(powerDeliveryCommands)
    }

    /** `sendCommand(command, timeout)`. A single-threaded model has no consumer that could make
        room while the sender waits, so the timeout cannot change the outcome. */
    method SendCommand(command: StepperCommandData) returns (ok: bool)
      requires Valid()
      modifies this
      ensures Valid() && Sent(command, ok)
      ensures PendingCommandCount() == old(PendingCommandCount()) + (if ok then 1 else 0)
    {
      if !ready {
        return false;
      }
      ok := |commands| < COMMAND_QUEUE_SIZE;
      commands := Fifo.Push(commands, command, COMMAND_QUEUE_SIZE);
    }

    /** `sendCommand(cmd, timeout)`: the kind alone, union zero. */
    method SendCommandKind(cmd: StepperCommand) returns (ok: bool)
      requires Valid()
      modifies this
      ensures Valid() && Sent(StepperCommandOf(cmd), ok)
    {
      ok := SendCommand(StepperCommandOf(cmd));
    }

    /** `sendCommand(cmd, float value, timeout)`. */
    method SendCommandFloat(cmd: StepperCommand, value: real) returns (ok: bool)
      requires Valid()
      modifies this
      ensures Valid() && Sent(StepperCommandWithFloat(cmd, value), ok)
    {
      ok := SendCommand(StepperCommandWithFloat(cmd, value));
    }

    /** `sendCommand(cmd, bool value, timeout)`. */
    method SendCommandBool(cmd: StepperCommand, value: bool) returns (ok: bool)
      requires Valid()
      modifies this
      ensures Valid() && Sent(StepperCommandWithBool(cmd, value), ok)
    {
      ok := SendCommand(StepperCommandWithBool(cmd, value));
    }

    /** `sendCommand(cmd, int value, timeout)`. */
    method SendCommandInt(cmd: StepperCommand, value: int32) returns (ok: bool)
      requires Valid()
      modifies this
      ensures Valid() && Sent(StepperCommandWithInt(cmd, value), ok)
    {
      ok := SendCommand(StepperCommandWithInt(cmd, value));
    }

    /** `sendCommand(cmd, uint32_t value, timeout)`. */
    method SendCommandUint32(cmd: StepperCommand, value: uint32) returns (ok: bool)
      requires Valid()
      modifies this
      ensures Valid() && Sent(StepperCommandWithUint32(cmd, value), ok)
    {
      ok := SendCommand(StepperCommandWithUint32(cmd, value));
    }

    /** `emergencyStop()`: EMERGENCY_STOP goes to the back of the same queue with no wait, so it
        is refused by a full queue like any other command; no slot is held in reserve. */
    method EmergencyStop() returns (ok: bool)
      requires Valid()
      modifies this
      ensures Valid() && Sent(StepperCommandOf(StepperCommand.EmergencyStop), ok)
    {
      if !ready {
        return false;
      }
      var command := StepperCommandOf(StepperCommand.EmergencyStop);
      ok := |commands| < COMMAND_QUEUE_SIZE;
      commands := Fifo.Push(commands, command, COMMAND_QUEUE_SIZE);
    }

    /** `getCommand(out, timeout)`: removes and returns the oldest command; `None` when the queue
        is empty or was never created. */
    method GetCommand() returns (r: Option<StepperCommandData>)
      requires Valid()
      modifies this
      ensures Valid()
      ensures old(commands) == [] ==> r == None && commands == []
      ensures old(commands) != [] ==> r == Some(old(commands)[0]) && commands == old(commands)[1..]
      ensures ready == old(ready) && powerDeliveryCommands == old(powerDeliveryCommands)
    {
      if !ready || commands == [] {
        return None;
      }
      r := Some(commands[0]);
      commands := commands[1..];
    }

    /** `getPendingCommandCount()`: 0 before `begin`, never above the capacity. */
    function PendingCommandCount(): (n: nat)
      requires Valid()
      reads this
      ensures n <= COMMAND_QUEUE_SIZE
      ensures ready ==> n == |commands|
      ensures !ready ==> n == 0
    {
      if ready then |commands| else 0
    }

    /** `hasCommands()`: whether a command is waiting. */
    function HasCommands(): (b: bool)
      requires Valid()
      reads this
      ensures b <==> PendingCommandCount() > 0
    {
      ready && |commands| > 0
    }

    /** `clearCommands()`: empties the motor command queue. */
    method ClearCommands()
      requires Valid()
      modifies this
      ensures Valid()
      ensures commands == [] && ready == old(ready)
      ensures powerDeliveryCommands == old(powerDeliveryCommands)
    {
      if !ready {
        return;
      }
      commands := [];
    }

    /** Offers a power-delivery command without waiting. */
    method SendPowerDeliveryCommand(command: PowerDeliveryCommandData) returns (ok: bool)
      requires Valid()
      modifies this
      ensures Valid()
      ensures ok == (|old(powerDeliveryCommands)| < powerDeliveryCapacity)
      ensures powerDeliveryCommands == if ok then old(powerDeliveryCommands) + [command] else old(powerDeliveryCommands)
      ensures ready == old(ready) && commands == old(commands)
    {
      ok := |powerDeliveryCommands| < powerDeliveryCapacity;
      powerDeliveryCommands := Fifo.Push(powerDeliveryCommands, command, powerDeliveryCapacity);
    }

    /** `getPowerDeliveryCommand(out, 0)`: a non-blocking pop of the oldest power-delivery
        command. */
    method GetPowerDeliveryCommand() returns (r: Option<PowerDeliveryCommandData>)
      requires Valid()
      modifies this
      ensures Valid()
      ensures old(powerDeliveryCommands) == [] ==> r == None && powerDeliveryCommands == []
      ensures old(powerDeliveryCommands) != [] ==>
                r == Some(old(powerDeliveryCommands)[0]) && powerDeliveryCommands == old(powerDeliveryCommands)[1..]
      ensures ready == old(ready) && commands == old(commands)
    {
      if powerDeliveryCommands == [] {
        return None;
      }
      r := Some(powerDeliveryCommands[0]);
      powerDeliveryCommands := powerDeliveryCommands[1..];
    }
  }
}
