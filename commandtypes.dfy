/** The command records that producers put into the command queues
    (lib/SystemCommand/CommandTypes.h). Each C `struct { kind; union { ... } }` becomes a
    datatype whose payload records which union member was written, and with what value. */
module CommandTypes {
  import opened FixedWidth

  /** The fifteen motor commands, in the order of the C enum. */
  datatype StepperCommand =
    | SetSpeed
    | SetDirection
    | Enable
    | Disable
    | EmergencyStop
    | SetCurrent
    | SetAcceleration
    | ResetCounters
    | ResetStallCount
    | SetSpeedVariation
    | SetSpeedVariationPhase
    | EnableSpeedVariation
    | DisableSpeedVariation
    | SetStallGuardThreshold
    | RequestAllStatus

  /** The three power-delivery commands. */
  datatype PowerDeliveryCommand =
    | SetTargetVoltage
    | AutoNegotiateHighest
    | RequestAllStatus

  /** The union of a command record: the member last written and its value. A C `float`
      becomes a `real`. */
  datatype Payload =
    | FloatValue(f: real)
    | BoolValue(b: bool)
    | IntValue(i: int32)
    | Uint32Value(u: uint32)

  /** The power-delivery union has no `uint32_t` member. */
  type PowerDeliveryPayload = p: Payload | !p.Uint32Value? witness FloatValue(0.0)

  datatype StepperCommandData = StepperCommandData(command: StepperCommand, payload: Payload)

  datatype PowerDeliveryCommandData =
    PowerDeliveryCommandData(command: PowerDeliveryCommand, payload: PowerDeliveryPayload)

  // Reading a union member. When the member read is the one written, its value comes back.
  // Otherwise C yields the bytes of the other member: for a record built with the kind-only
  // or default constructor those are the all-zero bytes of 0.0f, so 0, false and 0.0 are exact;
  // after any other constructor they are indeterminate, and the model reads 0, false and 0.0.

  function ReadFloat(p: Payload): real {
    if p.FloatValue? then p.f else 0.0
  }

  function ReadBool(p: Payload): bool {
    if p.BoolValue? then p.b else false
  }

  function ReadInt(p: Payload): int32 {
    if p.IntValue? then p.i else 0
  }

  function ReadUint32(p: Payload): uint32 {
    if p.Uint32Value? then p.u else 0
  }

  /** Every member of a record whose union holds 0.0f reads as zero. */
  predicate ReadsAllZero(p: Payload) {
    ReadFloat(p) == 0.0 && !ReadBool(p) && ReadInt(p) == 0 && ReadUint32(p) == 0
  }

  /** `StepperCommandData()`: an ENABLE command whose union is zero. */
  function DefaultStepperCommand(): (d: StepperCommandData)
    ensures d.command == Enable && ReadsAllZero(d.payload)
  {
    StepperCommandData(Enable, FloatValue(0.0))
  }

  /** `StepperCommandData(cmd)`: the given kind, union zero. */
  function StepperCommandOf(cmd: StepperCommand): (d: StepperCommandData)
    ensures d.command == cmd && ReadsAllZero(d.payload)
  {
    StepperCommandData(cmd, FloatValue(0.0))
  }

  /** `StepperCommandData(cmd, float)`: the given kind, and the value reads back as a float. */
  function StepperCommandWithFloat(cmd: StepperCommand, value: real): (d: StepperCommandData)
    ensures d.command == cmd && ReadFloat(d.payload) == value
  {
    StepperCommandData(cmd, FloatValue(value))
  }

  /** `StepperCommandData(cmd, bool)`. */
  function StepperCommandWithBool(cmd: StepperCommand, value: bool): (d: StepperCommandData)
    ensures d.command == cmd && ReadBool(d.payload) == value
  {
    StepperCommandData(cmd, BoolValue(value))
  }

  /** `StepperCommandData(cmd, int)`. */
  function StepperCommandWithInt(cmd: StepperCommand, value: int32): (d: StepperCommandData)
    ensures d.command == cmd && ReadInt(d.payload) == value
  {
    StepperCommandData(cmd, IntValue(value))
  }

  /** `StepperCommandData(cmd, uint32_t)`. */
  function StepperCommandWithUint32(cmd: StepperCommand, value: uint32): (d: StepperCommandData)
    ensures d.command == cmd && ReadUint32(d.payload) == value
  {
    StepperCommandData(cmd, Uint32Value(value))
  }

  /** `PowerDeliveryCommandData()`: REQUEST_ALL_STATUS, union zero. */
  function DefaultPowerDeliveryCommand(): (d: PowerDeliveryCommandData)
    ensures d.command == PowerDeliveryCommand.RequestAllStatus && ReadsAllZero(d.payload)
  {
    PowerDeliveryCommandData(PowerDeliveryCommand.RequestAllStatus, FloatValue(0.0))
  }

  /** `PowerDeliveryCommandData(cmd)`. */
  function PowerDeliveryCommandOf(cmd: PowerDeliveryCommand): (d: PowerDeliveryCommandData)
    ensures d.command == cmd && ReadsAllZero(d.payload)
  {
    PowerDeliveryCommandData(cmd, FloatValue(0.0))
  }

  /** `PowerDeliveryCommandData(cmd, float)`. */
  function PowerDeliveryCommandWithFloat(cmd: PowerDeliveryCommand, value: real): (d: PowerDeliveryCommandData)
    ensures d.command == cmd && ReadFloat(d.payload) == value
  {
    PowerDeliveryCommandData(cmd, FloatValue(value))
  }

  /** `PowerDeliveryCommandData(cmd, bool)`. */
  function PowerDeliveryCommandWithBool(cmd: PowerDeliveryCommand, value: bool): (d: PowerDeliveryCommandData)
    ensures d.command == cmd && ReadBool(d.payload) == value
  {
    PowerDeliveryCommandData(cmd, BoolValue(value))
  }

  /** `PowerDeliveryCommandData(cmd, int)`: the voltage of SET_TARGET_VOLTAGE travels here. */
  function PowerDeliveryCommandWithInt(cmd: PowerDeliveryCommand, value: int32): (d: PowerDeliveryCommandData)
    ensures d.command == cmd && ReadInt(d.payload) == value
  {
    PowerDeliveryCommandData(cmd, IntValue(value))
  }
}
