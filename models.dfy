/** The data the pycoolmasternet_ng library hands to the integration: its
    enumerations, a snapshot of one HVAC device, and the commands the
    integration can send to a device. The library itself (transport, wire
    protocol, refresh) is not part of this model. */
module Models {
  import opened Common

  /** `constants.Mode`; `Other` stands for any mode the integration does not map. */
  datatype Mode = Heat | Cool | Auto | Dry | Fan | OtherMode(code: string)

  /** `constants.FanMode`; `OtherFanMode` for any speed the integration does not map. */
  datatype FanMode = VeryLow | Low | Medium | High | VeryHigh | Auto | OtherFanMode(code: string)

  /** `constants.LouverPositionState`: what a device reports about its louver. */
  datatype LouverPositionState =
    | Swing | StopSwing | Horizontal | Vertical
    | ThirtyDegrees | FortyFiveDegrees | SixtyDegrees
    | NotSupported

  /** `constants.LouverPosition`: what can be commanded. */
  datatype LouverPosition =
    | Swing | StopSwing | Horizontal | Vertical
    | ThirtyDegrees | FortyFiveDegrees | SixtyDegrees

  /** Python `range(start, stop)` of allowed target temperatures. */
  datatype TempRange = TempRange(start: int, stop: int)
  {
    /** A range is truthy exactly when it is not empty. */
    predicate NonEmpty() { start < stop }
  }

  /** A snapshot of one `models.Device`, as last refreshed. */
  datatype Device = Device(
    uid: string,                     // str(device.uid)
    gatewaySerial: string,           // device.gateway.serial_number
    brandName: string,
    friendlyName: Option<string>,
    powerState: bool,
    mode: Mode,
    fanMode: FanMode,
    louverPosition: LouverPositionState,
    temperatureUnit: string,
    currentTemperature: real,
    targetTemperature: real,
    targetTemperatureRange: Option<TempRange>,
    supportedModes: seq<Mode>,
    supportedFanSpeeds: seq<FanMode>,
    filterSign: bool,
    demand: bool,
    errorCode: Option<string>)

  /** The device calls the integration issues, in the order it issues them. */
  datatype Command =
    | SetTemperature(temperature: real)
    | SetFanMode(fanMode: FanMode)
    | SetLouverPosition(position: LouverPosition)
    | SetMode(mode: Mode)
    | SetPowerState(on: bool)
    | SetCurrentTemperature(temperature: real)

  /** The louver state a device reports once it has taken a position. */
  function PositionState(p: LouverPosition): (s: LouverPositionState)
    ensures s != LouverPositionState.NotSupported
  {
    match p
    case Swing => LouverPositionState.Swing
    case StopSwing => LouverPositionState.StopSwing
    case Horizontal => LouverPositionState.Horizontal
    case Vertical => LouverPositionState.Vertical
    case ThirtyDegrees => LouverPositionState.ThirtyDegrees
    case FortyFiveDegrees => LouverPositionState.FortyFiveDegrees
    case SixtyDegrees => LouverPositionState.SixtyDegrees
  }

  /** The snapshot a device reports after it has carried out a command
      (an assumption about the gateway, used to state set-then-read
      properties; the integration itself only sends the command). */
  function Effect(d: Device, c: Command): Device
  {
    match c
    case SetTemperature(t) => d.(targetTemperature := t)
    case SetFanMode(f) => d.(fanMode := f)
    case SetLouverPosition(p) => d.(louverPosition := PositionState(p))
    case SetMode(m) => d.(mode := m)
    case SetPowerState(on) => d.(powerState := on)
    case SetCurrentTemperature(t) => d.(currentTemperature := t)
  }

  /** The snapshot after a sequence of commands, carried out in order. */
  function Apply(d: Device, cs: seq<Command>): Device
    decreases cs
  {
    if cs == [] then d else Apply(Effect(d, cs[0]), cs[1..])
  }
}
