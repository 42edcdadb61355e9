/**
 * Values shared by the end-device application model: device mode and state,
 * LED driver operations, IPv6 addresses, CoAP sessions and messages, queued
 * application actions, timer slots, calls to the Thread stack and sensors,
 * and the events that reach the application.
 */
module AppTypes {

  /** An unsigned 8-bit quantity (`uint8_t`). */
  type Byte = x: int | 0 <= x < 0x100

  /** Payload and path bytes; each byte is modelled as a `char`. */
  type Text = seq<char>

  datatype Option<T> = None | Some(value: T)

  /** `appDeviceMode_t`: which keyboard table is active. */
  datatype DeviceMode = Configuration | Application

  /** `appDeviceState_t`. */
  datatype DeviceState =
    | FactoryDefault
    | JoiningOrAttaching
    | NwkConnected
    | NwkFailure
    | AppLedOn
    | AppLedOff
    | AppLedToggle
    | AppLedFlash
    | AppLedRgb
    | AppLedColorWheel

  /** The (mode, state) record kept for one Thread instance. */
  datatype Device = Device(mode: DeviceMode, state: DeviceState)

  datatype Rgb = Rgb(red: Byte, green: Byte, blue: Byte)

  const NoColour := Rgb(0, 0, 0)

  /** Calls into the LED driver (`app_led`), in the order they are made. */
  datatype LedOp =
    | Render(mode: DeviceMode, state: DeviceState)   // Led_SetState
    | SetRgb(rgb: Rgb)                                // Led_UpdateRgbState
    | AllOff                                          // LED_TurnOffAllLeds

  /** An IPv6 address as its bytes. */
  datatype Addr = Addr(bytes: seq<Byte>)

  /** `IP6_IsMulticastAddr`: the first byte is 0xFF. */
  predicate IsMulticast(a: Addr) {
    |a.bytes| > 0 && a.bytes[0] == 0xFF
  }

  /** The zero-initialised address `::` that a static `ipAddr_t` holds before it is set. */
  const UnspecifiedAddr := Addr(seq(16, _ => 0))

  /** `coapSessionStatus_t` as delivered to a request handler. */
  datatype CoapStatus = Success | Failure | Duplicate

  datatype CoapCode = Get | Post | Put | Delete

  datatype CoapMsgType = Confirmable | NonConfirmable | Acknowledgement | Reset

  /** The parts of `coapSession_t` the handlers read. */
  datatype Session = Session(remote: Addr, code: CoapCode, msgType: CoapMsgType, uriPath: Text)

  /** The reply callback installed on an outbound session. */
  datatype Callback = NoCallback | GenericCallback

  /** What the application hands to `COAP_Send`. */
  datatype CoapMsg =
    | Request(dest: Addr, confirmable: bool, path: Text, payload: Text, callback: Callback)  // a POST
    | AckChanged(to: Addr, payload: Text)                                                   // 2.04 Changed ACK

  const LedUriPath: Text := "/led"
  const TempUriPath: Text := "/temp"
  const SinkUriPath: Text := "/sink"
  const AccelUriPath: Text := "/accel"
  const Equipo4UriPath: Text := "/equipo4"

  /** The axis argument of `App_GetAccelDataString` and `APP_ReportAccel`. */
  datatype Axis = NoAxis | AxisX | AxisY | AxisZ | AllAxes

  /** Work posted to the application message queue with `NWKU_SendMsg`. */
  datatype Action =
    | ReportTemp
    | ReportAccel(axis: Axis)
    | SendDataSinkCreate
    | SendDataSinkRelease
    | LocalDataSinkRelease
    | SendLedRgbOn
    | SendLedRgbOff
    | SendLedFlash
    | SendLedColorWheel

  /** The statically allocated timers. */
  datatype TimerSlot = LedOffTimer | Equipo4Timer | SwWakeUpTimer

  datatype TimerOp = Start(slot: TimerSlot, ms: nat) | Stop(slot: TimerSlot)

  /** Calls into the Thread stack, the sensors and power management. */
  datatype ExtCall =
    | NwkJoin
    | FactoryReset
    | EnableAccelerometer
    | ReadTemp
    | ReadAccel(axis: Axis)
    | GetMleIdAddr
    | AllowSleep
    | DisallowSleep

  /** Lines written to the shell. */
  datatype ShellLine =
    | Echo(text: Text, from: Addr)   // a value received from a peer
    | Report(text: Text)             // a locally produced reading

  /** Network lifecycle events delivered to `Stack_to_APP_Handler`. */
  datatype NwkEvent =
    | ResetToFactoryDefault
    | InstanceRestoreStarted
    | ConnectingStarted
    | JoinSuccess
    | JoinFailed
    | Connected
    | ConnectingFailed
    | Disconnected
    | AllowDeviceToSleep
    | DisallowDeviceToSleep
    | OtherNwkEvent(code: nat)

  /** Joiner events delivered to `APP_Commissioning_Handler`. */
  datatype CommissioningEvent =
    | JoinerDiscoveryStarted
    | JoinerDiscoveryFailed
    | JoinerDiscoveryFailedFiltered
    | JoinerDiscoverySuccess
    | JoinerDtlsSessionStarted
    | JoinerDtlsError
    | JoinerError
    | JoinerAccepted
    | OtherCommissioningEvent(code: nat)

  /** Keyboard events; buttons are numbered from 1 (PB1). */
  datatype KeyEvent =
    | Press(button: nat)
    | LongPress(button: nat)
    | VeryLongPress(button: nat)
    | OtherKeyEvent(code: nat)
}
