/**
 * The end-device application: the per-instance (mode, state) store, the
 * handlers for network, commissioning, keyboard, CoAP, timer and
 * accelerometer events, and the outbound reporters. Calls to the Thread
 * stack, the CoAP library, the LED driver, the timers, the shell and the
 * sensors are recorded in ghost logs; what such a call returns (a session,
 * a send status, a sensor reading, a random colour) is a parameter.
 */
module EndDevice {
  import opened AppTypes
  import opened LedCommand
  import opened AppPolicy

  /** The application's variables besides the device store, and the logs of its calls to collaborators. */
  datatype Vars = Vars(
    joining: bool,                 // mJoiningIsAppInitiated
    retry: bool,                   // gbRetryInterrupt
    dest: Addr,                    // gCoapDestAddress
    txLed: bool,                   // gEnable802154TxLed
    accLast: Byte,                 // mAccLastEvent
    pending: seq<Action>,          // the application message queue
    armed: map<TimerSlot, nat>,    // timers running, with their period
    registered: seq<Text>,         // CoAP resources registered at start-up
    leds: seq<LedOp>,
    sent: seq<CoapMsg>,
    timers: seq<TimerOp>,
    calls: seq<ExtCall>,
    shell: seq<ShellLine>)

  const SwWakeUpTimeoutMs: nat := 5000
  const ProbePulseLedMs: nat := 70
  const ProbePeriodMs: nat := 1000
  const AccelPulseLedMs: nat := 100
  /** `maxDisplayedString` of the `/temp` handler. */
  const TempEchoBufferSize: nat := 10

  const DataSinkCreateCommand: Text := "create\0"
  const DataSinkReleaseCommand: Text := "release\0"
  /** What `APP_TimmerEquipo4Cb` prints. */
  const ProbeText: Text := "algo"

  /**
   * The variables after `Stack_to_APP_Handler` handles `ev`, given the
   * variables `v` and the device `d` before it: the renders and calls of the
   * event appended to their logs, the join flag stepped on join
   * confirmations, the default destination restored on connection, the TX
   * LED left off by the start and connected events, the probe timer stopped
   * on failure, and nothing else touched.
   */
  ghost function NwkEventVars(ev: NwkEvent, v: Vars, d: Device, lowPower: bool, defaultDest: Addr): (r: Vars)
    ensures r.leds == v.leds + NwkEventRenders(ev, d)
    ensures r.calls == v.calls + NwkEventCalls(ev, v.joining, v.retry, lowPower)
    ensures r.joining == (if ev.JoinSuccess? || ev.JoinFailed? then JoinStep(ev, v.joining, v.retry).initiated else v.joining)
    ensures r.dest == (if ev.Connected? then defaultDest else v.dest)
    ensures r.armed == (if ev.ConnectingFailed? || ev.Disconnected? then v.armed - {Equipo4Timer} else v.armed)
    ensures r.timers == v.timers + (if ev.ConnectingFailed? || ev.Disconnected? then [Stop(Equipo4Timer)] else [])
    ensures r.txLed == (if Settles(ev) && !ev.ConnectingFailed? && !ev.Disconnected? then false else v.txLed)
    ensures r.retry == v.retry && r.accLast == v.accLast && r.pending == v.pending && r.registered == v.registered
    ensures r.sent == v.sent && r.shell == v.shell
  {
    match ev
    case ResetToFactoryDefault => v.(leds := v.leds + [Render(d.mode, FactoryDefault)])
    case InstanceRestoreStarted => v.(leds := v.leds + [Render(Configuration, JoiningOrAttaching)], txLed := false)
    case ConnectingStarted => v.(leds := v.leds + [Render(Configuration, JoiningOrAttaching)], txLed := false)
    case JoinSuccess =>
      v.(joining := JoinStep(ev, v.joining, v.retry).initiated,
         calls := v.calls + if JoinStep(ev, v.joining, v.retry).rejoin then [NwkJoin] else [])
    case JoinFailed =>
      v.(joining := JoinStep(ev, v.joining, v.retry).initiated,
         calls := v.calls + if JoinStep(ev, v.joining, v.retry).rejoin then [NwkJoin] else [])
    case Connected =>
      v.(leds := v.leds + [Render(d.mode, NwkConnected)], dest := defaultDest, txLed := false,
         calls := v.calls + [EnableAccelerometer])
    case ConnectingFailed =>
      v.(leds := v.leds + [Render(Configuration, NwkFailure)], timers := v.timers + [Stop(Equipo4Timer)],
         armed := v.armed - {Equipo4Timer})
    case Disconnected =>
      v.(leds := v.leds + [Render(Configuration, NwkFailure)], timers := v.timers + [Stop(Equipo4Timer)],
         armed := v.armed - {Equipo4Timer})
    case AllowDeviceToSleep => v.(calls := v.calls + if lowPower then [AllowSleep] else [])
    case DisallowDeviceToSleep => v.(calls := v.calls + if lowPower then [DisallowSleep] else [])
    case OtherNwkEvent(_) => v
  }

  /** The device after a key event: only a join from an idle state or the application-mode PB1 pulse change it. */
  function KeyDevice(k: KeyEvent, d: Device, multiKey: bool): (r: Device)
    ensures r.mode == d.mode
    ensures d.mode == Configuration ==> (r != d <==> ConfigStartsJoin(k, d.state, multiKey))
    ensures d.mode == Application ==> (r.state == AppLedRgb || r == d) && (AppKeyEffectOf(k, multiKey).ProbePulse? ==> r.state == AppLedRgb)
  {
    if d.mode == Configuration then
      if ConfigStartsJoin(k, d.state, multiKey) then d.(state := JoiningOrAttaching) else d
    else if AppKeyEffectOf(k, multiKey).ProbePulse? then d.(state := AppLedRgb)
    else d
  }

  /**
   * The variables after `App_HandleKeyboard` handles `k` in device `d`. In
   * configuration mode a short press of an existing key joins from the idle
   * states and a very long press asks for a factory reset. In application
   * mode (after restarting the wake-up timer in a low-power build) PB1 posts
   * an accelerometer report, shows a magenta pulse and starts the LED-off and
   * probe timers; the other keys post their action or ask for a factory reset.
   */
  ghost function KeyVars(k: KeyEvent, v: Vars, d: Device, multiKey: bool, lowPower: bool): (r: Vars)
    ensures r.calls == v.calls + (if RequestsFactoryReset(k, multiKey) then [FactoryReset]
                                  else if d.mode == Configuration && ConfigStartsJoin(k, d.state, multiKey) then [NwkJoin]
                                  else [])
    ensures r.joining == (v.joining || (d.mode == Configuration && ConfigStartsJoin(k, d.state, multiKey)))
    ensures d.mode == Configuration ==> r.pending == v.pending && r.timers == v.timers && r.armed == v.armed
    ensures d.mode == Application && AppKeyEffectOf(k, multiKey).PostAction?
            ==> r.pending == v.pending + [AppKeyEffectOf(k, multiKey).action]
    ensures d.mode == Application && lowPower ==> SwWakeUpTimer in r.armed && r.armed[SwWakeUpTimer] == SwWakeUpTimeoutMs
    ensures r.dest == v.dest && r.sent == v.sent && r.shell == v.shell && r.retry == v.retry
    ensures r.accLast == v.accLast && r.registered == v.registered && r.txLed == v.txLed
  {
    if d.mode == Configuration then
      if ConfigStartsJoin(k, d.state, multiKey) then
        v.(leds := v.leds + [Render(Configuration, JoiningOrAttaching)], joining := true, calls := v.calls + [NwkJoin])
      else if RequestsFactoryReset(k, multiKey) then v.(calls := v.calls + [FactoryReset])
      else v
    else
      AppKeyVars(k, if lowPower then WakeUpVars(v) else v, multiKey)
  }

  /** The application-mode key table, after the wake-up timer. */
  ghost function AppKeyVars(k: KeyEvent, v: Vars, multiKey: bool): (r: Vars)
    ensures r.calls == v.calls + (if AppKeyEffectOf(k, multiKey).KeyFactoryReset? then [FactoryReset] else [])
    ensures AppKeyEffectOf(k, multiKey).PostAction? ==> r.pending == v.pending + [AppKeyEffectOf(k, multiKey).action]
    ensures SwWakeUpTimer in v.armed ==> SwWakeUpTimer in r.armed && r.armed[SwWakeUpTimer] == v.armed[SwWakeUpTimer]
    ensures r.joining == v.joining && r.dest == v.dest && r.sent == v.sent && r.shell == v.shell && r.retry == v.retry
    ensures r.accLast == v.accLast && r.registered == v.registered && r.txLed == v.txLed
  {
    match AppKeyEffectOf(k, multiKey)
    case ProbePulse =>
      v.(pending := v.pending + [ReportAccel(AllAxes)],
         leds := v.leds + [SetRgb(Rgb(255, 0, 255)), Render(Application, AppLedRgb)],
         timers := v.timers + [Start(LedOffTimer, ProbePulseLedMs), Start(Equipo4Timer, ProbePeriodMs)],
         armed := v.armed[LedOffTimer := ProbePulseLedMs][Equipo4Timer := ProbePeriodMs])
    case PostAction(a) => v.(pending := v.pending + [a])
    case KeyFactoryReset => v.(calls := v.calls + [FactoryReset])
    case NoEffect => v
  }

  /** `App_SedWakeUpFromKeyBoard`: the single-shot wake-up timer (re)started. */
  ghost function WakeUpVars(v: Vars): (r: Vars)
    ensures SwWakeUpTimer in r.armed && r.armed[SwWakeUpTimer] == SwWakeUpTimeoutMs
    ensures forall t :: t != SwWakeUpTimer ==> (t in r.armed <==> t in v.armed)
  {
    v.(timers := v.timers + [Start(SwWakeUpTimer, SwWakeUpTimeoutMs)], armed := v.armed[SwWakeUpTimer := SwWakeUpTimeoutMs])
  }

  class App {
    /** `THR_MAX_INSTANCES`. */
    const maxInstances: nat
    /** `mThrInstanceId`, set to `gThrDefaultInstanceId_c` by `APP_Init`. */
    const instanceId: nat
    /** `gLedRgbEnabled_d`. */
    const rgbEnabled: bool
    /** `gKBD_KeysCount_c > 1`. */
    const multiKey: bool
    /** `gLpmIncluded_d`. */
    const lowPower: bool
    /** `gAccel_X_c`, `gAccel_Y_c`, `gAccel_Z_c`. */
    const codes: AccelCodes
    /** `ACCEL_BUFF_SIZE`. */
    const accelBuffSize: nat
    /** The addresses `IP_IF_IsMyAddr` accepts. */
    const ownAddrs: set<Addr>
    /** What `THR_GetIP6Addr(.., gMLEIDAddr_c, ..)` yields: one of the node's own addresses. */
    const mleIdAddr: Addr
    /** `APP_DEFAULT_DEST_ADDR`, the realm-local all-Thread-nodes group. */
    const defaultDest: Addr

    /** `gAppDeviceState` and `gAppDeviceMode`. */
    const deviceState: array<DeviceState>
    const deviceMode: array<DeviceMode>

    var joiningIsAppInitiated: bool
    var retryInterrupt: bool
    var coapDest: Addr
    var txLed: bool
    var accLastEvent: Byte
    var pending: seq<Action>
    ghost var armed: map<TimerSlot, nat>
    ghost var registered: seq<Text>
    ghost var leds: seq<LedOp>
    ghost var sent: seq<CoapMsg>
    ghost var timers: seq<TimerOp>
    ghost var calls: seq<ExtCall>
    ghost var shell: seq<ShellLine>

    predicate Valid() {
      deviceState.Length == maxInstances && deviceMode.Length == maxInstances && instanceId < maxInstances
      && accelBuffSize >= 1 && IsMulticast(defaultDest) && CodesDistinct(codes) && mleIdAddr in ownAddrs
    }

    ghost function State(): Vars
      reads this
    {
      Vars(joiningIsAppInitiated, retryInterrupt, coapDest, txLed, accLastEvent, pending, armed, registered,
           leds, sent, timers, calls, shell)
    }

    /** The (mode, state) of the application's own instance. */
    ghost function Dev(): Device
      requires Valid()
      reads deviceState, deviceMode
    {
      Device(deviceMode[instanceId], deviceState[instanceId])
    }

    /** The entries of every other instance are as they were. */
    twostate predicate OthersKept()
      requires Valid()
      reads deviceState, deviceMode
    {
      forall i :: 0 <= i < maxInstances && i != instanceId ==>
        deviceState[i] == old(deviceState[i]) && deviceMode[i] == old(deviceMode[i])
    }

    /**
     * `APP_Init`: instance 0 in configuration mode and factory-default state,
     * the retry flag set, no accelerometer event latched; when the instance
     * starts, the five CoAP resources registered and, with autostart and no
     * network yet, an application-initiated join.
     */
    constructor (maxInstances: nat, rgbEnabled: bool, multiKey: bool, lowPower: bool, codes: AccelCodes,
                 accelBuffSize: nat, ownAddrs: set<Addr>, mleIdAddr: Addr, defaultDest: Addr,
                 txLed: bool, started: bool, autostart: bool, connected: bool)
      requires maxInstances >= 1 && accelBuffSize >= 1 && IsMulticast(defaultDest) && CodesDistinct(codes)
      requires mleIdAddr in ownAddrs
      ensures Valid() && instanceId == 0
      ensures this.rgbEnabled == rgbEnabled && this.multiKey == multiKey && this.lowPower == lowPower
      ensures this.codes == codes && this.accelBuffSize == accelBuffSize && this.ownAddrs == ownAddrs
      ensures this.mleIdAddr == mleIdAddr && this.defaultDest == defaultDest
      ensures Dev() == Device(Configuration, FactoryDefault)
      ensures State() == Vars(started && autostart && !connected, true, UnspecifiedAddr, txLed, AccNoEvent, [], map[],
                              if started then [LedUriPath, TempUriPath, SinkUriPath, AccelUriPath, Equipo4UriPath] else [],
                              [], [], [], if started && autostart && !connected then [NwkJoin] else [], [])
    {
      this.maxInstances := maxInstances;
      this.instanceId := 0;
      this.rgbEnabled := rgbEnabled;
      this.multiKey := multiKey;
      this.lowPower := lowPower;
      this.codes := codes;
      this.accelBuffSize := accelBuffSize;
      this.ownAddrs := ownAddrs;
      this.mleIdAddr := mleIdAddr;
      this.defaultDest := defaultDest;
      this.deviceState := new DeviceState[maxInstances](_ => FactoryDefault);
      this.deviceMode := new DeviceMode[maxInstances](_ => Configuration);
      joiningIsAppInitiated := false;
      retryInterrupt := true;
      coapDest := UnspecifiedAddr;
      this.txLed := txLed;
      accLastEvent := AccNoEvent;
      pending := [];
      armed := map[];
      registered := [];
      leds := [];
      sent := [];
      timers := [];
      calls := [];
      shell := [];
      new;
      if started {
        registered := [LedUriPath, TempUriPath, SinkUriPath, AccelUriPath, Equipo4UriPath];
        if autostart && !connected {
          joiningIsAppInitiated := true;
          calls := calls + [NwkJoin];
        }
      }
    }

    /* -------------------------------------------------------------------- */
    /* Device store                                                         */
    /* -------------------------------------------------------------------- */

    /** `APP_SetMode` on the application's instance. */
    method SetMode(m: DeviceMode)
      requires Valid()
      modifies deviceMode
      ensures Dev() == old(Dev()).(mode := m) && OthersKept()
    {
      deviceMode[instanceId] := m;
    }

    /** `App_UpdateStateLeds`: store the state, then render the current mode and the new state. */
    method UpdateStateLeds(st: DeviceState)
      requires Valid()
      modifies deviceState, this`leds
      ensures Dev() == old(Dev()).(state := st) && OthersKept()
      ensures State() == old(State()).(leds := old(leds) + [Render(Dev().mode, st)])
    {
      deviceState[instanceId] := st;
      leds := leds + [Render(deviceMode[instanceId], deviceState[instanceId])];
    }

    /* -------------------------------------------------------------------- */
    /* Network and commissioning events                                     */
    /* -------------------------------------------------------------------- */

    /** `APP_JoinEventsHandler`. */
    method JoinEventsHandler(ev: NwkEvent)
      modifies this`joiningIsAppInitiated, this`calls
      ensures State() == old(State()).(
                joining := JoinStep(ev, old(joiningIsAppInitiated), retryInterrupt).initiated,
                calls := old(calls) + (if JoinStep(ev, old(joiningIsAppInitiated), retryInterrupt).rejoin then [NwkJoin] else []))
    {
      if joiningIsAppInitiated {
        if ev == JoinFailed {
          if retryInterrupt {
            calls := calls + [NwkJoin];
            return;
          }
          joiningIsAppInitiated := false;
        } else if ev == JoinSuccess {
          joiningIsAppInitiated := false;
        }
      }
    }

    /** `Stack_to_APP_Handler`. */
    method StackToAppHandler(ev: NwkEvent)
      requires Valid()
      modifies this, deviceState, deviceMode
      ensures Dev() == NwkEventDevice(ev, old(Dev()))
      ensures OthersKept()
      ensures State() == NwkEventVars(ev, old(State()), old(Dev()), lowPower, defaultDest)
    {
      match ev
      case ResetToFactoryDefault =>
        UpdateStateLeds(FactoryDefault);
      case InstanceRestoreStarted =>
        OnConnecting();
      case ConnectingStarted =>
        OnConnecting();
      case JoinSuccess =>
        JoinEventsHandler(ev);
      case JoinFailed =>
        JoinEventsHandler(ev);
      case Connected =>
        OnConnected();
      case ConnectingFailed =>
        OnNwkFailed();
      case Disconnected =>
        OnNwkFailed();
      case AllowDeviceToSleep =>
        OnSleepEvent(AllowSleep);
      case DisallowDeviceToSleep =>
        OnSleepEvent(DisallowSleep);
      case OtherNwkEvent(_) =>
    }

    /** The sleep events are passed on to power management only in a low-power build. */
    method OnSleepEvent(call: ExtCall)
      modifies this`calls
      ensures State() == old(State()).(calls := old(calls) + if lowPower then [call] else [])
    {
      if lowPower {
        calls := calls + [call];
      }
    }

    /** The shared branch for a restore or a new connection attempt: configuration mode, joining state, TX LED off. */
    method OnConnecting()
      requires Valid()
      modifies deviceState, deviceMode, this`leds, this`txLed
      ensures Dev() == Device(Configuration, JoiningOrAttaching) && OthersKept()
      ensures State() == old(State()).(leds := old(leds) + [Render(Configuration, JoiningOrAttaching)], txLed := false)
    {
      SetMode(Configuration);
      UpdateStateLeds(JoiningOrAttaching);
      txLed := false;
    }

    /**
     * The connected branch: the connected state rendered in the old mode,
     * the default destination restored, application mode, the accelerometer
     * enabled with the TX LED briefly on.
     */
    method OnConnected()
      requires Valid()
      modifies deviceState, deviceMode, this`leds, this`txLed, this`coapDest, this`calls
      ensures Dev() == Device(Application, NwkConnected) && OthersKept()
      ensures State() == old(State()).(leds := old(leds) + [Render(old(Dev()).mode, NwkConnected)], dest := defaultDest,
                                       txLed := false, calls := old(calls) + [EnableAccelerometer])
    {
      UpdateStateLeds(NwkConnected);
      coapDest := defaultDest;
      SetMode(Application);
      txLed := true;
      calls := calls + [EnableAccelerometer];
      txLed := false;
    }

    /** The shared branch for a failed or lost connection: configuration mode, failure state, probe timer stopped. */
    method OnNwkFailed()
      requires Valid()
      modifies deviceState, deviceMode, this`leds, this`timers, this`armed
      ensures Dev() == Device(Configuration, NwkFailure) && OthersKept()
      ensures State() == old(State()).(leds := old(leds) + [Render(Configuration, NwkFailure)],
                                       timers := old(timers) + [Stop(Equipo4Timer)], armed := old(armed) - {Equipo4Timer})
    {
      SetMode(Configuration);
      UpdateStateLeds(NwkFailure);
      timers := timers + [Stop(Equipo4Timer)];
      armed := armed - {Equipo4Timer};
    }

    /** `APP_Commissioning_Handler`: only the DTLS start and the joiner errors change the state. */
    method CommissioningHandler(ev: CommissioningEvent)
      requires Valid()
      modifies deviceState, this`leds
      ensures Dev() == (if CommissioningState(ev).Some? then old(Dev()).(state := CommissioningState(ev).value) else old(Dev()))
      ensures OthersKept()
      ensures State() == old(State()).(leds := old(leds) + (if CommissioningState(ev).Some?
                                                               then [Render(old(Dev()).mode, CommissioningState(ev).value)]
                                                               else []))
    {
      match CommissioningState(ev)
      case Some(st) => UpdateStateLeds(st);
      case None =>
    }

    /* -------------------------------------------------------------------- */
    /* Keyboard and low power                                               */
    /* -------------------------------------------------------------------- */

    /** `App_HandleKeyboard`: the key table of the current mode. */
    method HandleKeyboard(k: KeyEvent)
      requires Valid()
      modifies deviceState, this
      ensures Dev() == KeyDevice(k, old(Dev()), multiKey) && OthersKept()
      ensures State() == KeyVars(k, old(State()), old(Dev()), multiKey, lowPower)
    {
      if deviceMode[instanceId] == Configuration {
        ConfigModeHandleKeyboard(k);
      } else {
        AppModeHandleKeyboard(k);
      }
    }

    /** `APP_ConfigModeHandleKeyboard`. */
    method ConfigModeHandleKeyboard(k: KeyEvent)
      requires Valid() && Dev().mode == Configuration
      modifies deviceState, this`leds, this`joiningIsAppInitiated, this`calls
      ensures Dev() == KeyDevice(k, old(Dev()), multiKey) && OthersKept()
      ensures State() == KeyVars(k, old(State()), old(Dev()), multiKey, lowPower)
    {
      if ConfigStartsJoin(k, deviceState[instanceId], multiKey) {
        UpdateStateLeds(JoiningOrAttaching);
        joiningIsAppInitiated := true;
        calls := calls + [NwkJoin];
      } else if RequestsFactoryReset(k, multiKey) {
        calls := calls + [FactoryReset];
      }
    }

    /** `APP_AppModeHandleKeyboard`. */
    method AppModeHandleKeyboard(k: KeyEvent)
      requires Valid() && Dev().mode == Application
      modifies deviceState, this`leds, this`pending, this`calls, this`timers, this`armed
      ensures Dev() == KeyDevice(k, old(Dev()), multiKey) && OthersKept()
      ensures State() == KeyVars(k, old(State()), old(Dev()), multiKey, lowPower)
    {
      if lowPower {
        SedWakeUpFromKeyBoard();
      }
      AppKeyTable(k);
    }

    /** The `switch` of `APP_AppModeHandleKeyboard`. */
    method AppKeyTable(k: KeyEvent)
      requires Valid() && Dev().mode == Application
      modifies deviceState, this`leds, this`pending, this`calls, this`timers, this`armed
      ensures Dev() == KeyDevice(k, old(Dev()), multiKey) && OthersKept()
      ensures State() == AppKeyVars(k, old(State()), multiKey)
    {
      match AppKeyEffectOf(k, multiKey)
      case ProbePulse =>
        ProbePulseKey();
      case PostAction(a) =>
        pending := pending + [a];
      case KeyFactoryReset =>
        calls := calls + [FactoryReset];
      case NoEffect =>
    }

    /** The application-mode PB1 branch. */
    method ProbePulseKey()
      requires Valid() && Dev().mode == Application
      modifies deviceState, this`leds, this`pending, this`timers, this`armed
      ensures Dev() == old(Dev()).(state := AppLedRgb) && OthersKept()
      ensures State() == old(State()).(
                pending := old(pending) + [ReportAccel(AllAxes)],
                leds := old(leds) + [SetRgb(Rgb(255, 0, 255)), Render(Application, AppLedRgb)],
                timers := old(timers) + [Start(LedOffTimer, ProbePulseLedMs), Start(Equipo4Timer, ProbePeriodMs)],
                armed := old(armed)[LedOffTimer := ProbePulseLedMs][Equipo4Timer := ProbePeriodMs])
    {
      pending := pending + [ReportAccel(AllAxes)];
      leds := leds + [SetRgb(Rgb(255, 0, 255))];
      UpdateStateLeds(AppLedRgb);
      timers := timers + [Start(LedOffTimer, ProbePulseLedMs)];
      armed := armed[LedOffTimer := ProbePulseLedMs];
      timers := timers + [Start(Equipo4Timer, ProbePeriodMs)];
      armed := armed[Equipo4Timer := ProbePeriodMs];
    }

    /** `App_SedWakeUpFromKeyBoard`: keep the device awake for another five seconds. */
    method SedWakeUpFromKeyBoard()
      modifies this`timers, this`armed
      ensures State() == WakeUpVars(old(State()))
    {
      timers := timers + [Start(SwWakeUpTimer, SwWakeUpTimeoutMs)];
      armed := armed[SwWakeUpTimer := SwWakeUpTimeoutMs];
    }

    /** `APP_SwWakeUpCb`: the wake-up timer stopped and the device allowed to sleep. */
    method SwWakeUpCb()
      modifies this`timers, this`armed, this`calls
      ensures State() == old(State()).(timers := old(timers) + [Stop(SwWakeUpTimer)], armed := old(armed) - {SwWakeUpTimer},
                                       calls := old(calls) + [AllowSleep])
      ensures SwWakeUpTimer !in armed
    {
      timers := timers + [Stop(SwWakeUpTimer)];
      armed := armed - {SwWakeUpTimer};
      calls := calls + [AllowSleep];
    }

    /* -------------------------------------------------------------------- */
    /* CoAP resources                                                       */
    /* -------------------------------------------------------------------- */

    /**
     * `APP_ProcessLedCmd`: application mode, then the first matching token
     * decides the state rendered; `rgb` parses its fields and, with the RGB
     * LED, drives it before the render.
     */
    method ProcessLedCmd(cmd: Text, dataLen: Byte)
      requires Valid() && dataLen <= |cmd|
      modifies deviceState, deviceMode, this`leds
      ensures Dev() == LedCommandDevice(cmd, dataLen, rgbEnabled, old(Dev())) && OthersKept()
      ensures leds == old(leds) + LedCommandOps(cmd, dataLen, rgbEnabled)
      ensures State() == old(State()).(leds := leds)
    {
      SetMode(Application);
      var c := LedCommandOf(cmd);
      if c == CmdRgb {
        ProcessRgbCmd(cmd, dataLen);
      } else if c != CmdUnknown {
        // on, off, toggle, flash and color wheel only pick the state to show
        UpdateStateLeds(LedTargetState(cmd, dataLen, rgbEnabled).value);
      }
    }

    /**
     * The `rgb` branch of `APP_ProcessLedCmd`: the fields parsed, then either
     * the RGB LED driven to that colour and the RGB state shown, or, without
     * the RGB LED, the LED on exactly when some component is non-zero.
     */
    method ProcessRgbCmd(cmd: Text, dataLen: Byte)
      requires Valid() && dataLen <= |cmd|
      modifies deviceState, this`leds
      ensures var st := if rgbEnabled then AppLedRgb else if ParseRgbSpec(cmd, dataLen) != NoColour then AppLedOn else AppLedOff;
              Dev() == old(Dev()).(state := st) && OthersKept()
              && State() == old(State()).(leds := old(leds) + (if rgbEnabled then [SetRgb(ParseRgbSpec(cmd, dataLen))] else [])
                                                            + [Render(old(Dev()).mode, st)])
    {
      var red, green, blue := ParseRgb(cmd, dataLen);
      if rgbEnabled {
        leds := leds + [SetRgb(Rgb(red, green, blue))];
        UpdateStateLeds(AppLedRgb);
      } else {
        var st := AppLedOff;
        if red != 0 || green != 0 || blue != 0 {
          st := AppLedOn;
        }
        UpdateStateLeds(st);
      }
    }

    /**
     * `APP_CoapLedCb`: a new POST with a payload is processed (its length
     * truncated to the `uint8_t` parameter); a confirmable request that did not
     * fail is acknowledged with 2.04 Changed and no payload.
     */
    method CoapLedCb(status: CoapStatus, payload: Option<Text>, session: Session)
      requires Valid()
      modifies deviceState, deviceMode, this`leds, this`sent
      ensures Dev() == LedCbDevice(status, payload, session.code, rgbEnabled, old(Dev())) && OthersKept()
      ensures State() == old(State()).(
                leds := old(leds) + (if LedCbProcesses(status, payload, session.code)
                                     then LedCommandOps(payload.value, |payload.value| % 0x100, rgbEnabled) else []),
                sent := old(sent) + (if LedCbAcks(status, session.msgType) then [AckChanged(session.remote, [])] else []))
    {
      if payload.Some? && status == Success && session.code == Post {
        ProcessLedCmd(payload.value, |payload.value| % 0x100);
      }
      if status != Failure && session.msgType == Confirmable {
        sent := sent + [AckChanged(session.remote, [])];
      }
    }

    /**
     * `APP_CoapTempCb`: a GET reads the sensor and a confirmable GET carries
     * the reading in its 2.04 ACK; a new POST with a payload echoes at most
     * nine bytes of it to the shell with the sender's address; any other
     * confirmable request gets an empty 2.04 ACK.
     */
    method CoapTempCb(status: CoapStatus, payload: Option<Text>, session: Session, reading: Text)
      modifies this`calls, this`shell, this`sent
      ensures State() == old(State()).(
                calls := old(calls) + (if session.code == Get then [ReadTemp] else []),
                shell := old(shell) + (if session.code == Post && status == Success && payload.Some?
                                       then [Echo(payload.value[..EchoLen(|payload.value|, TempEchoBufferSize)], session.remote)]
                                       else []),
                sent := old(sent) + (if session.msgType == Confirmable
                                     then [AckChanged(session.remote, if session.code == Get then reading else [])]
                                     else []))
    {
      if session.code == Get {
        calls := calls + [ReadTemp];
      } else if session.code == Post && status == Success {
        if payload.Some? {
          var n := EchoLen(|payload.value|, TempEchoBufferSize);
          shell := shell + [Echo(payload.value[..n], session.remote)];
        }
      }
      if session.msgType == Confirmable {
        if session.code == Get {
          sent := sent + [AckChanged(session.remote, reading)];
        } else {
          sent := sent + [AckChanged(session.remote, [])];
        }
      }
    }

    /**
     * `APP_CoapSinkCb`: a new request with a payload starting `create` makes
     * the sender the destination of later reports, one starting `release`
     * restores the default destination; a confirmable request is acknowledged.
     */
    method CoapSinkCb(status: CoapStatus, payload: Option<Text>, session: Session)
      modifies this`coapDest, this`sent
      ensures State() == old(State()).(
                dest := SinkDestination(status, payload, session.remote, old(coapDest), defaultDest),
                sent := old(sent) + (if session.msgType == Confirmable then [AckChanged(session.remote, [])] else []))
    {
      if payload.Some? && status == Success {
        if HasPrefix(payload.value, "create") {
          coapDest := session.remote;
        }
        if HasPrefix(payload.value, "release") {
          LocalDataSinkRelease();
        }
      }
      if session.msgType == Confirmable {
        sent := sent + [AckChanged(session.remote, [])];
      }
    }

    /**
     * `APP_CoapAccelCb`: a GET reads the axis its payload names and a
     * confirmable GET carries the reading in its 2.04 ACK; a new POST with a
     * payload is echoed to the shell, clamped so that the text and its NUL fit
     * the `ACCEL_BUFF_SIZE` buffer; any other confirmable request gets an
     * empty 2.04 ACK.
     */
    method CoapAccelCb(status: CoapStatus, payload: Option<Text>, session: Session, reading: Text)
      requires Valid()
      modifies this`calls, this`shell, this`sent
      ensures State() == old(State()).(
                calls := old(calls) + (if session.code == Get then [ReadAccel(AxisRequested(payload))] else []),
                shell := old(shell) + (if session.code == Post && status == Success && payload.Some?
                                       then [Echo(payload.value[..EchoLen(|payload.value|, accelBuffSize)], session.remote)]
                                       else []),
                sent := old(sent) + (if session.msgType == Confirmable
                                     then [AckChanged(session.remote, if session.code == Get then reading else [])]
                                     else []))
    {
      if session.code == Get {
        var axis := AxisRequested(payload);
        calls := calls + [ReadAccel(axis)];
      } else if session.code == Post && status == Success {
        if payload.Some? {
          var n := EchoLen(|payload.value|, accelBuffSize);
          shell := shell + [Echo(payload.value[..n], session.remote)];
        }
      }
      if session.msgType == Confirmable {
        if session.code == Get {
          sent := sent + [AckChanged(session.remote, reading)];
        } else {
          sent := sent + [AckChanged(session.remote, [])];
        }
      }
    }

    /**
     * `APP_CoapEquipo4Cb`: it only writes the payload and the sender to the
     * shell; it changes no state and sends nothing, not even the ACK of a
     * confirmable request.
     */
    method CoapEquipo4Cb(status: CoapStatus, payload: Option<Text>, session: Session)
      ensures State() == old(State())
    {
    }

    /** `APP_CoapGenericCallback`: a confirmable temperature report that got no ACK is posted again. */
    method CoapGenericCallback(status: CoapStatus, path: Text)
      modifies this`pending
      ensures State() == old(State()).(pending := old(pending) + (if status == Failure && RetryMatches(path) then [ReportTemp] else []))
    {
      if status == Failure {
        if RetryMatches(path) {
          pending := pending + [ReportTemp];
        }
      }
    }

    /* -------------------------------------------------------------------- */
    /* Reports and outbound commands                                        */
    /* -------------------------------------------------------------------- */

    /**
     * The shared body of `APP_ReportTemp` and `APP_ReportAccel`: unless the
     * destination is the node itself, and when a session opens, the reading is
     * posted to `path` (non-confirmable to a group, confirmable with the
     * generic callback to a single node); the reading is printed either way.
     */
    method PostReading(path: Text, reading: Text, sessionOk: bool)
      modifies this`sent, this`shell
      ensures State() == old(State()).(
                sent := old(sent) + (if coapDest !in ownAddrs && sessionOk then [OutboundPost(coapDest, path, reading)] else []),
                shell := old(shell) + [Report(reading)])
    {
      if coapDest !in ownAddrs {
        if sessionOk {
          var msg := if IsMulticast(coapDest) then Request(coapDest, false, path, reading, NoCallback)
                     else Request(coapDest, true, path, reading, GenericCallback);
          sent := sent + [msg];
        }
      }
      shell := shell + [Report(reading)];
    }

    /** `APP_ReportTemp`, with the sensor's string as `reading`. */
    method ReportTemperature(reading: Text, sessionOk: bool)
      modifies this`calls, this`sent, this`shell
      ensures State() == old(State()).(
                calls := old(calls) + [ReadTemp],
                sent := old(sent) + (if coapDest !in ownAddrs && sessionOk then [OutboundPost(coapDest, TempUriPath, reading)] else []),
                shell := old(shell) + [Report(reading)])
    {
      calls := calls + [ReadTemp];
      PostReading(TempUriPath, reading, sessionOk);
    }

    /** `APP_ReportAccel` for `axis`, with the sensor's string as `reading`. */
    method ReportAcceleration(axis: Axis, reading: Text, sessionOk: bool)
      modifies this`calls, this`sent, this`shell
      ensures State() == old(State()).(
                calls := old(calls) + [ReadAccel(axis)],
                sent := old(sent) + (if coapDest !in ownAddrs && sessionOk then [OutboundPost(coapDest, AccelUriPath, reading)] else []),
                shell := old(shell) + [Report(reading)])
    {
      calls := calls + [ReadAccel(axis)];
      PostReading(AccelUriPath, reading, sessionOk);
    }

    /**
     * `APP_SendDataSinkCommand`: when a session opens, `cmd` is posted
     * non-confirmable to the default group; the result is the send status,
     * and failure when no session opened.
     */
    method SendDataSinkCommand(cmd: Text, sessionOk: bool, sendOk: bool) returns (ok: bool)
      modifies this`sent
      ensures ok == (sessionOk && sendOk)
      ensures State() == old(State()).(sent := old(sent) + (if sessionOk then [Request(defaultDest, false, SinkUriPath, cmd, NoCallback)] else []))
    {
      ok := false;
      if sessionOk {
        sent := sent + [Request(defaultDest, false, SinkUriPath, cmd, NoCallback)];
        ok := sendOk;
      }
    }

    /**
     * `APP_SendDataSinkCreate`: once the group has the command, the destination
     * becomes the node's own mesh-local EID, so its own reports are only printed.
     */
    method SendDataSinkCreate(sessionOk: bool, sendOk: bool)
      modifies this`sent, this`calls, this`coapDest
      ensures State() == old(State()).(
                sent := old(sent) + (if sessionOk then [Request(defaultDest, false, SinkUriPath, DataSinkCreateCommand, NoCallback)] else []),
                calls := old(calls) + (if sessionOk && sendOk then [GetMleIdAddr] else []),
                dest := if sessionOk && sendOk then mleIdAddr else old(coapDest))
      ensures Valid() && sessionOk && sendOk ==> coapDest in ownAddrs
    {
      var ok := SendDataSinkCommand(DataSinkCreateCommand, sessionOk, sendOk);
      if ok {
        calls := calls + [GetMleIdAddr];
        coapDest := mleIdAddr;
      }
    }

    /** `APP_SendDataSinkRelease`: once the group has the command, the default destination is restored here too. */
    method SendDataSinkRelease(sessionOk: bool, sendOk: bool)
      modifies this`sent, this`coapDest
      ensures State() == old(State()).(
                sent := old(sent) + (if sessionOk then [Request(defaultDest, false, SinkUriPath, DataSinkReleaseCommand, NoCallback)] else []),
                dest := if sessionOk && sendOk then defaultDest else old(coapDest))
    {
      var ok := SendDataSinkCommand(DataSinkReleaseCommand, sessionOk, sendOk);
      if ok {
        LocalDataSinkRelease();
      }
    }

    /** `APP_LocalDataSinkRelease`: reports go to the default group again. */
    method LocalDataSinkRelease()
      modifies this`coapDest
      ensures State() == old(State()).(dest := defaultDest)
    {
      coapDest := defaultDest;
    }

    /**
     * `APP_SendLedCommand`: a command for the node itself is applied here; for
     * another node, when a session opens, it is posted to `/led`, and for a
     * group it is also applied here (before the post).
     */
    method SendLedCommand(cmd: Text, sessionOk: bool)
      requires Valid() && |cmd| < 0x100
      modifies deviceState, deviceMode, this`leds, this`sent
      ensures Dev() == (if LedAppliedLocally(old(coapDest), ownAddrs, sessionOk)
                        then LedCommandDevice(cmd, |cmd|, rgbEnabled, old(Dev())) else old(Dev()))
      ensures OthersKept()
      ensures State() == old(State()).(
                leds := old(leds) + (if LedAppliedLocally(old(coapDest), ownAddrs, sessionOk)
                                     then LedCommandOps(cmd, |cmd|, rgbEnabled) else []),
                sent := old(sent) + (if LedPosted(old(coapDest), ownAddrs, sessionOk)
                                     then [OutboundPost(old(coapDest), LedUriPath, cmd)] else []))
    {
      if coapDest !in ownAddrs {
        if sessionOk {
          if !IsMulticast(coapDest) {
            sent := sent + [Request(coapDest, true, LedUriPath, cmd, GenericCallback)];
          } else {
            ProcessLedCmd(cmd, |cmd|);
            sent := sent + [Request(coapDest, false, LedUriPath, cmd, NoCallback)];
          }
        }
      } else {
        ProcessLedCmd(cmd, |cmd|);
      }
    }

    /**
     * `APP_SendLedRgbOn` with the colour drawn from the random source (each
     * component in 1..255): where it is applied locally it drives the RGB LED
     * to that colour, or without the RGB LED turns the LED on.
     */
    method SendLedRgbOn(c: Rgb, sessionOk: bool)
      requires Valid() && c.red >= 1 && c.green >= 1 && c.blue >= 1
      modifies deviceState, deviceMode, this`leds, this`sent
      ensures OthersKept()
      ensures Dev() == (if LedAppliedLocally(old(coapDest), ownAddrs, sessionOk)
                        then Device(Application, if rgbEnabled then AppLedRgb else AppLedOn) else old(Dev()))
      ensures State() == old(State()).(
                leds := old(leds) + (if !LedAppliedLocally(old(coapDest), ownAddrs, sessionOk) then []
                                     else if rgbEnabled then [SetRgb(c), Render(Application, AppLedRgb)]
                                     else [Render(Application, AppLedOn)]),
                sent := old(sent) + (if LedPosted(old(coapDest), ownAddrs, sessionOk)
                                     then [OutboundPost(old(coapDest), LedUriPath, RgbCommand(c))] else []))
    {
      BuiltRgbCommandSetsColour(c, Dev());
      RgbCommandRoundTrip(c);
      SendLedCommand(RgbCommand(c), sessionOk);
    }

    /** `APP_SendLedRgbOff`: the all-zero `rgb` command; applied locally it turns the colour off. */
    method SendLedRgbOff(sessionOk: bool)
      requires Valid()
      modifies deviceState, deviceMode, this`leds, this`sent
      ensures OthersKept()
      ensures Dev() == (if LedAppliedLocally(old(coapDest), ownAddrs, sessionOk)
                        then Device(Application, if rgbEnabled then AppLedRgb else AppLedOff) else old(Dev()))
      ensures State() == old(State()).(
                leds := old(leds) + (if !LedAppliedLocally(old(coapDest), ownAddrs, sessionOk) then []
                                     else if rgbEnabled then [SetRgb(NoColour), Render(Application, AppLedRgb)]
                                     else [Render(Application, AppLedOff)]),
                sent := old(sent) + (if LedPosted(old(coapDest), ownAddrs, sessionOk)
                                     then [OutboundPost(old(coapDest), LedUriPath, RgbCommand(NoColour))] else []))
    {
      BuiltRgbCommandSetsColour(NoColour, Dev());
      RgbCommandRoundTrip(NoColour);
      SendLedCommand(RgbCommand(NoColour), sessionOk);
    }

    /** `APP_SendLedFlash`. */
    method SendLedFlash(sessionOk: bool)
      requires Valid()
      modifies deviceState, deviceMode, this`leds, this`sent
      ensures OthersKept()
      ensures Dev() == (if LedAppliedLocally(old(coapDest), ownAddrs, sessionOk) then Device(Application, AppLedFlash) else old(Dev()))
      ensures State() == old(State()).(
                leds := old(leds) + (if LedAppliedLocally(old(coapDest), ownAddrs, sessionOk)
                                     then [Render(Application, AppLedFlash)] else []),
                sent := old(sent) + (if LedPosted(old(coapDest), ownAddrs, sessionOk)
                                     then [OutboundPost(old(coapDest), LedUriPath, FlashCommand)] else []))
    {
      FixedCommandsClassify();
      SendLedCommand(FlashCommand, sessionOk);
    }

    /** `APP_SendLedColorWheel`: the colour wheel, or flashing without the RGB LED. */
    method SendLedColorWheel(sessionOk: bool)
      requires Valid()
      modifies deviceState, deviceMode, this`leds, this`sent
      ensures OthersKept()
      ensures Dev() == (if LedAppliedLocally(old(coapDest), ownAddrs, sessionOk)
                        then Device(Application, if rgbEnabled then AppLedColorWheel else AppLedFlash) else old(Dev()))
      ensures State() == old(State()).(
                leds := old(leds) + (if LedAppliedLocally(old(coapDest), ownAddrs, sessionOk)
                                     then [Render(Application, if rgbEnabled then AppLedColorWheel else AppLedFlash)] else []),
                sent := old(sent) + (if LedPosted(old(coapDest), ownAddrs, sessionOk)
                                     then [OutboundPost(old(coapDest), LedUriPath, ColorWheelCommand)] else []))
    {
      FixedCommandsClassify();
      SendLedCommand(ColorWheelCommand, sessionOk);
    }

    /* -------------------------------------------------------------------- */
    /* Timers and the accelerometer                                         */
    /* -------------------------------------------------------------------- */

    /** `timerTurnOffLEDsCB`: the single-shot LED-off timer has expired; all LEDs off. */
    method TimerTurnOffLedsCb()
      modifies this`leds, this`armed
      ensures State() == old(State()).(leds := old(leds) + [AllOff], armed := old(armed) - {LedOffTimer})
    {
      armed := armed - {LedOffTimer};
      leds := leds + [AllOff];
    }

    /** `APP_TimmerEquipo4Cb`: print the probe text and re-arm the one-second probe timer. */
    method TimmerEquipo4Cb()
      modifies this`timers, this`armed, this`shell
      ensures State() == old(State()).(
                timers := old(timers) + [Stop(Equipo4Timer), Start(Equipo4Timer, ProbePeriodMs)],
                armed := old(armed)[Equipo4Timer := ProbePeriodMs],
                shell := old(shell) + [Report(ProbeText)])
      ensures Equipo4Timer in armed
    {
      timers := timers + [Stop(Equipo4Timer)];
      armed := armed - {Equipo4Timer};
      shell := shell + [Report(ProbeText)];
      timers := timers + [Start(Equipo4Timer, ProbePeriodMs)];
      armed := armed[Equipo4Timer := ProbePeriodMs];
    }

    /**
     * `Accel_Callback`: an event is taken only when none is latched; it is
     * latched, handled, and the latch cleared again.
     */
    method AccelCallback(e: Byte)
      requires Valid()
      modifies deviceState, this`accLastEvent, this`pending, this`leds, this`timers, this`armed
      ensures OthersKept()
      ensures old(accLastEvent) != AccNoEvent ==> Dev() == old(Dev()) && State() == old(State())
      ensures old(accLastEvent) == AccNoEvent ==>
                Dev() == old(Dev()).(state := AppLedRgb)
                && State() == old(State()).(
                     pending := old(pending) + AccelReports(codes, e),
                     leds := old(leds) + [SetRgb(AxisColour(AxisOfEvent(codes, e))), Render(old(Dev()).mode, AppLedRgb)],
                     timers := old(timers) + [Stop(LedOffTimer), Start(LedOffTimer, AccelPulseLedMs)],
                     armed := old(armed)[LedOffTimer := AccelPulseLedMs])
    {
      if accLastEvent == AccNoEvent {
        accLastEvent := e;
        AccCallback();
      }
    }

    /**
     * `APP_AccCallback`: the LED-off timer stopped, a report posted for the
     * latched axis, that axis's colour pulsed, the latch cleared and the
     * LED-off timer started for 100 ms.
     */
    method AccCallback()
      requires Valid()
      modifies deviceState, this`accLastEvent, this`pending, this`leds, this`timers, this`armed
      ensures Dev() == old(Dev()).(state := AppLedRgb) && OthersKept()
      ensures State() == old(State()).(
                accLast := AccNoEvent,
                pending := old(pending) + AccelReports(codes, old(accLastEvent)),
                leds := old(leds) + [SetRgb(AxisColour(AxisOfEvent(codes, old(accLastEvent)))), Render(old(Dev()).mode, AppLedRgb)],
                timers := old(timers) + [Stop(LedOffTimer), Start(LedOffTimer, AccelPulseLedMs)],
                armed := old(armed)[LedOffTimer := AccelPulseLedMs])
    {
      timers := timers + [Stop(LedOffTimer)];
      armed := armed - {LedOffTimer};
      PulseAxis(AxisOfEvent(codes, accLastEvent));
      accLastEvent := AccNoEvent;
      timers := timers + [Start(LedOffTimer, AccelPulseLedMs)];
      armed := armed[LedOffTimer := AccelPulseLedMs];
    }

    /** The `switch` of `APP_AccCallback` and the pulse after it: a report for a named axis, and that axis's colour. */
    method PulseAxis(axis: Axis)
      requires Valid()
      modifies deviceState, this`pending, this`leds
      ensures Dev() == old(Dev()).(state := AppLedRgb) && OthersKept()
      ensures State() == old(State()).(
                pending := old(pending) + (if axis == NoAxis then [] else [ReportAccel(axis)]),
                leds := old(leds) + [SetRgb(AxisColour(axis)), Render(old(Dev()).mode, AppLedRgb)])
    {
      if axis != NoAxis {
        pending := pending + [ReportAccel(axis)];
      }
      leds := leds + [SetRgb(AxisColour(axis))];
      UpdateStateLeds(AppLedRgb);
    }
  }
}
