/**
 * The decisions the end-device handlers make, as functions of their inputs:
 * which (mode, state) a network or commissioning event leads to, the join
 * retry rule, what a key does in each mode, when a CoAP request is acted on
 * and acknowledged, which destination the data-sink resource selects, how
 * an outbound report is delivered, which axis a request or an accelerometer
 * event names, and how much of a received payload is echoed.
 */
module AppPolicy {
  import opened AppTypes
  import opened LedCommand

  /* ---------------------------------------------------------------------- */
  /* Network events (Stack_to_APP_Handler)                                  */
  /* ---------------------------------------------------------------------- */

  /** The (mode, state) a network event leaves the device in. */
  function NwkEventDevice(ev: NwkEvent, d: Device): Device {
    match ev
    case ResetToFactoryDefault => d.(state := FactoryDefault)
    case InstanceRestoreStarted => Device(Configuration, JoiningOrAttaching)
    case ConnectingStarted => Device(Configuration, JoiningOrAttaching)
    case Connected => Device(Application, NwkConnected)
    case ConnectingFailed => Device(Configuration, NwkFailure)
    case Disconnected => Device(Configuration, NwkFailure)
    case _ => d
  }

  /**
   * The renders a network event makes, each with the mode current at the time:
   * `Connected` renders before it switches to application mode, the failure
   * and start events after they switch to configuration mode.
   */
  function NwkEventRenders(ev: NwkEvent, d: Device): seq<LedOp> {
    match ev
    case ResetToFactoryDefault => [Render(d.mode, FactoryDefault)]
    case InstanceRestoreStarted => [Render(Configuration, JoiningOrAttaching)]
    case ConnectingStarted => [Render(Configuration, JoiningOrAttaching)]
    case Connected => [Render(d.mode, NwkConnected)]
    case ConnectingFailed => [Render(Configuration, NwkFailure)]
    case Disconnected => [Render(Configuration, NwkFailure)]
    case _ => []
  }

  /** Events after which the device no longer depends on where it was. */
  predicate Settles(ev: NwkEvent) {
    ev.InstanceRestoreStarted? || ev.ConnectingStarted? || ev.Connected? || ev.ConnectingFailed? || ev.Disconnected?
  }

  /**
   * The lifecycle events fix the whole device, a factory reset fixes only the
   * state and keeps the mode, every other event leaves the device as it was;
   * each render shows the state the event leaves behind.
   */
  lemma NwkEventTransitions(ev: NwkEvent, d: Device, d': Device)
    ensures Settles(ev) ==> NwkEventDevice(ev, d) == NwkEventDevice(ev, d')
    ensures ev.ResetToFactoryDefault? ==> NwkEventDevice(ev, d) == Device(d.mode, FactoryDefault)
    ensures !Settles(ev) && !ev.ResetToFactoryDefault? ==> NwkEventDevice(ev, d) == d && NwkEventRenders(ev, d) == []
    ensures forall op :: op in NwkEventRenders(ev, d) ==> op.Render? && op.state == NwkEventDevice(ev, d).state
    ensures |NwkEventRenders(ev, d)| <= 1
  {
  }

  /** `Connected` shows the connected state in the mode the device had before, then switches to application mode. */
  lemma ConnectedRendersOldMode(d: Device)
    requires d.mode == Configuration
    ensures NwkEventRenders(Connected, d) == [Render(Configuration, NwkConnected)]
    ensures NwkEventDevice(Connected, d).mode == Application
  {
  }

  /** The device after a run of network events. */
  function NwkRun(evs: seq<NwkEvent>, d: Device): Device
    decreases |evs|
  {
    if evs == [] then d else NwkRun(evs[1..], NwkEventDevice(evs[0], d))
  }

  /** A disconnect followed by events that neither settle nor reset leaves the device failed in configuration mode. */
  lemma NwkRunEndsAfterDisconnect(evs: seq<NwkEvent>, d: Device)
    requires forall i :: 0 <= i < |evs| ==> !Settles(evs[i]) && !evs[i].ResetToFactoryDefault?
    ensures NwkRun([Disconnected] + evs, d) == Device(Configuration, NwkFailure)
  {
    NwkRunKeeps(evs, Device(Configuration, NwkFailure));
    assert ([Disconnected] + evs)[1..] == evs;
  }

  /** Events that neither settle nor reset leave the device untouched, however many arrive. */
  lemma {:induction false} NwkRunKeeps(evs: seq<NwkEvent>, d: Device)
    requires forall i :: 0 <= i < |evs| ==> !Settles(evs[i]) && !evs[i].ResetToFactoryDefault?
    ensures NwkRun(evs, d) == d
    decreases |evs|
  {
    if evs != [] {
      NwkEventTransitions(evs[0], d, d);
      NwkRunKeeps(evs[1..], d);
    }
  }

  /**
   * The calls into the stack and power management a network event makes:
   * `Connected` enables the accelerometer, a join confirmation may rejoin, and
   * with low power the sleep events are passed on.
   */
  function NwkEventCalls(ev: NwkEvent, initiated: bool, retry: bool, lowPower: bool): seq<ExtCall> {
    match ev
    case Connected => [EnableAccelerometer]
    case JoinSuccess => if JoinStep(ev, initiated, retry).rejoin then [NwkJoin] else []
    case JoinFailed => if JoinStep(ev, initiated, retry).rejoin then [NwkJoin] else []
    case AllowDeviceToSleep => if lowPower then [AllowSleep] else []
    case DisallowDeviceToSleep => if lowPower then [DisallowSleep] else []
    case _ => []
  }

  /** Joiner events (APP_Commissioning_Handler): the state they render, if any. */
  function CommissioningState(ev: CommissioningEvent): (r: Option<DeviceState>)
    ensures r == Some(JoiningOrAttaching) <==> ev.JoinerDtlsSessionStarted?
    ensures r == Some(FactoryDefault) <==> ev.JoinerDtlsError? || ev.JoinerError?
    ensures r.None? || r == Some(JoiningOrAttaching) || r == Some(FactoryDefault)
  {
    match ev
    case JoinerDtlsSessionStarted => Some(JoiningOrAttaching)
    case JoinerDtlsError => Some(FactoryDefault)
    case JoinerError => Some(FactoryDefault)
    case _ => None
  }

  /* ---------------------------------------------------------------------- */
  /* Join retry (APP_JoinEventsHandler)                                     */
  /* ---------------------------------------------------------------------- */

  /** The app-initiated flag afterwards, and whether a new join request is made. */
  datatype JoinOutcome = JoinOutcome(initiated: bool, rejoin: bool)

  function JoinStep(ev: NwkEvent, initiated: bool, retry: bool): (r: JoinOutcome)
    ensures r.rejoin ==> r.initiated
  {
    if !initiated then JoinOutcome(false, false)
    else if ev == JoinFailed then (if retry then JoinOutcome(true, true) else JoinOutcome(false, false))
    else if ev == JoinSuccess then JoinOutcome(false, false)
    else JoinOutcome(initiated, false)
  }

  /** The rule for one join confirmation, in both directions. */
  lemma JoinStepRule(ev: NwkEvent, initiated: bool, retry: bool)
    requires ev == JoinFailed || ev == JoinSuccess
    ensures JoinStep(ev, initiated, retry).rejoin <==> initiated && ev == JoinFailed && retry
    ensures JoinStep(ev, initiated, retry).initiated <==> initiated && ev == JoinFailed && retry
  {
  }

  /** Join requests made by a run of join confirmations. */
  function JoinRequests(evs: seq<NwkEvent>, initiated: bool, retry: bool): nat
    decreases |evs|
  {
    if evs == [] then 0
    else
      var o := JoinStep(evs[0], initiated, retry);
      (if o.rejoin then 1 else 0) + JoinRequests(evs[1..], o.initiated, retry)
  }

  /** With retries allowed, an app-initiated join asks again after every failure. */
  lemma {:induction false} RetryRejoinsEveryFailure(evs: seq<NwkEvent>)
    requires forall i :: 0 <= i < |evs| ==> evs[i] == JoinFailed
    ensures JoinRequests(evs, true, true) == |evs|
    decreases |evs|
  {
    if evs != [] {
      RetryRejoinsEveryFailure(evs[1..]);
    }
  }

  /** A join the application did not start is never retried. */
  lemma {:induction false} NoRetryUnlessAppInitiated(evs: seq<NwkEvent>, retry: bool)
    ensures JoinRequests(evs, false, retry) == 0
    decreases |evs|
  {
    if evs != [] {
      NoRetryUnlessAppInitiated(evs[1..], retry);
    }
  }

  /* ---------------------------------------------------------------------- */
  /* Keyboard                                                               */
  /* ---------------------------------------------------------------------- */

  /** PB1 always exists; PB2 to PB4 only on boards with more than one key. */
  predicate ButtonExists(b: nat, multiKey: bool) {
    b == 1 || (multiKey && 2 <= b <= 4)
  }

  /** In configuration mode a short press joins from the two idle states. */
  predicate ConfigStartsJoin(k: KeyEvent, st: DeviceState, multiKey: bool) {
    k.Press? && ButtonExists(k.button, multiKey) && (st == FactoryDefault || st == NwkFailure)
  }

  /** A very long press of an existing key asks for a factory reset, in either mode. */
  predicate RequestsFactoryReset(k: KeyEvent, multiKey: bool) {
    k.VeryLongPress? && ButtonExists(k.button, multiKey)
  }

  /** What a key does in application mode. */
  datatype AppKeyEffect =
    | ProbePulse          // PB1: accelerometer report, magenta pulse, LED-off and probe timers
    | PostAction(action: Action)
    | KeyFactoryReset
    | NoEffect

  function AppKeyEffectOf(k: KeyEvent, multiKey: bool): (r: AppKeyEffect)
    ensures r.KeyFactoryReset? <==> RequestsFactoryReset(k, multiKey)
  {
    match k
    case Press(b) =>
      if b == 1 then ProbePulse
      else if multiKey && b == 2 then PostAction(ReportTemp)
      else if multiKey && b == 3 then PostAction(SendLedRgbOn)
      else if multiKey && b == 4 then PostAction(SendLedRgbOff)
      else NoEffect
    case LongPress(b) =>
      if b == 1 then PostAction(SendDataSinkRelease)
      else if multiKey && b == 2 then PostAction(LocalDataSinkRelease)
      else if multiKey && b == 3 then PostAction(SendLedFlash)
      else if multiKey && b == 4 then PostAction(SendLedColorWheel)
      else NoEffect
    case VeryLongPress(b) => if ButtonExists(b, multiKey) then KeyFactoryReset else NoEffect
    case OtherKeyEvent(_) => NoEffect
  }

  /**
   * Only existing keys do anything; different keys post different actions;
   * with one key the only posted action is the remote data-sink release.
   */
  lemma AppKeyEffects(k: KeyEvent, k': KeyEvent, multiKey: bool)
    ensures !AppKeyEffectOf(k, multiKey).NoEffect? ==> !k.OtherKeyEvent? && ButtonExists(k.button, multiKey)
    ensures AppKeyEffectOf(k, multiKey).PostAction? && AppKeyEffectOf(k, multiKey) == AppKeyEffectOf(k', multiKey) ==> k == k'
    ensures !multiKey && AppKeyEffectOf(k, multiKey).PostAction? ==> AppKeyEffectOf(k, multiKey).action == SendDataSinkRelease
  {
  }

  /* ---------------------------------------------------------------------- */
  /* CoAP request handlers                                                  */
  /* ---------------------------------------------------------------------- */

  /** `/led` acts on a request only with a payload, a new (not duplicate) message, and POST. */
  predicate LedCbProcesses(status: CoapStatus, payload: Option<Text>, code: CoapCode) {
    payload.Some? && status == Success && code == Post
  }

  /** `/led` acknowledges a confirmable request unless the session failed. */
  predicate LedCbAcks(status: CoapStatus, msgType: CoapMsgType) {
    status != Failure && msgType == Confirmable
  }

  /** The device after `APP_ProcessLedCmd`: application mode, and the command's state if it names one. */
  function LedCommandDevice(cmd: Text, dataLen: Byte, rgbEnabled: bool, d: Device): (r: Device)
    requires dataLen <= |cmd|
    ensures r.mode == Application
    ensures r.state == d.state <== LedCommandOf(cmd) == CmdUnknown
  {
    match LedTargetState(cmd, dataLen, rgbEnabled)
    case Some(st) => Device(Application, st)
    case None => Device(Application, d.state)
  }

  /** The device after the `/led` handler. */
  function LedCbDevice(status: CoapStatus, payload: Option<Text>, code: CoapCode, rgbEnabled: bool, d: Device): (r: Device)
    ensures !LedCbProcesses(status, payload, code) ==> r == d
    ensures LedCbProcesses(status, payload, code) ==> r.mode == Application
  {
    if LedCbProcesses(status, payload, code) then
      LedCommandDevice(payload.value, |payload.value| % 0x100, rgbEnabled, d)
    else d
  }

  /**
   * A retransmission of a request already handled is acknowledged again when
   * confirmable but does not change the device a second time.
   */
  lemma DuplicateLedRequest(payload: Option<Text>, code: CoapCode, msgType: CoapMsgType, rgbEnabled: bool, d: Device)
    ensures LedCbDevice(Duplicate, payload, code, rgbEnabled, LedCbDevice(Success, payload, code, rgbEnabled, d))
            == LedCbDevice(Success, payload, code, rgbEnabled, d)
    ensures LedCbAcks(Duplicate, msgType) <==> msgType == Confirmable
    ensures !LedCbAcks(Failure, msgType)
  {
  }

  /** A command the device built for itself sets the colour it was built with. */
  lemma BuiltRgbCommandSetsColour(c: Rgb, d: Device)
    ensures LedCommandDevice(RgbCommand(c), 19, true, d) == Device(Application, AppLedRgb)
    ensures LedCommandOps(RgbCommand(c), 19, true) == [SetRgb(c), Render(Application, AppLedRgb)]
    ensures LedCommandDevice(RgbCommand(c), 19, false, d).state == (if c == NoColour then AppLedOff else AppLedOn)
  {
    RgbCommandRoundTrip(c);
  }

  /** The two `/sink` commands. */
  datatype SinkCmd = SinkCreate | SinkRelease | SinkNone

  /** Both tokens are compared at the start of the payload, so at most one of them matches. */
  function SinkCommandOf(p: Text): (r: SinkCmd)
    ensures r == SinkCreate <==> HasPrefix(p, "create")
    ensures r == SinkRelease <==> HasPrefix(p, "release")
  {
    if HasPrefix(p, "create") then
      assert p[0] == "create"[0];
      SinkCreate
    else if HasPrefix(p, "release") then SinkRelease
    else SinkNone
  }

  /** The destination after the `/sink` handler: only a new request with a payload can change it. */
  function SinkDestination(status: CoapStatus, payload: Option<Text>, remote: Addr, dest: Addr, defaultDest: Addr): (r: Addr)
    ensures r == dest || r == remote || r == defaultDest
    ensures status != Success || payload.None? ==> r == dest
  {
    if payload.Some? && status == Success then
      match SinkCommandOf(payload.value)
      case SinkCreate => remote
      case SinkRelease => defaultDest
      case SinkNone => dest
    else dest
  }

  /** Release is idempotent, and a release after a create returns to the default destination. */
  lemma SinkReleaseProperties(p: Text, q: Text, remote: Addr, remote': Addr, dest: Addr, defaultDest: Addr)
    requires HasPrefix(p, "release") && HasPrefix(q, "create")
    ensures SinkDestination(Success, Some(p), remote, dest, defaultDest) == defaultDest
    ensures SinkDestination(Success, Some(p), remote', SinkDestination(Success, Some(p), remote, dest, defaultDest), defaultDest)
            == SinkDestination(Success, Some(p), remote, dest, defaultDest)
    ensures SinkDestination(Success, Some(q), remote, dest, defaultDest) == remote
    ensures SinkDestination(Success, Some(p), remote', SinkDestination(Success, Some(q), remote, dest, defaultDest), defaultDest) == defaultDest
  {
  }

  /* ---------------------------------------------------------------------- */
  /* Outbound delivery                                                      */
  /* ---------------------------------------------------------------------- */

  /** How a report or LED command reaches `dest`. */
  datatype Delivery = LocalOnly | NonConfirmablePost | ConfirmablePost

  function DeliveryFor(dest: Addr, own: set<Addr>): Delivery {
    if dest in own then LocalOnly
    else if IsMulticast(dest) then NonConfirmablePost
    else ConfirmablePost
  }

  /** The POST sent to a destination that is not the node itself. */
  function OutboundPost(dest: Addr, path: Text, payload: Text): (m: CoapMsg)
    ensures m.Request? && m.dest == dest && m.path == path && m.payload == payload
  {
    if IsMulticast(dest) then Request(dest, false, path, payload, NoCallback)
    else Request(dest, true, path, payload, GenericCallback)
  }

  /**
   * Multicast goes out non-confirmable without a reply callback; unicast goes
   * out confirmable with the generic callback that retries the temperature report.
   */
  lemma OutboundPostClass(dest: Addr, own: set<Addr>, path: Text, payload: Text)
    requires dest !in own
    ensures OutboundPost(dest, path, payload).confirmable <==> DeliveryFor(dest, own) == ConfirmablePost
    ensures OutboundPost(dest, path, payload).callback == GenericCallback <==> OutboundPost(dest, path, payload).confirmable
    ensures DeliveryFor(dest, own) == NonConfirmablePost <==> IsMulticast(dest)
  {
  }

  /** `APP_SendLedCommand` applies the command on the node itself for its own address, or alongside a multicast post. */
  predicate LedAppliedLocally(dest: Addr, own: set<Addr>, sessionOk: bool) {
    dest in own || (sessionOk && IsMulticast(dest))
  }

  /** `APP_SendLedCommand` hands a POST to CoAP when the destination is another node and a session opened. */
  predicate LedPosted(dest: Addr, own: set<Addr>, sessionOk: bool) {
    dest !in own && sessionOk
  }

  /**
   * A command for the node itself is only applied, a unicast command is only
   * posted (confirmable), and a multicast command is applied and posted
   * (non-confirmable), since the node belongs to the group it sends to.
   */
  lemma LedSendDelivery(dest: Addr, own: set<Addr>, sessionOk: bool, cmd: Text)
    ensures LedAppliedLocally(dest, own, sessionOk)
            <==> DeliveryFor(dest, own) == LocalOnly || (sessionOk && DeliveryFor(dest, own) == NonConfirmablePost)
    ensures LedAppliedLocally(dest, own, sessionOk) && LedPosted(dest, own, sessionOk)
            <==> sessionOk && DeliveryFor(dest, own) == NonConfirmablePost
    ensures LedPosted(dest, own, sessionOk)
            ==> (OutboundPost(dest, LedUriPath, cmd).confirmable <==> !LedAppliedLocally(dest, own, sessionOk))
  {
  }

  /* ---------------------------------------------------------------------- */
  /* Accelerometer                                                          */
  /* ---------------------------------------------------------------------- */

  /** The axis a GET on `/accel` asks for: `xyz` or `all` before the single axes. */
  function AxisRequested(payload: Option<Text>): (r: Axis)
    ensures r == AllAxes <==> payload.Some? && (HasPrefix(payload.value, "xyz") || HasPrefix(payload.value, "all"))
    ensures r == AxisX ==> payload.Some? && HasPrefix(payload.value, "x") && !HasPrefix(payload.value, "xyz")
    ensures r == AxisY ==> payload.Some? && HasPrefix(payload.value, "y")
    ensures r == AxisZ ==> payload.Some? && HasPrefix(payload.value, "z")
    ensures r == NoAxis <==> payload.None? || !(HasPrefix(payload.value, "x") || HasPrefix(payload.value, "y")
                                                 || HasPrefix(payload.value, "z") || HasPrefix(payload.value, "all"))
  {
    match payload
    case None => NoAxis
    case Some(p) =>
      if HasPrefix(p, "xyz") || HasPrefix(p, "all") then AllAxes
      else if HasPrefix(p, "x") then AxisX
      else if HasPrefix(p, "y") then AxisY
      else if HasPrefix(p, "z") then AxisZ
      else NoAxis
  }

  /** The interrupt codes the accelerometer driver reports for each axis. */
  datatype AccelCodes = AccelCodes(x: Byte, y: Byte, z: Byte)

  /** The codes are the labels of one `switch`, so they differ. */
  predicate CodesDistinct(codes: AccelCodes) {
    codes.x != codes.y && codes.y != codes.z && codes.x != codes.z
  }

  /** `gAppAccNoEvent_c`: no event latched. */
  const AccNoEvent: Byte := 0xFF

  function AxisOfEvent(codes: AccelCodes, e: Byte): (r: Axis)
    ensures r != AllAxes
  {
    if e == codes.x then AxisX
    else if e == codes.y then AxisY
    else if e == codes.z then AxisZ
    else NoAxis
  }

  /** The colour an accelerometer event flashes: red for X, green for Y, blue for Z, off otherwise. */
  function AxisColour(a: Axis): Rgb {
    match a
    case AxisX => Rgb(255, 0, 0)
    case AxisY => Rgb(0, 255, 0)
    case AxisZ => Rgb(0, 0, 255)
    case _ => NoColour
  }

  /** The report an accelerometer event posts, if it names an axis. */
  function AccelReports(codes: AccelCodes, e: Byte): seq<Action> {
    if AxisOfEvent(codes, e) == NoAxis then [] else [ReportAccel(AxisOfEvent(codes, e))]
  }

  /**
   * An event lights exactly one channel at full brightness exactly when it
   * posts a report, and the report is for the axis whose code it carries.
   */
  lemma AccelEventColour(codes: AccelCodes, e: Byte)
    requires CodesDistinct(codes)
    ensures AccelReports(codes, e) != [] <==> AxisColour(AxisOfEvent(codes, e)) != NoColour
    ensures e == codes.x <==> AxisColour(AxisOfEvent(codes, e)) == Rgb(255, 0, 0)
    ensures e == codes.y <==> AxisColour(AxisOfEvent(codes, e)) == Rgb(0, 255, 0)
    ensures e == codes.z <==> AxisColour(AxisOfEvent(codes, e)) == Rgb(0, 0, 255)
  {
  }

  /* ---------------------------------------------------------------------- */
  /* Shell echo of a received payload                                       */
  /* ---------------------------------------------------------------------- */

  /**
   * The number of payload bytes echoed through a buffer of `size` bytes that
   * also holds the terminating NUL (the clamp of the `/temp` handler).
   */
  function EchoLen(n: nat, size: nat): (r: nat)
    requires size >= 1
    ensures r < size && r <= n
    ensures n < size ==> r == n
  {
    if n >= size then size - 1 else n
  }

  /** The `/accel` clamp as written: the NUL goes at index `min(n, size)`. */
  function EchoNulIndexAsWritten(n: nat, size: nat): (r: nat)
    ensures r <= size && r <= n
  {
    if n > size then size else n
  }

  /** Any POST of at least `size` bytes makes the as-written clamp write the NUL one past the buffer. */
  lemma AccelEchoOverrun(n: nat, size: nat)
    requires size >= 1 && n >= size
    ensures EchoNulIndexAsWritten(n, size) == size
    ensures EchoLen(n, size) == size - 1
  {
  }

  /* ---------------------------------------------------------------------- */
  /* Retry of a failed report (APP_CoapGenericCallback)                      */
  /* ---------------------------------------------------------------------- */

  /** The four bytes of a 32-bit pointer in memory, least significant first. */
  function PointerBytes(ptr: nat): (r: seq<Byte>)
    requires ptr < 0x1_0000_0000
    ensures |r| == 4 && r[3] == ptr / 0x100_0000
  {
    [ptr % 0x100, ptr / 0x100 % 0x100, ptr / 0x1_0000 % 0x100, ptr / 0x100_0000]
  }

  /**
   * The comparison as written: the failed session's path is compared with the
   * memory that holds the pointer field of the `/temp` descriptor, not with
   * the path it points to. Those bytes are `ptr`, the value of `pUriPath`
   * (the address of the `/temp` path string), in four little-endian bytes,
   * then whatever follows the field.
   */
  predicate RetryMatchAsWritten(path: Text, ptr: nat, following: seq<Byte>)
    requires ptr < 0x1_0000_0000 && |path| <= 4 + |following|
  {
    var mem := PointerBytes(ptr) + following;
    forall i :: 0 <= i < |path| ==> path[i] as int == mem[i]
  }

  /**
   * With the `/temp` path string (the value of `pUriPath`) stored below
   * 0x6D00_0000 (all flash and RAM of the MKW24D512 lies there) the most
   * significant byte of that value is never `'m'`, so the failed `/temp`
   * report is never retried.
   */
  lemma RetryAsWrittenMissesTemp(ptr: nat, following: seq<Byte>)
    requires ptr < 0x6D00_0000 && |following| >= 1
    ensures !RetryMatchAsWritten(TempUriPath, ptr, following)
  {
    assert TempUriPath[3] == 'm';
    assert (PointerBytes(ptr) + following)[3] == PointerBytes(ptr)[3];
  }

  /** The comparison as evidently intended: the failed session was the temperature report. */
  predicate RetryMatches(path: Text) {
    path == TempUriPath
  }

  /** Of the resources the node posts to with the generic callback, only `/temp` is retried. */
  lemma RetryOnlyTemp()
    ensures RetryMatches(TempUriPath)
    ensures !RetryMatches(AccelUriPath) && !RetryMatches(LedUriPath)
  {
    assert AccelUriPath[1] != TempUriPath[1];
    assert LedUriPath[1] != TempUriPath[1];
  }
}
