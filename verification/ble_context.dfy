/**
 * The connection and telemetry state machine of the BLE context provider.
 *
 * The provider's React state cells, its interval ref and the single
 * AsyncStorage key are gathered into one immutable record; every callback is
 * a pure transition from that record (plus the outcome of the radio or
 * storage call it awaits) to the next record and the effects it emits.
 */
module BleContext {
  import opened Options

  type DeviceId = string

  /** A timer id as returned by setInterval; never 0, so a held ref is always truthy. */
  type Handle = n: nat | n >= 1 witness 1

  /** Identifier reconnected to when nothing is stored. */
  const DefaultDeviceId: DeviceId := "FC:B4:67:51:4A:7A"

  /**
   * A live RSSI interval: the device whose id it polls, and the value of
   * isMonitoring captured by the startRssiLoop closure that created it.
   */
  datatype Interval = Interval(device: DeviceId, readsRssi: bool)

  datatype BleState = BleState(
    connectedDevice: Option<DeviceId>,
    isConnected: bool,
    rssi: Option<int>,
    isMonitoring: bool,
    /** What intervalRef.current holds; it may name an interval already cleared. */
    intervalRef: Option<Handle>,
    /** The intervals currently scheduled, by handle. */
    intervals: map<Handle, Interval>,
    /** The handle the next setInterval call returns (timer ids start at 1). */
    nextHandle: Handle,
    /** The value stored under the AsyncStorage key "LAST_CONNECTED_DEVICE_ID". */
    stored: Option<DeviceId>)

  datatype Alert = ConnectFailedAlert | DisconnectedAlert | BluetoothOffAlert

  /** What a transition asks of the outside world. */
  datatype Effect = ShowAlert(alert: Alert) | CancelLink(device: DeviceId)

  datatype Step = Step(next: BleState, effects: seq<Effect>)

  /** Whether connecting, discovering services and storing the id all resolved. */
  datatype LinkOutcome = Linked | LinkFailed

  /** What device.readRSSI() gave: a value, a null rssi, or an exception. */
  datatype RssiRead = Reading(value: int) | NoReading | ReadThrew

  /** What manager.isDeviceConnected() gave on one tick. */
  datatype Liveness = StillConnected(read: RssiRead) | Lost | LivenessThrew

  datatype ConnectReply = ConnectReply(next: BleState, effects: seq<Effect>, device: Option<DeviceId>)

  datatype AdapterState = Unknown | Resetting | Unsupported | Unauthorized | PoweredOff | PoweredOn

  datatype ReadyCheck = ReadyCheck(ready: bool, effects: seq<Effect>)

  /** The handles intervalRef names (at most one). */
  function RefHandles(ref: Option<Handle>): set<Handle> {
    if ref.Some? then {ref.value} else {}
  }

  /** clearInterval(intervalRef.current): a no-op for a null or stale ref. */
  function ClearRef(s: BleState): (m: map<Handle, Interval>)
    ensures m.Keys == s.intervals.Keys - RefHandles(s.intervalRef)
    ensures forall h | h in m :: m[h] == s.intervals[h]
  {
    s.intervals - RefHandles(s.intervalRef)
  }

  /**
   * The invariants the provider keeps: the connected flag mirrors the device
   * cell, every scheduled interval is the one intervalRef names, intervals only
   * run while monitoring, and while a device is connected every live interval
   * polls it. A connected device is also the stored one, and while monitoring
   * it has a live interval, so a drop is always detected.
   */
  predicate Valid(s: BleState) {
    && (s.isConnected <==> s.connectedDevice.Some?)
    && s.intervals.Keys <= RefHandles(s.intervalRef)
    && (s.intervals.Keys == {} || s.isMonitoring)
    && (forall h | h in s.intervals ::
          s.connectedDevice.Some? ==> s.intervals[h].device == s.connectedDevice.value)
    && (s.connectedDevice.Some? ==> s.stored == s.connectedDevice)
    && (s.connectedDevice.Some? && s.isMonitoring ==>
          s.intervalRef.Some? && s.intervalRef.value in s.intervals)
  }

  /** The provider's state on mount, with whatever storage already holds. */
  function Init(stored: Option<DeviceId>): (s: BleState)
    ensures Valid(s)
    ensures s.connectedDevice == None && s.rssi == None && s.isMonitoring
    ensures s.intervals == map[] && s.stored == stored
  {
    BleState(None, false, None, true, None, map[], 1, stored)
  }

  /**
   * startRssiLoop(device), from a closure that captured `captured` as
   * isMonitoring: clear the interval the ref names, then schedule a fresh one.
   */
  function StartRssiLoop(s: BleState, device: DeviceId, captured: bool): (r: BleState)
    ensures r.intervalRef == Some(s.nextHandle) && r.nextHandle > s.nextHandle
    ensures s.intervals.Keys <= RefHandles(s.intervalRef) ==>
              r.intervals == map[s.nextHandle := Interval(device, captured)]
    ensures r == s.(intervalRef := r.intervalRef, intervals := r.intervals, nextHandle := r.nextHandle)
  {
    s.(intervalRef := Some(s.nextHandle),
       intervals := ClearRef(s)[s.nextHandle := Interval(device, captured)],
       nextHandle := s.nextHandle + 1)
  }

  /** connectToDevice(id), with the outcome of the awaited radio and storage calls. */
  function Connect(s: BleState, id: DeviceId, outcome: LinkOutcome): (r: ConnectReply)
    ensures Valid(s) ==> Valid(r.next)
    ensures r.device.Some? <==> outcome == Linked
    ensures r.next.rssi == s.rssi && r.next.isMonitoring == s.isMonitoring
    ensures outcome == Linked ==>
              && r.device == Some(id) && r.next.connectedDevice == Some(id)
              && r.next.isConnected && r.next.stored == Some(id) && r.effects == []
    ensures outcome == Linked && s.isMonitoring ==>
              && r.next.intervalRef == Some(s.nextHandle)
              && (Valid(s) ==> r.next.intervals == map[s.nextHandle := Interval(id, true)])
    ensures outcome == Linked && !s.isMonitoring ==>
              r.next.intervals == s.intervals && r.next.intervalRef == s.intervalRef
    ensures outcome == LinkFailed ==>
              && r.next.connectedDevice == None && !r.next.isConnected
              && r.next.stored == s.stored && r.next.intervals == s.intervals
              && r.next.intervalRef == s.intervalRef
              && r.effects == [ShowAlert(ConnectFailedAlert)]
  {
    match outcome
    case Linked =>
      var linked := s.(connectedDevice := Some(id), isConnected := true, stored := Some(id));
      var next := if s.isMonitoring then StartRssiLoop(linked, id, s.isMonitoring) else linked;
      ConnectReply(next, [], Some(id))
    case LinkFailed =>
      ConnectReply(s.(connectedDevice := None, isConnected := false), [ShowAlert(ConnectFailedAlert)], None)
  }

  /** disconnectDevice(): cancel the link if any, clear the interval, forget everything. */
  function Disconnect(s: BleState): (r: Step)
    ensures Valid(s) ==> Valid(r.next)
    ensures Valid(s) ==> r.next.intervals == map[]
    ensures r.next.connectedDevice == None && !r.next.isConnected
    ensures r.next.rssi == None && r.next.stored == None
    ensures r.next.isMonitoring == s.isMonitoring
    ensures r.next.intervalRef == s.intervalRef && r.next.nextHandle == s.nextHandle
    ensures r.effects == if s.connectedDevice.Some? then [CancelLink(s.connectedDevice.value)] else []
  {
    var cancel := if s.connectedDevice.Some? then [CancelLink(s.connectedDevice.value)] else [];
    Step(s.(intervals := ClearRef(s), stored := None, connectedDevice := None,
            isConnected := false, rssi := None),
         cancel)
  }

  /** reconnectLastDevice(): connect to the stored id, or to the default one. */
  function Reconnect(s: BleState, outcome: LinkOutcome): (r: Step)
    ensures var c := Connect(s, s.stored.GetOr(DefaultDeviceId), outcome); r == Step(c.next, c.effects)
    ensures Valid(s) ==> Valid(r.next)
    ensures outcome == Linked ==>
              && r.next.connectedDevice == Some(if s.stored.Some? then s.stored.value else DefaultDeviceId)
              && r.next.stored == r.next.connectedDevice
    ensures outcome == LinkFailed ==>
              && r.next.connectedDevice == None && r.next.stored == s.stored
              && r.effects == [ShowAlert(ConnectFailedAlert)]
    ensures outcome == Linked && s.isMonitoring && Valid(s) ==>
              r.next.intervals == map[s.nextHandle := Interval(r.next.connectedDevice.value, true)]
  {
    var reply := Connect(s, s.stored.GetOr(DefaultDeviceId), outcome);
    Step(reply.next, reply.effects)
  }

  /** pauseRssi(): stop the interval, stop monitoring, drop the reading. */
  function Pause(s: BleState): (r: BleState)
    ensures Valid(s) ==> Valid(r)
    ensures Valid(s) ==> r.intervals == map[]
    ensures r.intervalRef == None && !r.isMonitoring && r.rssi == None
    ensures r.connectedDevice == s.connectedDevice && r.isConnected == s.isConnected
    ensures r.stored == s.stored
  {
    var stopped := if s.intervalRef.Some? then s.(intervals := ClearRef(s), intervalRef := None) else s;
    stopped.(isMonitoring := false, rssi := None)
  }

  /**
   * resumeRssi(): monitor again and, when a device is connected, restart the
   * loop through the startRssiLoop closure of the current render, which
   * captured the isMonitoring value from before this call.
   */
  function Resume(s: BleState): (r: BleState)
    ensures Valid(s) ==> Valid(r)
    ensures r.isMonitoring
    ensures r.connectedDevice == s.connectedDevice && r.isConnected == s.isConnected
    ensures r.rssi == s.rssi && r.stored == s.stored
    ensures s.connectedDevice.Some? && Valid(s) ==>
              r.intervals == map[s.nextHandle := Interval(s.connectedDevice.value, s.isMonitoring)]
    ensures s.connectedDevice.None? ==> r.intervals == s.intervals
  {
    var monitoring := s.(isMonitoring := true);
    if s.connectedDevice.Some? then StartRssiLoop(monitoring, s.connectedDevice.value, s.isMonitoring)
    else monitoring
  }

  /**
   * One firing of interval `h`. A cleared interval never fires, so a handle
   * that is not scheduled leaves everything as it is.
   */
  function Tick(s: BleState, h: Handle, liveness: Liveness): (r: Step)
    ensures Valid(s) ==> Valid(r.next)
    ensures h !in s.intervals || liveness == LivenessThrew ==> r == Step(s, [])
    ensures h in s.intervals && liveness == Lost && Valid(s) ==>
              && r.next.intervals == map[] && r.next.intervalRef == None
              && r.next.connectedDevice == None && !r.next.isConnected
              && r.next.rssi == None && r.next.stored == None
              && r.next.isMonitoring == s.isMonitoring
              && r.effects == [ShowAlert(DisconnectedAlert)]
    ensures h in s.intervals && liveness.StillConnected? ==>
              && r.effects == []
              && r.next == s.(rssi := r.next.rssi)
              && (r.next.rssi != s.rssi <==>
                    s.intervals[h].readsRssi && liveness.read.Reading? && s.rssi != Some(liveness.read.value))
              && (r.next.rssi != s.rssi ==> r.next.rssi == Some(liveness.read.value))
  {
    if h !in s.intervals then Step(s, [])
    else
      match liveness
      case LivenessThrew => Step(s, [])
      case Lost =>
        Step(s.(intervals := ClearRef(s), intervalRef := None, connectedDevice := None,
                isConnected := false, rssi := None, stored := None),
             [ShowAlert(DisconnectedAlert)])
      case StillConnected(read) =>
        if s.intervals[h].readsRssi && read.Reading? then Step(s.(rssi := Some(read.value)), [])
        else Step(s, [])
  }

  /** verifyStatusBlePoweredOn(): ready only when the adapter is powered on. */
  function VerifyPoweredOn(adapter: AdapterState): (r: ReadyCheck)
    ensures r.ready <==> adapter == PoweredOn
    ensures r.effects == [] <==> r.ready
    ensures !r.ready ==> r.effects == [ShowAlert(BluetoothOffAlert)]
  {
    if adapter == PoweredOn then ReadyCheck(true, []) else ReadyCheck(false, [ShowAlert(BluetoothOffAlert)])
  }

  /** The provider's unmount cleanup: clear the interval the ref names. */
  function Unmount(s: BleState): (r: BleState)
    ensures Valid(s) ==> r.intervals == map[]
    ensures r == s.(intervals := r.intervals)
  {
    s.(intervals := ClearRef(s))
  }
}
