/**
 * The settings screen: the device list built from scan callbacks, the
 * connect handler that clears it, the characteristic listener that keeps the
 * latest decoded message, and the guarded test-message send. The base64
 * codec is a library call and is passed in as a function.
 */
module Settings {
  import opened Options
  import opened BleContext

  const ServiceUuid: string := "4fafc201-1fb5-459e-8fcc-c5c9c331914b"
  const CharacteristicUuid: string := "beb5483e-36e1-4688-b7f5-ea07361b26a8"
  const TestMessage: string := "Mensagem de teste 2"

  /** A device as the scan callback receives it. */
  datatype Advertisement = Advertisement(id: DeviceId, name: Option<string>)

  /** One call of the scan callback: an error, or a (possibly null) device. */
  datatype ScanEvent = ScanError(message: string) | Scanned(device: Option<Advertisement>)

  datatype ListedDevice = ListedDevice(id: DeviceId, name: string)

  /**
   * `found` is the callback's own `devices` array; `shown` is the
   * devicesList state the screen renders.
   */
  datatype Scan = Scan(found: seq<ListedDevice>, shown: seq<ListedDevice>)

  /** The new scan state and the alert texts shown for scan errors. */
  datatype ScanStep = ScanStep(scan: Scan, alerts: seq<string>)

  /** `device.name` is truthy: present and not empty. */
  predicate Named(a: Advertisement) {
    a.name.Some? && a.name.value != ""
  }

  predicate Listed(list: seq<ListedDevice>, id: DeviceId) {
    exists i | 0 <= i < |list| :: list[i].id == id
  }

  predicate UniqueIds(list: seq<ListedDevice>) {
    forall i, j | 0 <= i < j < |list| :: list[i].id != list[j].id
  }

  /** No duplicate ids, no unnamed entries, and the rendered list is empty or everything found. */
  predicate ScanValid(sc: Scan) {
    && UniqueIds(sc.found)
    && (forall i | 0 <= i < |sc.found| :: sc.found[i].name != "")
    && (sc.shown == [] || sc.shown == sc.found)
  }

  /** scanDevices(): the rendered list and the callback's array both start empty. */
  function StartScan(): (sc: Scan)
    ensures ScanValid(sc) && sc.shown == [] && sc.found == []
  {
    Scan([], [])
  }

  /** The scan callback for one event. */
  function OnScanEvent(sc: Scan, ev: ScanEvent): (r: ScanStep)
    ensures ScanValid(sc) ==> ScanValid(r.scan)
    ensures ev.ScanError? ==> r == ScanStep(sc, [ev.message])
    ensures ev.Scanned? ==> r.alerts == []
    ensures |sc.found| <= |r.scan.found| && r.scan.found[..|sc.found|] == sc.found
    ensures r.scan.found != sc.found <==>
              ev.Scanned? && ev.device.Some? && Named(ev.device.value) && !Listed(sc.found, ev.device.value.id)
    ensures r.scan.found != sc.found ==>
              && r.scan.found == sc.found + [ListedDevice(ev.device.value.id, ev.device.value.name.value)]
              && r.scan.shown == r.scan.found
    ensures r.scan.found == sc.found ==> r.scan == sc
  {
    match ev
    case ScanError(message) => ScanStep(sc, [message])
    case Scanned(device) =>
      if device.Some? && Named(device.value) && !Listed(sc.found, device.value.id) then
        var found := sc.found + [ListedDevice(device.value.id, device.value.name.value)];
        ScanStep(Scan(found, found), [])
      else ScanStep(sc, [])
  }

  /** The scan callback over a sequence of events, collecting the alerts. */
  function ScanAll(sc: Scan, events: seq<ScanEvent>): (r: ScanStep)
    decreases |events|
  {
    if events == [] then ScanStep(sc, [])
    else
      var first := OnScanEvent(sc, events[0]);
      var rest := ScanAll(first.scan, events[1..]);
      ScanStep(rest.scan, first.alerts + rest.alerts)
  }

  /** The "clear list" button and a successful connect: only the rendered list empties. */
  function ClearList(sc: Scan): (r: Scan)
    ensures ScanValid(sc) ==> ScanValid(r)
    ensures r.shown == [] && r.found == sc.found
  {
    sc.(shown := [])
  }

  /** Scanning keeps every device found: entries are only ever appended, never removed or reordered. */
  lemma {:induction false} ScanAllExtends(sc: Scan, events: seq<ScanEvent>)
    ensures |sc.found| <= |ScanAll(sc, events).scan.found|
    ensures ScanAll(sc, events).scan.found[..|sc.found|] == sc.found
    decreases |events|
  {
    if events != [] {
      var first := OnScanEvent(sc, events[0]).scan;
      ScanAllExtends(first, events[1..]);
      var out := ScanAll(sc, events).scan.found;
      assert out[..|first.found|] == first.found;
      assert out[..|sc.found|] == out[..|first.found|][..|sc.found|];
    }
  }

  /** Ids stay unique and names non-empty however many events arrive. */
  lemma {:induction false} ScanAllValid(sc: Scan, events: seq<ScanEvent>)
    requires ScanValid(sc)
    ensures ScanValid(ScanAll(sc, events).scan)
    decreases |events|
  {
    if events != [] {
      ScanAllValid(OnScanEvent(sc, events[0]).scan, events[1..]);
    }
  }

  /** Every named device the scan reports ends up in the list. */
  lemma {:induction false} ScanAllListsNamed(sc: Scan, events: seq<ScanEvent>, k: nat)
    requires k < |events|
    requires events[k].Scanned? && events[k].device.Some? && Named(events[k].device.value)
    ensures Listed(ScanAll(sc, events).scan.found, events[k].device.value.id)
    decreases |events|
  {
    var first := OnScanEvent(sc, events[0]).scan;
    if k == 0 {
      var id := events[0].device.value.id;
      assert Listed(first.found, id) by {
        if !Listed(sc.found, id) {
          assert first.found[|sc.found|].id == id;
        }
      }
      var i :| 0 <= i < |first.found| && first.found[i].id == id;
      ScanAllExtends(first, events[1..]);
      var out := ScanAll(sc, events).scan.found;
      assert out[i] == out[..|first.found|][i] == first.found[i];
    } else {
      assert events[1..][k - 1] == events[k];
      ScanAllListsNamed(first, events[1..], k - 1);
    }
  }

  /** The event that put an entry into the list: a named advertisement with its id and name. */
  predicate Reported(events: seq<ScanEvent>, e: ListedDevice) {
    exists i | 0 <= i < |events| :: events[i] == Scanned(Some(Advertisement(e.id, Some(e.name))))
  }

  /** Nothing enters the list that the scan did not report. */
  lemma {:induction false} ScanAllOnlyReported(sc: Scan, events: seq<ScanEvent>)
    ensures forall k | 0 <= k < |ScanAll(sc, events).scan.found| ::
              ScanAll(sc, events).scan.found[k] in sc.found || Reported(events, ScanAll(sc, events).scan.found[k])
    decreases |events|
  {
    if events != [] {
      var first := OnScanEvent(sc, events[0]).scan;
      ScanAllOnlyReported(first, events[1..]);
      var out := ScanAll(sc, events).scan.found;
      forall k | 0 <= k < |out| ensures out[k] in sc.found || Reported(events, out[k]) {
        if out[k] in first.found && out[k] !in sc.found {
          assert first.found != sc.found;
          assert first.found == sc.found + [out[k]];
          assert events[0] == Scanned(Some(Advertisement(out[k].id, Some(out[k].name))));
        } else if out[k] !in first.found {
          var i :| 0 <= i < |events[1..]| && events[1..][i] == Scanned(Some(Advertisement(out[k].id, Some(out[k].name))));
          assert events[i + 1] == events[1..][i];
        }
      }
    }
  }

  /** A fresh scan lists exactly the ids of the named devices reported, each once. */
  lemma FreshScanContents(events: seq<ScanEvent>)
    ensures UniqueIds(ScanAll(StartScan(), events).scan.found)
    ensures forall k | 0 <= k < |ScanAll(StartScan(), events).scan.found| ::
              Reported(events, ScanAll(StartScan(), events).scan.found[k])
    ensures forall k | 0 <= k < |events| && events[k].Scanned? && events[k].device.Some? && Named(events[k].device.value) ::
              Listed(ScanAll(StartScan(), events).scan.found, events[k].device.value.id)
  {
    ScanAllValid(StartScan(), events);
    ScanAllOnlyReported(StartScan(), events);
    forall k | 0 <= k < |events| && events[k].Scanned? && events[k].device.Some? && Named(events[k].device.value)
      ensures Listed(ScanAll(StartScan(), events).scan.found, events[k].device.value.id)
    {
      ScanAllListsNamed(StartScan(), events, k);
    }
  }

  /**
   * Clearing the rendered list does not reset the callback's array, so the
   * next new device brings every earlier entry back.
   */
  lemma ClearedListRefills(sc: Scan, a: Advertisement)
    requires ScanValid(sc) && Named(a) && !Listed(sc.found, a.id)
    ensures OnScanEvent(ClearList(sc), Scanned(Some(a))).scan.shown
              == sc.found + [ListedDevice(a.id, a.name.value)]
  {
  }

  /** One call of the characteristic monitor callback. */
  datatype Notification = MonitorError | Characteristic(value: Option<string>)

  /** `characteristic?.value` is truthy: present and not empty. */
  predicate HasPayload(n: Notification) {
    n.Characteristic? && n.value.Some? && n.value.value != ""
  }

  /** The monitor callback: a payload replaces the received message with its decoding. */
  function OnNotification(received: Option<string>, n: Notification, decode: string -> string): (r: Option<string>)
    ensures HasPayload(n) ==> r == Some(decode(n.value.value))
    ensures !HasPayload(n) ==> r == received
  {
    match n
    case MonitorError => received
    case Characteristic(value) =>
      if value.Some? && value.value != "" then Some(decode(value.value)) else received
  }

  /** The monitor callback over a sequence of notifications. */
  function Listen(received: Option<string>, ns: seq<Notification>, decode: string -> string): Option<string>
    decreases |ns|
  {
    if ns == [] then received else Listen(OnNotification(received, ns[0], decode), ns[1..], decode)
  }

  /** The payload of the last notification that carries one. */
  function LastPayload(ns: seq<Notification>): (r: Option<string>)
    ensures r.Some? ==> r.value != ""
    decreases |ns|
  {
    if ns == [] then None
    else if HasPayload(ns[|ns| - 1]) then ns[|ns| - 1].value
    else LastPayload(ns[..|ns| - 1])
  }

  lemma {:induction false} ListenSnoc(received: Option<string>, ns: seq<Notification>, n: Notification, decode: string -> string)
    ensures Listen(received, ns + [n], decode) == OnNotification(Listen(received, ns, decode), n, decode)
    decreases |ns|
  {
    if ns == [] {
      assert [n][1..] == [];
    } else {
      assert (ns + [n])[1..] == ns[1..] + [n];
      ListenSnoc(OnNotification(received, ns[0], decode), ns[1..], n, decode);
    }
  }

  /** Only the latest message is kept: the decoding of the last payload, or what was there before. */
  lemma {:induction false} LatestMessageWins(received: Option<string>, ns: seq<Notification>, decode: string -> string)
    ensures Listen(received, ns, decode)
              == if LastPayload(ns).Some? then Some(decode(LastPayload(ns).value)) else received
    decreases |ns|
  {
    if ns != [] {
      var init := ns[..|ns| - 1];
      assert ns == init + [ns[|ns| - 1]];
      ListenSnoc(received, init, ns[|ns| - 1], decode);
      LatestMessageWins(received, init, decode);
    }
  }

  /** A write of the test message to the data characteristic. */
  datatype Write = Write(device: DeviceId, service: string, characteristic: string, payload: string)

  /** handleSendMessage(): nothing without a connected device, else the encoded test message. */
  function SendTestMessage(connected: Option<DeviceId>, encode: string -> string): (w: Option<Write>)
    ensures w.None? <==> connected.None?
    ensures w.Some? ==>
              && w.value.device == connected.value
              && w.value.service == ServiceUuid && w.value.characteristic == CharacteristicUuid
              && w.value.payload == encode(TestMessage)
  {
    if connected.None? then None
    else Some(Write(connected.value, ServiceUuid, CharacteristicUuid, encode(TestMessage)))
  }

  /**
   * When the decoder inverts the encoder, a device that echoes the written
   * payload back as a notification makes the screen show the test message.
   */
  lemma EchoedTestMessageIsReceived(device: DeviceId, received: Option<string>,
                                    encode: string -> string, decode: string -> string)
    requires decode(encode(TestMessage)) == TestMessage
    requires encode(TestMessage) != ""
    ensures SendTestMessage(Some(device), encode).Some?
    ensures Listen(received, [Characteristic(Some(SendTestMessage(Some(device), encode).value.payload))], decode)
              == Some(TestMessage)
  {
    var payload := SendTestMessage(Some(device), encode).value.payload;
    LatestMessageWins(received, [Characteristic(Some(payload))], decode);
  }

  /** The screen's own state. `monitored` lists the devices whose characteristic it listens to. */
  datatype Screen = Screen(scan: Scan, received: Option<string>, monitored: seq<DeviceId>)

  datatype ConnectResult = ConnectResult(ble: ConnectReply, screen: Screen)

  /** handleConnect(id): on success clear the list and start listening; on failure change nothing here. */
  function HandleConnect(ble: BleState, screen: Screen, id: DeviceId, outcome: LinkOutcome): (r: ConnectResult)
    ensures r.ble == Connect(ble, id, outcome)
    ensures Valid(ble) ==> Valid(r.ble.next)
    ensures ScanValid(screen.scan) ==> ScanValid(r.screen.scan)
    ensures r.ble.device.Some? <==> outcome == Linked
    ensures outcome == Linked ==> r.ble.device == Some(id)
    ensures outcome == LinkFailed ==> r.ble.effects == [ShowAlert(ConnectFailedAlert)]
    ensures r.ble.next.connectedDevice == r.ble.device
    ensures outcome == Linked ==>
              && r.screen.scan.shown == [] && r.screen.scan.found == screen.scan.found
              && r.screen.monitored == screen.monitored + [id]
              && r.screen.received == screen.received
    ensures outcome == LinkFailed ==> r.screen == screen
  {
    var reply := Connect(ble, id, outcome);
    if reply.device.Some? then
      ConnectResult(reply, screen.(scan := ClearList(screen.scan),
                                   monitored := screen.monitored + [reply.device.value]))
    else ConnectResult(reply, screen)
  }
}
