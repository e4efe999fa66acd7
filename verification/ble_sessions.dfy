/**
 * Sequences of provider callbacks and interval firings, and the properties
 * that hold across them: the invariants are kept by every callback, at most
 * one interval is ever live, pausing or a detected drop silences the
 * interval, and disconnecting is idempotent.
 */
module BleSessions {
  import opened Options
  import opened BleContext

  /** One callback of the provider, with the outcome of whatever it awaits. */
  datatype Command =
    | ConnectTo(id: DeviceId, outcome: LinkOutcome)
    | DisconnectCmd
    | ReconnectCmd(outcome: LinkOutcome)
    | PauseCmd
    | ResumeCmd
    | TickCmd(handle: Handle, liveness: Liveness)

  function Apply(s: BleState, c: Command): (r: Step)
    ensures Valid(s) ==> Valid(r.next)
  {
    match c
    case ConnectTo(id, outcome) =>
      var reply := Connect(s, id, outcome);
      Step(reply.next, reply.effects)
    case DisconnectCmd => Disconnect(s)
    case ReconnectCmd(outcome) => Reconnect(s, outcome)
    case PauseCmd => Step(Pause(s), [])
    case ResumeCmd => Step(Resume(s), [])
    case TickCmd(h, liveness) => Tick(s, h, liveness)
  }

  /** Apply the commands in order, collecting every effect they emit. */
  function Run(s: BleState, cmds: seq<Command>): (r: Step)
    decreases |cmds|
  {
    if cmds == [] then Step(s, [])
    else
      var first := Apply(s, cmds[0]);
      var rest := Run(first.next, cmds[1..]);
      Step(rest.next, first.effects + rest.effects)
  }

  predicate OnlyTicks(cmds: seq<Command>) {
    forall i | 0 <= i < |cmds| :: cmds[i].TickCmd?
  }

  /** Every reachable state keeps the provider's invariants. */
  lemma {:induction false} RunPreservesValid(s: BleState, cmds: seq<Command>)
    requires Valid(s)
    ensures Valid(Run(s, cmds).next)
    decreases |cmds|
  {
    if cmds != [] {
      RunPreservesValid(Apply(s, cmds[0]).next, cmds[1..]);
    }
  }

  /** Starting the loop always clears the previous interval: never two live timers. */
  lemma AtMostOneTimer(s: BleState)
    requires Valid(s)
    ensures |s.intervals| <= 1
    ensures s.intervals != map[] ==> s.intervalRef.Some? && s.intervals.Keys == {s.intervalRef.value}
  {
    if s.intervals != map[] {
      var h :| h in s.intervals;
      assert s.intervals.Keys == {h};
      assert |s.intervals.Keys| == 1;
    }
  }

  /** Once no interval is scheduled, no tick can change anything or emit anything. */
  lemma {:induction false} SilentWithoutIntervals(s: BleState, cmds: seq<Command>)
    requires s.intervals == map[]
    requires OnlyTicks(cmds)
    ensures Run(s, cmds) == Step(s, [])
    decreases |cmds|
  {
    if cmds != [] {
      assert cmds[0].TickCmd?;
      assert OnlyTicks(cmds[1..]) by {
        forall i | 0 <= i < |cmds[1..]| ensures cmds[1..][i].TickCmd? {
          assert cmds[1..][i] == cmds[i + 1];
        }
      }
      SilentWithoutIntervals(s, cmds[1..]);
    }
  }

  /** While paused there are no ticks at all: not even the liveness check runs. */
  lemma PausedTicksAreInert(s: BleState, ticks: seq<Command>)
    requires Valid(s)
    requires OnlyTicks(ticks)
    ensures Run(Pause(s), ticks) == Step(Pause(s), [])
  {
    SilentWithoutIntervals(Pause(s), ticks);
  }

  /**
   * A tick that finds the device gone tears everything down and alerts once;
   * the interval is gone with it, so no later tick repeats the teardown.
   */
  lemma DropIsHandledOnce(s: BleState, h: Handle, later: seq<Command>)
    requires Valid(s) && h in s.intervals
    requires OnlyTicks(later)
    ensures Tick(s, h, Lost).effects == [ShowAlert(DisconnectedAlert)]
    ensures Tick(s, h, Lost).next.connectedDevice == None
    ensures Tick(s, h, Lost).next.stored == None
    ensures Run(Tick(s, h, Lost).next, later) == Step(Tick(s, h, Lost).next, [])
  {
    SilentWithoutIntervals(Tick(s, h, Lost).next, later);
  }

  /**
   * While a device is connected and monitoring is on, the interval the ref
   * names is live, so a tick that finds the device gone tears the link down.
   */
  lemma ConnectedDropIsDetected(s: BleState)
    requires Valid(s) && s.connectedDevice.Some? && s.isMonitoring
    ensures s.intervalRef.Some? && s.intervalRef.value in s.intervals
    ensures s.stored == s.connectedDevice
    ensures Tick(s, s.intervalRef.value, Lost).next.connectedDevice == None
    ensures Tick(s, s.intervalRef.value, Lost).effects == [ShowAlert(DisconnectedAlert)]
  {
  }

  /** Calling disconnectDevice twice ends where calling it once does, with nothing more to do. */
  lemma DisconnectIdempotent(s: BleState)
    ensures Disconnect(Disconnect(s).next) == Step(Disconnect(s).next, [])
  {
    var once := Disconnect(s).next;
    assert ClearRef(once) == once.intervals;
  }

  /** No interval samples RSSI and no reading is shown. */
  predicate Muted(s: BleState) {
    && s.rssi == None
    && forall h | h in s.intervals :: !s.intervals[h].readsRssi
  }

  lemma {:induction false} MutedTicks(s: BleState, ticks: seq<Command>)
    requires Muted(s)
    requires OnlyTicks(ticks)
    ensures Muted(Run(s, ticks).next)
    decreases |ticks|
  {
    if ticks != [] {
      var first := Apply(s, ticks[0]);
      assert Muted(first.next);
      assert OnlyTicks(ticks[1..]) by {
        forall i | 0 <= i < |ticks[1..]| ensures ticks[1..][i].TickCmd? {
          assert ticks[1..][i] == ticks[i + 1];
        }
      }
      MutedTicks(first.next, ticks[1..]);
    }
  }

  /**
   * resumeRssi after pauseRssi restarts the interval through a closure that
   * captured isMonitoring == false, so however many ticks follow, the reading
   * stays null until the next successful connect.
   */
  lemma ResumeAfterPauseNeverSamples(s: BleState, ticks: seq<Command>)
    requires Valid(s)
    requires OnlyTicks(ticks)
    ensures Resume(Pause(s)).isMonitoring
    ensures Run(Resume(Pause(s)), ticks).next.rssi == None
  {
    var r := Resume(Pause(s));
    assert Muted(r);
    MutedTicks(r, ticks);
  }

  /** Two successful connects in a row leave one live interval, for the second device. */
  lemma ConnectTwiceKeepsOneTimer(s: BleState, a: DeviceId, b: DeviceId)
    requires Valid(s) && s.isMonitoring
    ensures Connect(Connect(s, a, Linked).next, b, Linked).next.stored == Some(b)
    ensures Connect(Connect(s, a, Linked).next, b, Linked).next.intervals
              == map[s.nextHandle + 1 := Interval(b, true)]
  {
    var first := Connect(s, a, Linked).next;
    assert first.nextHandle == s.nextHandle + 1;
  }

  /**
   * After a restart the provider mounts and reconnects: to the stored id if
   * there is one, otherwise to the default, with a sampling interval for it.
   */
  lemma RestartRestoresLink(stored: Option<DeviceId>)
    ensures Reconnect(Init(stored), Linked).next.connectedDevice == Some(stored.GetOr(DefaultDeviceId))
    ensures Reconnect(Init(stored), Linked).next.intervals == map[1 := Interval(stored.GetOr(DefaultDeviceId), true)]
  {
  }

  /**
   * The interval left running by a failed connect keeps polling the earlier
   * device: it can set a reading while nothing is connected, and a later
   * disconnect has no device to cancel.
   */
  lemma OrphanIntervalSamples()
    ensures var a := Connect(Init(None), "A", Linked).next;
            var failed := Connect(a, "B", LinkFailed).next;
            && Valid(failed) && failed.connectedDevice == None
            && failed.intervals == map[1 := Interval("A", true)]
            && Tick(failed, 1, StillConnected(Reading(-60))).next.rssi == Some(-60)
            && !Tick(failed, 1, StillConnected(Reading(-60))).next.isConnected
            && Disconnect(failed).effects == []
  {
  }

  /** A failed connect reports the failure but leaves a running interval running. */
  lemma FailedConnectKeepsInterval(s: BleState, id: DeviceId)
    requires Valid(s) && s.intervals != map[]
    ensures Connect(s, id, LinkFailed).next.connectedDevice == None
    ensures Connect(s, id, LinkFailed).next.intervals == s.intervals
    ensures Connect(s, id, LinkFailed).next.intervals != map[]
  {
  }
}
