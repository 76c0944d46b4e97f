/** The ping probe and heartbeat fields of the client, updated in place. */
module LivenessMonitors {
  import opened Prelude
  import opened Liveness

  class LivenessMonitor {
    var pingProbe: Option<Probe>
    var heartbeatTimer: Option<nat>
    var timers: map<nat, Kind>
    var nextId: nat
    var heartbeatAwaitsProbe: bool
    var consecutiveFailures: nat
    ghost var log: seq<Sign>

    ghost function View(): Live
      reads this
    {
      Live(pingProbe, heartbeatTimer, timers, nextId, heartbeatAwaitsProbe, consecutiveFailures, log)
    }

    constructor ()
      ensures View() == INITIAL
    {
      pingProbe, heartbeatTimer, timers, nextId := None, None, map[], 0;
      heartbeatAwaitsProbe, consecutiveFailures, log := false, 0, [];
    }

    method StopHeartbeat()
      modifies this
      ensures View() == StopBeat(old(View()))
    {
      if heartbeatTimer.Some? {
        timers := timers - {heartbeatTimer.value};
        heartbeatTimer := None;
      }
    }

    method ScheduleNextHeartbeat(connected: bool)
      modifies this
      ensures View() == ScheduleBeat(old(View()), connected)
    {
      if !connected || heartbeatTimer.Some? { return; }
      timers := timers[nextId := Beat];
      heartbeatTimer, nextId := Some(nextId), nextId + 1;
    }

    method StartHeartbeat()
      modifies this
      ensures View() == StartBeat(old(View()))
    {
      StopHeartbeat();
      ScheduleNextHeartbeat(true);
    }

    method HearDaemon()
      modifies this
      ensures View() == Heard(old(View()))
    {
      consecutiveFailures := 0;
      log := log + [Alive];
    }

    method RecordFailure() returns (teardown: bool)
      modifies this
      ensures (View(), teardown) == Fail(old(View()))
    {
      consecutiveFailures := consecutiveFailures + 1;
      log := log + [Failure];
      if consecutiveFailures < FAILURE_THRESHOLD { return false; }
      consecutiveFailures := 0;
      log := log + [Teardown];
      assert old(log) + [Failure] + [Teardown] == old(log) + [Failure, Teardown];
      return true;
    }

    method OpenPing(drivesFailure: bool)
      modifies this
      ensures View() == OpenProbe(old(View()), drivesFailure)
    {
      timers := timers[nextId := Ping];
      pingProbe, nextId := Some(Probe(nextId, drivesFailure)), nextId + 1;
    }

    method DropPing()
      modifies this
      ensures View() == DropProbe(old(View()))
    {
      if pingProbe.Some? {
        timers := timers - {pingProbe.value.timer};
        pingProbe, heartbeatAwaitsProbe := None, false;
      }
    }

    method AwaitPing()
      modifies this
      ensures View() == old(View()).(attached := true)
    {
      heartbeatAwaitsProbe := true;
    }

    method ResolvePing(connected: bool)
      modifies this
      ensures View() == SettleProbe(old(View()), connected)
    {
      var awaited := heartbeatAwaitsProbe;
      DropPing();
      if awaited { ScheduleNextHeartbeat(connected); }
    }
  }
}
