/**
 * The client as the object it is. Every public method is one event of the session machine and
 * refines its step; the fields are grouped into connection, requests and liveness.
 */
module DaemonClients {
  import opened Prelude
  import opened Session
  import opened SessionSafety
  import opened Connections
  import opened RequestTables
  import opened LivenessMonitors
  import B = Backoff
  import T = Timers
  import L = Link
  import R = Requests
  import V = Liveness

  class DaemonClient {
    const link: Connection
    const table: RequestTable
    const monitor: LivenessMonitor
    var terminalSlots: set<nat>
    var closing: bool

    ghost function Repr(): set<object>
      reads this
    {
      {this, link, link.timers, link.pacer, table, monitor}
    }

    ghost function View(): State
      reads this, link, link.timers, link.pacer, table, monitor
    {
      State(link.View(), table.View(), monitor.View(), terminalSlots, closing)
    }

    ghost predicate Valid()
      reads this, link, link.timers, link.pacer, table, monitor
    {
      Inv(View())
    }

    constructor (policy: B.Policy, reconnectEnabled: bool, minimumMode: Option<L.Mode>)
      ensures View() == Initial(policy, reconnectEnabled, minimumMode) && Valid() && fresh(Repr())
    {
      link := new Connection(policy, reconnectEnabled, minimumMode);
      table := new RequestTable();
      monitor := new LivenessMonitor();
      terminalSlots, closing := {}, false;
      new;
      InitialInv(policy, reconnectEnabled, minimumMode);
    }

    // -------------------------------------------------------------------------
    // Losing and building a connection
    // -------------------------------------------------------------------------

    method DisposeTransport()
      modifies Repr()
      ensures View() == Session.DisposeTransport(old(View()))
    {
      hide L.Dispose, V.StopBeat;
      monitor.StopHeartbeat();
      link.DropTransport();
    }

    /** Says whether the loss broke off, in which case its caller does not go on either. */
    method ScheduleReconnect(draw: L.Draw) returns (thrown: bool)
      modifies Repr()
      ensures View() == Session.ScheduleReconnect(old(View()), draw)
      ensures thrown <==> View().link.pace.faults != old(View().link.pace.faults)
    {
      hide L.Lose, R.Lose, V.SettleProbe;
      table.LoseAll();
      terminalSlots := {};
      thrown := link.LoseConnection(draw);
      monitor.ResolvePing(link.connectionState == L.Connected);
    }

    method Teardown(draw: L.Draw)
      modifies Repr()
      ensures View() == Session.Teardown(old(View()), draw)
    {
      hide Session.DisposeTransport, Session.ScheduleReconnect;
      DisposeTransport();
      var _ := ScheduleReconnect(draw);
    }

    method ResetConnectTimeout()
      modifies link.timers
      ensures View() == old(View()).(link := old(View().link).(timers := T.ClearDeadline(old(View().link.timers))))
    {
      hide T.ClearDeadline;
      link.timers.ResetConnectTimeout();
    }

    method FailAttempt(draw: L.Draw)
      modifies Repr()
      ensures View() == Session.FailAttempt(old(View()), draw)
    {
      hide Session.ScheduleReconnect, L.SettleConnect, T.ClearDeadline, View;
      ResetConnectTimeout();
      var thrown := ScheduleReconnect(draw);
      if thrown { return; }
      SettleConnect();
    }

    method SettleConnect()
      modifies link
      ensures View() == old(View()).(link := L.SettleConnect(old(View().link)))
    {
      link.RejectOrResolveConnect();
    }

    /** The attempt after its credentials have arrived. */
    method ContinueAttempt(attempt: nat, build: Build, draw: L.Draw)
      modifies Repr()
      ensures View() == Proceed(old(View()), attempt, build, draw)
    {
      hide Session.DisposeTransport, Session.FailAttempt, L.Install, L.SetReconnectEnabled;
      if link.connectionAttempt != Some(attempt) { return; }
      match build {
        case CredentialError => FailAttempt(draw);
        case RelayRefused =>
          DisposeTransport();
          link.EnableReconnect(false);
          FailAttempt(draw);
        case FactoryError =>
          DisposeTransport();
          FailAttempt(draw);
        case Built =>
          DisposeTransport();
          link.InstallTransport();
          if link.connectionAttempt == Some(attempt) { link.connectionAttempt := None; }
      }
    }

    method AttemptConnect(auth: Auth, draw: L.Draw)
      modifies Repr()
      ensures View() == Session.AttemptConnect(old(View()), auth, draw)
    {
      hide L.SettleConnect, L.BeginAttempt, Proceed;
      if link.connectionState == L.Disposed || !link.shouldReconnect {
        link.RejectOrResolveConnect();
        return;
      }
      if link.connectionState == L.Connecting || link.connectionAttempt.Some? { return; }
      var attempt := link.nextToken;
      link.ClaimAttempt();
      match auth {
        case Later => link.outstanding := link.outstanding + {attempt};
        case Now(build) => ContinueAttempt(attempt, build, draw);
      }
    }

    method Connect(auth: Auth, draw: L.Draw)
      requires Valid()
      modifies Repr()
      ensures View() == Step(old(View()), Event.Connect(auth, draw)) && Valid()
    {
      hide Inv, Session.AttemptConnect;
      StepInv(View(), Event.Connect(auth, draw));
      RequestConnection(auth, draw);
    }

    method RequestConnection(auth: Auth, draw: L.Draw)
      modifies Repr()
      ensures View() == ConnectStep(old(View()), auth, draw)
    {
      hide Session.AttemptConnect;
      if link.connectionState == L.Disposed || link.connectionState == L.Connected || link.connectPromise { return; }
      link.shouldReconnect, link.connectSettlers := true, true;
      AttemptConnect(auth, draw);
      link.connectPromise := true;
    }

    method EnsureConnected(auth: Auth, draw: L.Draw)
      requires Valid()
      modifies Repr()
      ensures View() == Step(old(View()), Event.EnsureConnected(auth, draw)) && Valid()
    {
      hide Inv, Session.AttemptConnect, ConnectStep;
      StepInv(View(), Event.EnsureConnected(auth, draw));
      if link.connectionState == L.Disposed { return; }
      if !link.shouldReconnect { link.shouldReconnect := true; }
      if link.connectionState == L.Connected || link.connectionState == L.Connecting { return; }
      if link.connectPromise {
        AttemptConnect(auth, draw);
      } else {
        RequestConnection(auth, draw);
      }
    }

    method CredentialsSettle(token: nat, build: Build, draw: L.Draw)
      requires Valid() && token in link.outstanding
      modifies Repr()
      ensures View() == Step(old(View()), Event.CredentialsSettle(token, build, draw)) && Valid()
    {
      hide Inv, Proceed;
      StepInv(View(), Event.CredentialsSettle(token, build, draw));
      link.outstanding := link.outstanding - {token};
      ContinueAttempt(token, build, draw);
    }

    // -------------------------------------------------------------------------
    // Timers and transport events
    // -------------------------------------------------------------------------

    method ReconnectTimerFires(id: nat, auth: Auth, draw: L.Draw)
      requires Valid() && id in link.timers.armed && link.timers.armed[id].Retry?
      modifies Repr()
      ensures View() == Step(old(View()), RetryFires(id, auth, draw)) && Valid()
    {
      hide Inv, Session.AttemptConnect, T.Fired;
      StepInv(View(), RetryFires(id, auth, draw));
      link.timers.Fire(id);
      if !link.shouldReconnect { return; }
      AttemptConnect(auth, draw);
    }

    method ConnectDeadlineFires(id: nat, draw: L.Draw)
      requires Valid() && id in link.timers.armed && link.timers.armed[id].Deadline?
      modifies Repr()
      ensures View() == Step(old(View()), DeadlineFires(id, draw)) && Valid()
    {
      hide Inv, Session.Teardown, T.Fired;
      StepInv(View(), DeadlineFires(id, draw));
      link.timers.Fire(id);
      if link.connectionState != L.Connecting { return; }
      Teardown(draw);
    }

    method GenericErrorDelayFires(id: nat, draw: L.Draw)
      requires Valid() && id in link.timers.armed && link.timers.armed[id].ErrorDelay?
      modifies Repr()
      ensures View() == Step(old(View()), ErrorDelayFires(id, draw)) && Valid()
    {
      hide Inv, Session.ScheduleReconnect, T.Fired;
      StepInv(View(), ErrorDelayFires(id, draw));
      link.timers.Fire(id);
      if link.connectionState != L.Connected && link.connectionState != L.Connecting { return; }
      var _ := ScheduleReconnect(draw);
    }

    method OnTransportOpen(helloSent: bool, draw: L.Draw)
      requires Valid() && link.transport.Some? && !link.transportErrored
      modifies Repr()
      ensures View() == Step(old(View()), TransportOpens(helloSent, draw)) && Valid()
    {
      hide Inv, Session.ScheduleReconnect, T.ClearErrorDelay;
      StepInv(View(), TransportOpens(helloSent, draw));
      link.timers.ClearGenericErrorTimeout();
      if link.connectionState != L.Connecting { return; }
      if !helloSent { var _ := ScheduleReconnect(draw); }
    }

    /** The judgement of a close: what it says about authentication, and whether retrying can help. */
    method JudgeClose(reason: CloseReason)
      modifies link, link.timers
      ensures var before := old(link.View());
        var authFailed := before.authFailed || reason == AuthRejected;
        var stop := reason == EndpointSecurity || reason == Superseded || (reason == Revoked && !authFailed);
        var cleared := L.Unwatch(before.(authFailed := authFailed));
        link.View() == if stop then L.SetReconnectEnabled(cleared, false) else cleared
    {
      hide T.ClearErrorDelay, T.ClearDeadline, T.ClearRetry;
      link.StopWatching();
      if !link.authFailure { link.authFailure := reason == AuthRejected; }
      if reason == EndpointSecurity || reason == Superseded || (reason == Revoked && !link.authFailure) {
        link.EnableReconnect(false);
      }
    }

    method OnTransportClose(reason: CloseReason, draw: L.Draw)
      requires Valid() && link.transport.Some?
      modifies Repr()
      ensures View() == Step(old(View()), TransportCloses(reason, draw)) && Valid()
    {
      hide Inv, Session.ScheduleReconnect, L.Unwatch, L.SetReconnectEnabled;
      StepInv(View(), TransportCloses(reason, draw));
      JudgeClose(reason);
      var _ := ScheduleReconnect(draw);
    }

    method OnTransportError(generic: bool, draw: L.Draw)
      requires Valid() && link.transport.Some?
      modifies Repr()
      ensures View() == Step(old(View()), TransportFails(generic, draw)) && Valid()
    {
      hide Inv, Session.ScheduleReconnect, L.GenericError, T.ClearErrorDelay, T.ClearDeadline;
      StepInv(View(), TransportFails(generic, draw));
      if generic {
        link.NoteGenericError();
        return;
      }
      link.transportErrored := true;
      link.StopWatching();
      var _ := ScheduleReconnect(draw);
    }

    method OnSecurityMode(mode: L.Mode)
      requires Valid()
      modifies Repr()
      ensures View() == Step(old(View()), ModeReported(mode)) && Valid()
    {
      hide Inv;
      StepInv(View(), ModeReported(mode));
      if mode == L.Protected { link.relaySecurityFloor := Some(L.Protected); }
    }

    method SetReconnectEnabled(enabled: bool)
      requires Valid()
      modifies Repr()
      ensures View() == Step(old(View()), SetReconnect(enabled)) && Valid()
    {
      hide Inv, L.SetReconnectEnabled;
      StepInv(View(), SetReconnect(enabled));
      link.EnableReconnect(enabled);
    }

    /** A subscription that could not be released gives the whole session up. */
    method DropSession(draw: L.Draw)
      requires Valid() && link.connectionState != L.Idle
      modifies Repr()
      ensures View() == Step(old(View()), SessionDropped(draw)) && Valid()
    {
      hide Inv, Session.Teardown;
      StepInv(View(), SessionDropped(draw));
      Teardown(draw);
    }

    method OpenTerminalSlot(slot: nat)
      requires Valid() && link.connectionState == L.Connected
      modifies Repr()
      ensures View() == Step(old(View()), SlotOpened(slot)) && Valid()
    {
      hide Inv;
      StepInv(View(), SlotOpened(slot));
      terminalSlots := terminalSlots + {slot};
    }

    // -------------------------------------------------------------------------
    // Requests
    // -------------------------------------------------------------------------

    method SendRequest(request: R.Request, aborted: bool)
      requires Valid()
      modifies Repr()
      ensures View() == Step(old(View()), Event.SendRequest(request, aborted)) && Valid()
    {
      hide Inv, R.QueueExact, R.SendNow, R.Hold, R.SendUnavailable;
      StepInv(View(), Event.SendRequest(request, aborted));
      RequestsExact(View());
      if aborted { return; }
      if link.transport.Some? && link.connectionState == L.Connected {
        table.SendCall(request, false);
      } else if link.connectionState == L.Connecting {
        table.HoldCall(request);
      } else {
        table.RefuseCall(request);
      }
    }

    method AbortRequest(call: R.CallId)
      requires Valid() && call < |table.calls| && R.CallOutcome(table.calls[call]).None?
      modifies Repr()
      ensures View() == Step(old(View()), Event.AbortRequest(call)) && Valid()
    {
      hide Inv, R.QueueExact, R.Abort;
      StepInv(View(), Event.AbortRequest(call));
      RequestsExact(View());
      table.AbortCall(call);
    }

    method WaiterTimeoutFires(call: R.CallId)
      requires Valid() && call in table.waiters
      modifies Repr()
      ensures View() == Step(old(View()), WaiterTimesOut(call)) && Valid()
    {
      hide Inv, R.Settle;
      StepInv(View(), WaiterTimesOut(call));
      table.CancelWaiter(call, R.TimedOut);
    }

    method SendQueueTimeoutFires(call: R.CallId)
      requires Valid() && call in table.pendingSendQueue
      modifies Repr()
      ensures View() == Step(old(View()), QueueTimesOut(call)) && Valid()
    {
      hide Inv, R.QueueExact, R.QueueTimeout;
      StepInv(View(), QueueTimesOut(call));
      RequestsExact(View());
      table.TimeOutQueuedSend(call);
    }

    // -------------------------------------------------------------------------
    // Messages
    // -------------------------------------------------------------------------

    /** The first server info of a connecting session: restore, flush, then resolve the connect. */
    method HandleServerInfo(requests: seq<R.Request>, rejected: set<R.CallId>, failing: set<R.CallId>)
      requires R.Inv(table.View())
      modifies Repr()
      ensures View() == EstablishSession(old(View()), requests, rejected, failing)
    {
      hide R.Inv, R.QueueExact, R.Restore, R.Flush, L.Establish, L.SettleConnect, V.StartBeat;
      if link.connectionState != L.Connecting { return; }
      R.RestoreKeeps(table.View(), requests);
      link.BecomeConnected();
      monitor.StartHeartbeat();
      table.RestoreSubscriptions(requests);
      QueueOf(table.View());
      table.FlushPendingSendQueue(rejected, failing);
      link.RejectOrResolveConnect();
    }

    method HandleMessage(message: Inbound, draw: L.Draw)
      requires R.Inv(table.View())
      modifies Repr()
      ensures View() == Deliver(old(View()), message, draw)
    {
      hide R.Inv, Session.Teardown, EstablishSession, R.Resolve, R.RejectOwners, V.SettleProbe, V.Heard;
      match message {
        case Garbage =>
        case Invalid(requestId) => if requestId.Some? { table.RejectWaitersForRequestId(requestId.value); }
        case Pong =>
          monitor.HearDaemon();
          monitor.ResolvePing(link.connectionState == L.Connected);
        case HelloRejected(password) =>
          monitor.HearDaemon();
          link.authFailure := password;
        case ServerInfo(requests, rejected, failing) =>
          monitor.HearDaemon();
          HandleServerInfo(requests, rejected, failing);
        case Answer(reply) =>
          monitor.HearDaemon();
          table.ResolveWaiters(reply);
        case Push => monitor.HearDaemon();
        case HostFrame =>
        case BadHostFrame => Teardown(draw);
        case FileFrame(effect) =>
          monitor.HearDaemon();
          match effect {
            case Quiet =>
            case Broken(requestId) => table.RejectWaitersForRequestId(requestId);
            case Complete(reply) => table.ResolveWaiters(reply);
          }
        case TerminalFrame => monitor.HearDaemon();
      }
    }

    method OnTransportMessage(message: Inbound, draw: L.Draw)
      requires Valid() && link.transport.Some?
      modifies Repr()
      ensures View() == Step(old(View()), MessageArrives(message, draw)) && Valid()
    {
      hide Inv, Deliver, R.Inv;
      StepInv(View(), MessageArrives(message, draw));
      RequestsExact(View());
      HandleMessage(message, draw);
    }

    // -------------------------------------------------------------------------
    // Liveness
    // -------------------------------------------------------------------------

    method RecordLivenessFailure(draw: L.Draw)
      modifies Repr()
      ensures View() == CountFailure(old(View()), draw)
    {
      hide Session.Teardown, V.Fail;
      var teardown := monitor.RecordFailure();
      if teardown { Teardown(draw); }
    }

    method HeartbeatTimerFires(sent: bool, draw: L.Draw)
      requires Valid() && monitor.heartbeatTimer.Some?
      modifies Repr()
      ensures View() == Step(old(View()), HeartbeatFires(sent, draw)) && Valid()
    {
      hide Inv, CountFailure, V.StopBeat, V.ScheduleBeat, V.OpenProbe, V.DropProbe;
      StepInv(View(), HeartbeatFires(sent, draw));
      monitor.StopHeartbeat();
      if link.connectionState != L.Connected || link.transport.None? {
        monitor.ScheduleNextHeartbeat(link.connectionState == L.Connected);
      } else if monitor.pingProbe.Some? {
        monitor.AwaitPing();
      } else {
        monitor.OpenPing(true);
        if sent {
          monitor.AwaitPing();
        } else {
          monitor.DropPing();
          RecordLivenessFailure(draw);
          monitor.ScheduleNextHeartbeat(link.connectionState == L.Connected);
        }
      }
    }

    method MeasureLatency(sent: bool)
      requires Valid()
      modifies Repr()
      ensures View() == Step(old(View()), Event.MeasureLatency(sent)) && Valid()
    {
      hide Inv, V.OpenProbe, V.DropProbe;
      StepInv(View(), Event.MeasureLatency(sent));
      if link.connectionState != L.Connected || link.transport.None? || monitor.pingProbe.Some? { return; }
      monitor.OpenPing(false);
      if !sent { monitor.DropPing(); }
    }

    method PingTimeoutFires(draw: L.Draw)
      requires Valid() && monitor.pingProbe.Some?
      modifies Repr()
      ensures View() == Step(old(View()), PingTimesOut(draw)) && Valid()
    {
      hide Inv, CountFailure, V.ScheduleBeat, V.DropProbe;
      StepInv(View(), PingTimesOut(draw));
      var probe, awaited := monitor.pingProbe.value, monitor.heartbeatAwaitsProbe;
      monitor.DropPing();
      if probe.drivesFailure { RecordLivenessFailure(draw); }
      if awaited { monitor.ScheduleNextHeartbeat(link.connectionState == L.Connected); }
    }

    // -------------------------------------------------------------------------
    // Closing
    // -------------------------------------------------------------------------

    method Close()
      requires Valid()
      modifies Repr()
      ensures View() == Step(old(View()), CloseBegins) && Valid()
    {
      hide Inv, L.Close, V.StopBeat, R.CloseWaiters;
      StepInv(View(), CloseBegins);
      if link.connectionState == L.Disposed { return; }
      link.DisposeConnection();
      monitor.StopHeartbeat();
      table.ClearWaitersOnClose();
      closing := true;
    }

    /** The rest of `close`, after the owned subscriptions have ended. */
    method FinishClose()
      requires Valid() && closing
      modifies Repr()
      ensures View() == Step(old(View()), CloseEnds) && Valid()
    {
      hide Inv, R.CloseQueue, V.DropProbe;
      StepInv(View(), CloseEnds);
      table.FinishClose();
      monitor.DropPing();
      terminalSlots := {};
      closing := false;
    }
  }

  lemma StepInv(s: State, e: Event)
    requires Inv(s) && Enabled(s, e)
    ensures Inv(Step(s, e))
  {
    hide Inv, Step, Enabled;
    StepKeeps(s, e);
  }

  lemma InitialInv(policy: B.Policy, enabled: bool, floor: Option<L.Mode>)
    ensures Inv(Initial(policy, enabled, floor))
  {
  }

  lemma RequestsExact(s: State)
    requires Inv(s)
    ensures R.Inv(s.reqs) && R.QueueExact(s.reqs)
  {
  }

  lemma QueueOf(r: R.Reqs)
    requires R.Inv(r)
    ensures R.QueueExact(r)
  {
  }
}
