/**
 * The whole client as a state machine. Each event is one uninterrupted turn of the event loop,
 * promise continuations included; `Enabled` says when the environment can produce it.
 */
module Session {
  import opened Prelude
  import Backoff
  import Timers
  import L = Link
  import R = Requests
  import V = Liveness

  datatype State = State(link: L.Link, reqs: R.Reqs, live: V.Live, slots: set<nat>, closing: bool)

  /** How one connection attempt ends once its credentials are known. */
  datatype Build = CredentialError | RelayRefused | FactoryError | Built

  datatype Auth = Later | Now(build: Build)

  datatype CloseReason = Ordinary | AuthRejected | EndpointSecurity | Superseded | Revoked

  datatype FileEffect = Quiet | Broken(requestId: string) | Complete(reply: R.Reply)

  datatype Inbound =
    | Garbage
    | Invalid(requestId: Option<string>)
    | Pong
    | HelloRejected(password: bool)
    | ServerInfo(restored: seq<R.Request>, rejected: set<R.CallId>, failing: set<R.CallId>)
    | Answer(reply: R.Reply)
    | Push
    | HostFrame
    | BadHostFrame
    | FileFrame(effect: FileEffect)
    | TerminalFrame

  datatype Event =
    | Connect(auth: Auth, draw: L.Draw)
    | EnsureConnected(auth: Auth, draw: L.Draw)
    | CredentialsSettle(token: nat, build: Build, draw: L.Draw)
    | RetryFires(id: nat, auth: Auth, draw: L.Draw)
    | DeadlineFires(id: nat, draw: L.Draw)
    | ErrorDelayFires(id: nat, draw: L.Draw)
    | TransportOpens(helloSent: bool, draw: L.Draw)
    | TransportCloses(reason: CloseReason, draw: L.Draw)
    | TransportFails(generic: bool, draw: L.Draw)
    | MessageArrives(message: Inbound, draw: L.Draw)
    | ModeReported(mode: L.Mode)
    | SetReconnect(enabled: bool)
    | SessionDropped(draw: L.Draw)
    | SendRequest(request: R.Request, aborted: bool)
    | AbortRequest(call: R.CallId)
    | WaiterTimesOut(call: R.CallId)
    | QueueTimesOut(call: R.CallId)
    | HeartbeatFires(sent: bool, draw: L.Draw)
    | MeasureLatency(sent: bool)
    | PingTimesOut(draw: L.Draw)
    | SlotOpened(slot: nat)
    | CloseBegins
    | CloseEnds

  function Initial(policy: Backoff.Policy, enabled: bool, floor: Option<L.Mode>): State {
    State(L.Initial(policy, enabled, floor), R.EMPTY, V.INITIAL, {}, false)
  }

  /** What the environment can do: live handlers, armed timers, unsettled calls. */
  predicate Enabled(s: State, e: Event) {
    match e
    case CredentialsSettle(token, _, _) => token in s.link.outstanding
    case RetryFires(id, _, _) => id in s.link.timers.armed && s.link.timers.armed[id].Retry?
    case DeadlineFires(id, _) => id in s.link.timers.armed && s.link.timers.armed[id].Deadline?
    case ErrorDelayFires(id, _) => id in s.link.timers.armed && s.link.timers.armed[id].ErrorDelay?
    case TransportOpens(_, _) => s.link.transport.Some? && !s.link.errored
    case TransportCloses(_, _) => s.link.transport.Some?
    case TransportFails(_, _) => s.link.transport.Some?
    case MessageArrives(_, _) => s.link.transport.Some?
    case SessionDropped(_) => s.link.status != L.Idle
    case AbortRequest(c) => c < |s.reqs.calls| && R.CallOutcome(s.reqs.calls[c]).None?
    case WaiterTimesOut(c) => c in s.reqs.waiters
    case QueueTimesOut(c) => c in s.reqs.queue
    case HeartbeatFires(_, _) => s.live.heartbeat.Some?
    case PingTimesOut(_) => s.live.probe.Some?
    case SlotOpened(_) => s.link.status == L.Connected
    case CloseEnds => s.closing
    case _ => true
  }

  // ---------------------------------------------------------------------------
  // Losing and building a connection
  // ---------------------------------------------------------------------------

  function DisposeTransport(s: State): State {
    s.(link := L.Dispose(s.link), live := V.StopBeat(s.live))
  }

  /** A heartbeat that waited for the dropped ping goes on only if a fault has left the client connected. */
  function ScheduleReconnect(s: State, draw: L.Draw): State {
    var lost := L.Lose(s.link, draw);
    s.(link := lost, reqs := R.Lose(s.reqs), live := V.SettleProbe(s.live, lost.status == L.Connected), slots := {})
  }

  function Teardown(s: State, draw: L.Draw): State {
    ScheduleReconnect(DisposeTransport(s), draw)
  }

  /** The catch block of an attempt that is still current; a fault in the loss leaves its `connect` unsettled. */
  function FailAttempt(s: State, draw: L.Draw): State {
    var cleared := s.(link := s.link.(timers := Timers.ClearDeadline(s.link.timers)));
    var lost := ScheduleReconnect(cleared, draw);
    if lost.link.pace.faults != s.link.pace.faults then lost else lost.(link := L.SettleConnect(lost.link))
  }

  /** An attempt continues with its credentials, unless it has been superseded. */
  function Proceed(s: State, token: nat, build: Build, draw: L.Draw): State {
    if s.link.attempt != Some(token) then s
    else
      match build
      case CredentialError => FailAttempt(s, draw)
      case RelayRefused =>
        var disposed := DisposeTransport(s);
        FailAttempt(disposed.(link := L.SetReconnectEnabled(disposed.link, false)), draw)
      case FactoryError => FailAttempt(DisposeTransport(s), draw)
      case Built =>
        var disposed := DisposeTransport(s);
        disposed.(link := L.EndAttempt(L.Install(disposed.link), token))
  }

  function AttemptConnect(s: State, auth: Auth, draw: L.Draw): State {
    if s.link.status == L.Disposed || !s.link.shouldReconnect then s.(link := L.SettleConnect(s.link))
    else if s.link.status == L.Connecting || s.link.attempt.Some? then s
    else
      var token := s.link.tokens;
      var begun := s.(link := L.BeginAttempt(s.link));
      match auth
      case Later => begun.(link := begun.link.(outstanding := begun.link.outstanding + {token}))
      case Now(build) => Proceed(begun, token, build, draw)
  }

  /**
   * The promise field is assigned after its executor has run the attempt, so a synchronous
   * failure settles the connect before the field that would be cleared is set.
   */
  function ConnectStep(s: State, auth: Auth, draw: L.Draw): State {
    if s.link.status == L.Disposed || s.link.status == L.Connected || s.link.promise then s
    else
      var asked := s.(link := s.link.(shouldReconnect := true, pending := true));
      var tried := AttemptConnect(asked, auth, draw);
      tried.(link := tried.link.(promise := true))
  }

  function EnsureStep(s: State, auth: Auth, draw: L.Draw): State {
    if s.link.status == L.Disposed then s
    else
      var wanted := s.(link := s.link.(shouldReconnect := true));
      if L.InSession(s.link) then wanted
      else if s.link.promise then AttemptConnect(wanted, auth, draw)
      else ConnectStep(wanted, auth, draw)
  }

  function CloseTransport(s: State, reason: CloseReason, draw: L.Draw): State {
    var authFailed := s.link.authFailed || reason == AuthRejected;
    var stop := reason == EndpointSecurity || reason == Superseded || (reason == Revoked && !authFailed);
    var cleared := L.Unwatch(s.link.(authFailed := authFailed));
    ScheduleReconnect(s.(link := if stop then L.SetReconnectEnabled(cleared, false) else cleared), draw)
  }

  // ---------------------------------------------------------------------------
  // Messages and liveness
  // ---------------------------------------------------------------------------

  function Heard(s: State): State {
    s.(live := V.Heard(s.live))
  }

  /** Subscriptions are restored first, then the held sends go out, then the connect resolves. */
  function EstablishSession(
    s: State, restored: seq<R.Request>, rejected: set<R.CallId>, failing: set<R.CallId>): State
  {
    if s.link.status != L.Connecting then s
    else s.(link := L.SettleConnect(L.Establish(s.link)),
            live := V.StartBeat(s.live),
            reqs := R.Flush(R.Restore(s.reqs, restored), rejected, failing))
  }

  function Deliver(s: State, message: Inbound, draw: L.Draw): State {
    match message
    case Garbage => s
    case Invalid(requestId) => if requestId.Some? then s.(reqs := R.RejectOwners(s.reqs, requestId.value)) else s
    case Pong => var heard := Heard(s); heard.(live := V.SettleProbe(heard.live, s.link.status == L.Connected))
    case HelloRejected(password) => var heard := Heard(s); heard.(link := heard.link.(authFailed := password))
    case ServerInfo(restored, rejected, failing) => EstablishSession(Heard(s), restored, rejected, failing)
    case Answer(reply) => var heard := Heard(s); heard.(reqs := R.Resolve(heard.reqs, reply))
    case Push => Heard(s)
    case HostFrame => s
    case BadHostFrame => Teardown(s, draw)
    case FileFrame(effect) =>
      var heard := Heard(s);
      (match effect
       case Quiet => heard
       case Broken(requestId) => heard.(reqs := R.RejectOwners(heard.reqs, requestId))
       case Complete(reply) => heard.(reqs := R.Resolve(heard.reqs, reply)))
    case TerminalFrame => Heard(s)
  }

  /** A failed ping of the heartbeat: counted, and at the threshold the transport goes. */
  function CountFailure(s: State, draw: L.Draw): State {
    var (live, teardown) := V.Fail(s.live);
    var counted := s.(live := live);
    if teardown then Teardown(counted, draw) else counted
  }

  function NextBeat(s: State): State {
    s.(live := V.ScheduleBeat(s.live, s.link.status == L.Connected))
  }

  function Beat(s: State, sent: bool, draw: L.Draw): State {
    var fired := s.(live := V.StopBeat(s.live));
    if s.link.status != L.Connected || s.link.transport.None? then NextBeat(fired)
    else if fired.live.probe.Some? then fired.(live := fired.live.(attached := true))
    else if sent then fired.(live := V.OpenProbe(fired.live, true).(attached := true))
    else NextBeat(CountFailure(fired.(live := V.DropProbe(V.OpenProbe(fired.live, true))), draw))
  }

  function Measure(s: State, sent: bool): State {
    if s.link.status != L.Connected || s.link.transport.None? || s.live.probe.Some? then s
    else
      var pinged := V.OpenProbe(s.live, false);
      s.(live := if sent then pinged else V.DropProbe(pinged))
  }

  function PingTimeout(s: State, draw: L.Draw): State
    requires s.live.probe.Some?
  {
    var dropped := s.(live := V.DropProbe(s.live));
    var judged := if s.live.probe.value.drivesFailure then CountFailure(dropped, draw) else dropped;
    if s.live.attached then NextBeat(judged) else judged
  }

  // ---------------------------------------------------------------------------
  // One step
  // ---------------------------------------------------------------------------

  function Send(s: State, request: R.Request): State {
    s.(reqs :=
         if s.link.transport.Some? && s.link.status == L.Connected then R.SendNow(s.reqs, request, false)
         else if s.link.status == L.Connecting then R.Hold(s.reqs, request.requestId, request.responseType, false)
         else R.SendUnavailable(s.reqs, request))
  }

  function Close(s: State): State {
    if s.link.status == L.Disposed then s
    else s.(link := L.Close(s.link), live := V.StopBeat(s.live), reqs := R.CloseWaiters(s.reqs), closing := true)
  }

  function FinishClose(s: State): State {
    s.(reqs := R.CloseQueue(s.reqs), live := V.DropProbe(s.live), slots := {}, closing := false)
  }

  function TimerFired(s: State, id: nat): State
    requires id in s.link.timers.armed
  {
    s.(link := s.link.(timers := Timers.Fired(s.link.timers, id)))
  }

  function Step(s: State, e: Event): State
    requires Enabled(s, e)
  {
    match e
    case Connect(auth, draw) => ConnectStep(s, auth, draw)
    case EnsureConnected(auth, draw) => EnsureStep(s, auth, draw)
    case CredentialsSettle(token, build, draw) =>
      Proceed(s.(link := s.link.(outstanding := s.link.outstanding - {token})), token, build, draw)
    case RetryFires(id, auth, draw) =>
      if s.link.shouldReconnect then AttemptConnect(TimerFired(s, id), auth, draw) else TimerFired(s, id)
    case DeadlineFires(id, draw) =>
      if s.link.status == L.Connecting then Teardown(TimerFired(s, id), draw) else TimerFired(s, id)
    case ErrorDelayFires(id, draw) =>
      if L.InSession(s.link) then ScheduleReconnect(TimerFired(s, id), draw) else TimerFired(s, id)
    case TransportOpens(helloSent, draw) =>
      var cleared := s.(link := s.link.(timers := Timers.ClearErrorDelay(s.link.timers)));
      if s.link.status == L.Connecting && !helloSent then ScheduleReconnect(cleared, draw) else cleared
    case TransportCloses(reason, draw) => CloseTransport(s, reason, draw)
    case TransportFails(generic, draw) =>
      if generic then s.(link := L.GenericError(s.link))
      else
        ScheduleReconnect(s.(link := L.Unwatch(s.link.(errored := true))), draw)
    case MessageArrives(message, draw) => Deliver(s, message, draw)
    case ModeReported(mode) => s.(link := s.link.(security := L.ReportMode(s.link.security, mode)))
    case SetReconnect(enabled) => s.(link := L.SetReconnectEnabled(s.link, enabled))
    case SessionDropped(draw) => Teardown(s, draw)
    case SendRequest(request, aborted) => if aborted then s else Send(s, request)
    case AbortRequest(call) => s.(reqs := R.Abort(s.reqs, call))
    case WaiterTimesOut(call) => s.(reqs := R.WaiterTimeout(s.reqs, call))
    case QueueTimesOut(call) => s.(reqs := R.QueueTimeout(s.reqs, call))
    case HeartbeatFires(sent, draw) => Beat(s, sent, draw)
    case MeasureLatency(sent) => Measure(s, sent)
    case PingTimesOut(draw) => PingTimeout(s, draw)
    case SlotOpened(slot) => s.(slots := s.slots + {slot})
    case CloseBegins => Close(s)
    case CloseEnds => FinishClose(s)
  }
}
