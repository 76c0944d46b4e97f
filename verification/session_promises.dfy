/** Callers that wait, for `connect` or for a response: who still owes them an answer. */
module SessionPromises {
  import opened Prelude
  import opened Session
  import opened SessionSafety
  import opened SessionRuns
  import B = Backoff
  import Timers
  import L = Link
  import R = Requests
  import V = Liveness

  predicate OnRecord(l: L.Link) {
    l.pending ==> l.promise
  }

  /**
   * A waiting `connect` has its promise on record and, unless a loss has broken off, something
   * driving the connection; and a connected client then owes no answer.
   */
  predicate Served(l: L.Link) {
    && OnRecord(l)
    && (l.pace.faults == 0 && l.pending ==> 1 <= L.Drivers(l))
    && (l.pace.faults == 0 && l.status == L.Connected ==> !l.pending && !l.promise)
  }

  /** The armed retry of a waiting `connect` is taken away. */
  predicate Abandons(s: State, e: Event) {
    e == SetReconnect(false) && s.link.pending && s.link.timers.retry.Some?
  }

  lemma LoseServes(s: State, draw: L.Draw)
    requires OnRecord(s.link)
    ensures Served(ScheduleReconnect(s, draw).link) && Served(Teardown(s, draw).link)
  {
    hide L.Lose, R.Lose, V.SettleProbe, V.StopBeat, Timers.ClearDeadline, Timers.ClearErrorDelay;
    L.LoseShape(s.link, draw);
    L.LoseAnswers(s.link, draw);
    L.LoseShape(L.Dispose(s.link), draw);
    L.LoseAnswers(L.Dispose(s.link), draw);
  }

  lemma FailServes(s: State, draw: L.Draw)
    ensures var l := FailAttempt(s, draw).link;
      Served(l.(promise := true)) && (OnRecord(s.link) ==> Served(l))
  {
    hide L.Lose, R.Lose, V.SettleProbe, Timers.ClearDeadline;
    L.LoseShape(s.link.(timers := Timers.ClearDeadline(s.link.timers)), draw);
  }

  lemma ProceedServes(s: State, token: nat, build: Build, draw: L.Draw)
    requires s.link.attempt == Some(token)
    ensures var l := Proceed(s, token, build, draw).link;
      Served(l.(promise := true)) && (OnRecord(s.link) ==> Served(l))
  {
    hide FailAttempt, DisposeTransport, L.SetReconnectEnabled, Timers.ClearDeadline, Timers.ArmDeadline;
    DisposedShape(s);
    var disposed := DisposeTransport(s);
    FailServes(s, draw);
    FailServes(disposed, draw);
    FailServes(disposed.(link := L.SetReconnectEnabled(disposed.link, false)), draw);
  }

  lemma AttemptServes(s: State, auth: Auth, draw: L.Draw)
    requires s.link.status != L.Connected
    ensures var l := AttemptConnect(s, auth, draw).link;
      Served(l.(promise := true)) && (OnRecord(s.link) ==> Served(l))
  {
    hide Proceed, Timers.ClearRetry;
    if auth.Now? { ProceedServes(s.(link := L.BeginAttempt(s.link)), s.link.tokens, auth.build, draw); }
  }

  lemma AskServes(s: State, auth: Auth, draw: L.Draw)
    requires Served(s.link)
    ensures Served(ConnectStep(s, auth, draw).link) && Served(EnsureStep(s, auth, draw).link)
  {
    hide AttemptConnect;
    if s.link.status != L.Connected {
      AttemptServes(s.(link := s.link.(shouldReconnect := true)), auth, draw);
      AttemptServes(s.(link := s.link.(shouldReconnect := true, pending := true)), auth, draw);
    }
  }

  lemma FiredServes(s: State, id: nat, auth: Auth, draw: L.Draw)
    requires Inv(s) && Served(s.link) && id in s.link.timers.armed
    ensures s.link.timers.armed[id].Retry? ==> Served(AttemptConnect(TimerFired(s, id), auth, draw).link)
    ensures !s.link.timers.armed[id].Retry? ==> Served(TimerFired(s, id).link)
    ensures Served(ScheduleReconnect(TimerFired(s, id), draw).link) && Served(Teardown(TimerFired(s, id), draw).link)
  {
    hide AttemptConnect, ScheduleReconnect, Teardown, R.Inv, V.Inv;
    if s.link.timers.armed[id].Retry? { AttemptServes(TimerFired(s, id), auth, draw); }
    LoseServes(TimerFired(s, id), draw);
  }

  lemma EstablishServes(s: State, restored: seq<R.Request>, rejected: set<R.CallId>, failing: set<R.CallId>)
    requires Served(s.link)
    ensures Served(EstablishSession(s, restored, rejected, failing).link)
  {
    hide R.Flush, R.Restore, V.StartBeat;
  }

  lemma MessageServes(s: State, message: Inbound, draw: L.Draw)
    requires Served(s.link)
    ensures Served(Deliver(s, message, draw).link)
  {
    hide Teardown, EstablishSession, R.Resolve, R.RejectOwners, V.Heard, V.SettleProbe;
    match message
    case ServerInfo(restored, rejected, failing) => EstablishServes(Heard(s), restored, rejected, failing);
    case BadHostFrame => LoseServes(s, draw);
    case _ =>
  }

  lemma BeatServes(s: State, sent: bool, draw: L.Draw)
    requires Served(s.link)
    ensures Served(Beat(s, sent, draw).link)
    ensures s.live.probe.Some? ==> Served(PingTimeout(s, draw).link)
  {
    hide CountFailure, V.ScheduleBeat, V.StopBeat, V.OpenProbe, V.DropProbe;
    CountServes(s.(live := V.DropProbe(V.OpenProbe(V.StopBeat(s.live), true))), draw);
    CountServes(s.(live := V.DropProbe(s.live)), draw);
  }

  lemma CountServes(s: State, draw: L.Draw)
    requires Served(s.link)
    ensures Served(CountFailure(s, draw).link)
  {
    hide Teardown;
    LoseServes(s.(live := V.Fail(s.live).0), draw);
  }

  lemma GenericErrorServes(l: L.Link)
    requires Served(l)
    ensures Served(L.GenericError(l))
  {
  }

  lemma CloseServes(s: State, reason: CloseReason, draw: L.Draw)
    requires Served(s.link)
    ensures Served(CloseTransport(s, reason, draw).link)
  {
    hide ScheduleReconnect, Timers.ClearErrorDelay, Timers.ClearDeadline, Timers.ClearRetry;
    var judged := L.Unwatch(s.link.(authFailed := s.link.authFailed || reason == AuthRejected));
    LoseServes(s.(link := judged), draw);
    LoseServes(s.(link := L.SetReconnectEnabled(judged, false)), draw);
  }

  lemma TransportServes(s: State, e: Event)
    requires Enabled(s, e) && Served(s.link)
    requires e.TransportOpens? || e.TransportCloses? || e.TransportFails? || e.SessionDropped?
    ensures Served(Step(s, e).link)
  {
    hide ScheduleReconnect, Teardown, CloseTransport, Timers.ClearDeadline, Timers.ClearRetry, L.GenericError;
    match e
    case TransportOpens(_, draw) =>
      LoseServes(s.(link := s.link.(timers := Timers.ClearErrorDelay(s.link.timers))), draw);
    case TransportCloses(reason, draw) => CloseServes(s, reason, draw);
    case TransportFails(_, draw) =>
      GenericErrorServes(s.link);
      LoseServes(s.(link := L.Unwatch(s.link.(errored := true))), draw);
    case SessionDropped(draw) => LoseServes(s, draw);
  }

  lemma QuietServes(s: State, e: Event)
    requires Inv(s) && Enabled(s, e) && Served(s.link)
    requires e.ModeReported? || e.SetReconnect? || e.SendRequest? || e.AbortRequest? || e.WaiterTimesOut?
      || e.QueueTimesOut? || e.MeasureLatency? || e.SlotOpened? || e.CloseBegins? || e.CloseEnds?
    ensures Step(s, e).link.pace.faults == s.link.pace.faults
    ensures !Abandons(s, e) ==> Served(Step(s, e).link)
    ensures s.link.pace.faults == 0 ==> (Served(Step(s, e).link) <==> !Abandons(s, e))
  {
    hide R.Inv, V.Inv, L.Core, V.StopBeat, V.DropProbe, V.OpenProbe,
         R.SendNow, R.SendUnavailable, R.Hold, R.Abort, R.QueueTimeout, R.WaiterTimeout, R.CloseQueue, R.CloseWaiters;
  }

  lemma AbandonedStep(s: State, e: Event)
    requires Inv(s) && Enabled(s, e) && Served(s.link)
    ensures !Abandons(s, e) ==> Served(Step(s, e).link)
    ensures Step(s, e).link.pace.faults == 0 ==> (Served(Step(s, e).link) <==> !Abandons(s, e))
  {
    hide Inv, Served, ConnectStep, EnsureStep, AttemptConnect, Proceed, CloseTransport, Teardown, ScheduleReconnect,
         Deliver, Beat, PingTimeout, Measure, Send, Close, FinishClose;
    match e
    case Connect(auth, draw) => AskServes(s, auth, draw);
    case EnsureConnected(auth, draw) => AskServes(s, auth, draw);
    case CredentialsSettle(token, build, draw) => CredentialsServe(s, token, build, draw);
    case RetryFires(id, auth, draw) =>
      FiredServes(s, id, auth, draw);
      RetryWanted(s, id);
    case DeadlineFires(id, draw) => FiredServes(s, id, Auth.Later, draw);
    case ErrorDelayFires(id, draw) => FiredServes(s, id, Auth.Later, draw);
    case TransportOpens(_, _) => TransportServes(s, e);
    case TransportCloses(_, _) => TransportServes(s, e);
    case TransportFails(_, _) => TransportServes(s, e);
    case SessionDropped(_) => TransportServes(s, e);
    case MessageArrives(message, draw) => MessageServes(s, message, draw);
    case HeartbeatFires(sent, draw) => BeatServes(s, sent, draw);
    case PingTimesOut(draw) => BeatServes(s, true, draw);
    case _ => QuietServes(s, e);
  }

  lemma RetryWanted(s: State, id: nat)
    requires Inv(s) && id in s.link.timers.armed && s.link.timers.armed[id].Retry?
    ensures s.link.shouldReconnect
  {
    hide R.Inv, V.Inv;
  }

  lemma CredentialsServe(s: State, token: nat, build: Build, draw: L.Draw)
    requires Served(s.link) && token in s.link.outstanding
    ensures Served(Step(s, CredentialsSettle(token, build, draw)).link)
  {
    hide FailAttempt, DisposeTransport, L.Install;
    var arrived := s.(link := s.link.(outstanding := s.link.outstanding - {token}));
    if s.link.attempt == Some(token) { ProceedServes(arrived, token, build, draw); }
  }

  /**
   * Nobody waits for `connect` in vain: over any run in which no armed retry of a waiting connect
   * is disabled and no loss breaks off, a waiting connect has exactly one driver and a connected
   * client has answered it.
   */
  lemma {:induction false} ConnectAnswered(tr: seq<State>, es: seq<Event>, i: nat)
    requires Run(tr, es) && i <= |es|
    requires forall j :: 0 <= j < i ==> !Abandons(tr[j], es[j])
    requires tr[i].link.pace.faults == 0
    ensures tr[i].link.pending ==> L.Drivers(tr[i].link) == 1
    ensures tr[i].link.status == L.Connected ==> !tr[i].link.pending && !tr[i].link.promise
  {
    hide Inv, L.Drivers;
    ServedThroughout(tr, es, i);
    AtMostOneDriver(tr, es, i);
  }

  /** The first step that leaves a waiting `connect` unserved is exactly one that disables its armed retry. */
  lemma AbandonedExactly(tr: seq<State>, es: seq<Event>, i: nat)
    requires Run(tr, es) && i < |es|
    requires forall j :: 0 <= j < i ==> !Abandons(tr[j], es[j])
    requires tr[i + 1].link.pace.faults == 0
    ensures Served(tr[i + 1].link) <==> !Abandons(tr[i], es[i])
  {
    hide Inv, Served, Step, Abandons, Enabled;
    ServedThroughout(tr, es, i);
    RunInv(tr, es, i);
    assert StepAt(tr, es, i);
    AbandonedStep(tr[i], es[i]);
  }

  lemma {:induction false} ServedThroughout(tr: seq<State>, es: seq<Event>, i: nat)
    requires Run(tr, es) && i <= |es|
    requires forall j :: 0 <= j < i ==> !Abandons(tr[j], es[j])
    ensures Served(tr[i].link)
  {
    hide Inv, Step, Abandons, Enabled;
    if i > 0 {
      ServedThroughout(tr, es, i - 1);
      RunInv(tr, es, i - 1);
      assert StepAt(tr, es, i - 1);
      AbandonedStep(tr[i - 1], es[i - 1]);
    }
  }

  /** Disabling does abandon it: the connect stays unanswered, nothing drives it, and `connect` changes nothing. */
  lemma AbandonedStays(s: State, auth: Auth, draw: L.Draw)
    requires Inv(s) && Served(s.link) && Abandons(s, SetReconnect(false))
    ensures var s' := Step(s, SetReconnect(false));
      && s'.link.pending && L.Drivers(s'.link) == 0
      && Step(s', Connect(auth, draw)) == s'
  {
    hide R.Inv, V.Inv, L.Core;
  }

  /** And it happens: a first session is lost, its retry is armed, and then reconnecting is disabled. */
  lemma AbandonmentReachable() returns (tr: seq<State>, es: seq<Event>)
    ensures Run(tr, es) && |es| == 3 && Abandons(tr[3], SetReconnect(false)) && tr[3].link.pace.faults == 0
  {
    hide ConnectStep, Proceed, CloseTransport;
    var policy, draw := B.Policy(1_500, 30_000, false), L.Draw(0.0, 0.0, 0);
    var s0 := Initial(policy, true, None);
    es := [Connect(Auth.Later, draw), CredentialsSettle(0, Built, draw), TransportCloses(Ordinary, draw)];
    FirstSession(policy, draw);
    var s1 := Step(s0, es[0]);
    var s2 := Step(s1, es[1]);
    var s3 := Step(s2, es[2]);
    FirstLossArms(s2, draw);
    tr := [s0, s1, s2, s3];
    assert StepAt(tr, es, 0) && StepAt(tr, es, 1) && StepAt(tr, es, 2);
    assert tr[0] == Initial(policy, true, None);
  }

  /** A first connect whose credentials arrive is a connecting session with its `connect` waiting. */
  lemma FirstSession(policy: B.Policy, draw: L.Draw)
    ensures var s1 := ConnectStep(Initial(policy, true, None), Auth.Later, draw);
      && 0 in s1.link.outstanding
      && var l := Proceed(s1.(link := s1.link.(outstanding := s1.link.outstanding - {0})), 0, Built, draw).link;
         && l.status == L.Connecting && l.shouldReconnect && l.enabled && !l.authFailed && l.transport.Some?
         && l.pending && l.pace == L.Pace(policy, 0, None, None, 0, 0, 0)
  {
    hide V.StopBeat;
  }

  /** Losing a first connecting session arms the retry that its `connect` waits for. */
  lemma FirstLossArms(s: State, draw: L.Draw)
    requires s.link.status == L.Connecting && s.link.shouldReconnect && s.link.enabled && !s.link.authFailed
    requires s.link.pace == L.Pace(B.Policy(1_500, 30_000, false), 0, None, None, 0, 0, 0) && s.link.pending
    requires draw.now == 0
    ensures var l := CloseTransport(s, Ordinary, draw).link;
      l.pending && l.timers.retry.Some? && l.pace.faults == 0
  {
    hide R.Lose, V.SettleProbe, Timers.ClearRetry, Timers.ClearDeadline, Timers.ClearErrorDelay;
    assert B.Scaled(1_500, 0) == 1_500;
  }

  // ---------------------------------------------------------------------------
  // Nothing waits outside a session
  // ---------------------------------------------------------------------------

  /** Waiters exist only while a connecting or connected session can still answer or lose them. */
  predicate Attended(s: State) {
    s.reqs.waiters == {} || L.InSession(s.link)
  }

  lemma WaitersShrink(r: R.Reqs, verdict: map<R.CallId, R.Outcome>)
    ensures R.Settle(r, verdict).waiters <= r.waiters && R.Continue(r).waiters <= r.waiters
    ensures R.Continue(R.Refuse(r, verdict)).waiters <= r.waiters
    ensures R.Lose(r).waiters == {} && R.CloseWaiters(r).waiters == {}
  {
  }

  lemma RequestsShrink(r: R.Reqs, c: R.CallId)
    ensures R.Abort(r, c).waiters <= r.waiters && R.QueueTimeout(r, c).waiters <= r.waiters
    ensures R.WaiterTimeout(r, c).waiters <= r.waiters && R.CloseQueue(r).waiters <= r.waiters
  {
    hide R.Settle, R.Refuse, R.Continue;
    WaitersShrink(r, map[c := R.TimedOut]);
    WaitersShrink(r, map[c := R.Canceled]);
    WaitersShrink(R.Settle(r, map[c := R.Canceled]), map[c := R.Canceled]);
    WaitersShrink(r, R.All(r, R.Closed));
  }

  /** A request that finds no connection cancels its own waiter before anyone can see it. */
  lemma UnavailableLeavesNone(r: R.Reqs, request: R.Request)
    ensures R.SendUnavailable(r, request).waiters <= r.waiters
  {
  }

  lemma LossAttends(s: State, draw: L.Draw)
    ensures Attended(ScheduleReconnect(s, draw)) && Attended(Teardown(s, draw)) && Attended(FailAttempt(s, draw))
  {
    hide R.Lose, L.Lose, L.Dispose, V.DropProbe, V.StopBeat;
    WaitersShrink(s.reqs, map[]);
  }

  lemma ProceedAttends(s: State, token: nat, build: Build, draw: L.Draw)
    requires Attended(s)
    ensures Attended(Proceed(s, token, build, draw))
  {
    hide Attended, FailAttempt, DisposeTransport, L.SetReconnectEnabled, L.Install, L.EndAttempt;
    if s.link.attempt == Some(token) {
      var disposed := DisposeTransport(s);
      match build
      case CredentialError => FailAttends(s, draw);
      case RelayRefused => FailAttends(disposed.(link := L.SetReconnectEnabled(disposed.link, false)), draw);
      case FactoryError => FailAttends(disposed, draw);
      case Built => InstallAttends(disposed, token);
    }
  }

  lemma FailAttends(s: State, draw: L.Draw)
    ensures Attended(FailAttempt(s, draw))
  {
    hide Attended, FailAttempt, ScheduleReconnect, Teardown;
    LossAttends(s, draw);
  }

  lemma InstallAttends(s: State, token: nat)
    ensures Attended(s.(link := L.EndAttempt(L.Install(s.link), token)))
  {
    hide Timers.ClearDeadline, Timers.ArmDeadline;
  }

  lemma AskAttends(s: State, auth: Auth, draw: L.Draw)
    requires Attended(s)
    ensures Attended(AttemptConnect(s, auth, draw))
    ensures Attended(ConnectStep(s, auth, draw)) && Attended(EnsureStep(s, auth, draw))
  {
    hide AttemptConnect;
    AttemptAttends(s, auth, draw);
    AttemptAttends(s.(link := s.link.(shouldReconnect := true)), auth, draw);
    AttemptAttends(s.(link := s.link.(shouldReconnect := true, pending := true)), auth, draw);
  }

  lemma AttemptAttends(s: State, auth: Auth, draw: L.Draw)
    requires Attended(s)
    ensures Attended(AttemptConnect(s, auth, draw))
  {
    hide Proceed, Timers.ClearRetry;
    if auth.Now? { ProceedAttends(s.(link := L.BeginAttempt(s.link)), s.link.tokens, auth.build, draw); }
  }

  lemma TimerAttends(s: State, id: nat, auth: Auth, draw: L.Draw)
    requires Attended(s) && id in s.link.timers.armed
    ensures var fired := TimerFired(s, id);
      && Attended(fired) && Attended(AttemptConnect(fired, auth, draw))
      && Attended(ScheduleReconnect(fired, draw)) && Attended(Teardown(fired, draw))
  {
    hide AttemptConnect, ScheduleReconnect, Teardown, Timers.Fired;
    AskAttends(TimerFired(s, id), auth, draw);
    LossAttends(TimerFired(s, id), draw);
  }

  lemma LinkAttends(s: State, e: Event)
    requires Enabled(s, e) && Attended(s)
    requires e.TransportOpens? || e.TransportCloses? || e.TransportFails? || e.SessionDropped?
    ensures Attended(Step(s, e))
  {
    hide ScheduleReconnect, Teardown, Timers.ClearErrorDelay, Timers.ClearDeadline, Timers.ClearRetry,
         Timers.ArmErrorDelay;
    match e
    case TransportOpens(_, draw) =>
      LossAttends(s.(link := s.link.(timers := Timers.ClearErrorDelay(s.link.timers))), draw);
    case TransportCloses(reason, draw) =>
      var judged := L.Unwatch(s.link.(authFailed := s.link.authFailed || reason == AuthRejected));
      LossAttends(s.(link := judged), draw);
      LossAttends(s.(link := L.SetReconnectEnabled(judged, false)), draw);
    case TransportFails(_, draw) => LossAttends(s.(link := L.Unwatch(s.link.(errored := true))), draw);
    case SessionDropped(draw) => LossAttends(s, draw);
  }

  lemma EstablishAttends(s: State, restored: seq<R.Request>, rejected: set<R.CallId>, failing: set<R.CallId>)
    requires Attended(s)
    ensures Attended(EstablishSession(s, restored, rejected, failing))
  {
    hide R.Flush, R.Restore, V.StartBeat, Timers.ClearDeadline;
  }

  /** Settling some waiters attends to the rest as before. */
  lemma ShrunkAttends(s: State, reqs: R.Reqs)
    requires Attended(s) && reqs.waiters <= s.reqs.waiters
    ensures Attended(s.(reqs := reqs))
  {
  }

  lemma SettledAttends(s: State, verdict: map<R.CallId, R.Outcome>)
    requires Attended(s)
    ensures Attended(s.(reqs := R.Settle(s.reqs, verdict)))
  {
    hide Attended, R.Settle;
    WaitersShrink(s.reqs, verdict);
    ShrunkAttends(s, R.Settle(s.reqs, verdict));
  }

  lemma LivelyAttends(s: State, live: V.Live)
    requires Attended(s)
    ensures Attended(s.(live := live))
  {
  }

  lemma MessageAttends(s: State, message: Inbound, draw: L.Draw)
    requires Attended(s)
    ensures Attended(Deliver(s, message, draw))
  {
    hide Attended, Teardown, EstablishSession, R.Settle, V.Heard, V.SettleProbe;
    var heard := Heard(s);
    LivelyAttends(s, V.Heard(s.live));
    match message
    case Invalid(requestId) => if requestId.Some? { SettledAttends(s, R.Owners(s.reqs, requestId.value)); }
    case Pong => LivelyAttends(heard, V.SettleProbe(heard.live, s.link.status == L.Connected));
    case HelloRejected(password) => MarkedAttends(heard, password);
    case ServerInfo(restored, rejected, failing) => EstablishAttends(heard, restored, rejected, failing);
    case Answer(reply) => SettledAttends(heard, R.Readings(s.reqs, reply));
    case BadHostFrame => LossAttends(s, draw);
    case FileFrame(effect) =>
      if effect.Broken? { SettledAttends(heard, R.Owners(s.reqs, effect.requestId)); }
      if effect.Complete? { SettledAttends(heard, R.Readings(s.reqs, effect.reply)); }
    case _ =>
  }

  lemma MarkedAttends(s: State, authFailed: bool)
    requires Attended(s)
    ensures Attended(s.(link := s.link.(authFailed := authFailed)))
  {
  }

  lemma CountAttends(s: State, draw: L.Draw)
    requires Attended(s)
    ensures Attended(CountFailure(s, draw))
  {
    hide Teardown, V.Fail;
    LossAttends(s.(live := V.Fail(s.live).0), draw);
  }

  lemma BeatAttends(s: State, sent: bool, draw: L.Draw)
    requires Attended(s)
    ensures Attended(Beat(s, sent, draw)) && (s.live.probe.Some? ==> Attended(PingTimeout(s, draw)))
  {
    hide CountFailure, V.ScheduleBeat, V.StopBeat, V.OpenProbe, V.DropProbe;
    CountAttends(s.(live := V.DropProbe(V.OpenProbe(V.StopBeat(s.live), true))), draw);
    CountAttends(s.(live := V.DropProbe(s.live)), draw);
  }

  lemma SendAttends(s: State, request: R.Request)
    requires Attended(s)
    ensures Attended(Send(s, request))
  {
    hide R.SendNow, R.Hold, R.SendUnavailable;
    UnavailableLeavesNone(s.reqs, request);
  }

  lemma RequestAttends(s: State, e: Event)
    requires Enabled(s, e) && Attended(s)
    requires e.SendRequest? || e.AbortRequest? || e.WaiterTimesOut? || e.QueueTimesOut?
    ensures Attended(Step(s, e))
  {
    hide Attended, Send, R.Abort, R.QueueTimeout, R.WaiterTimeout, ConnectStep, EnsureStep, AttemptConnect, Proceed,
         CloseTransport, Teardown, ScheduleReconnect, TimerFired, Deliver, Beat, PingTimeout, Measure, Close,
         FinishClose, L.GenericError, L.Unwatch, L.SetReconnectEnabled, L.ReportMode;
    match e
    case SendRequest(request, _) => SendAttends(s, request);
    case AbortRequest(c) => RequestsShrink(s.reqs, c); ShrunkAttends(s, R.Abort(s.reqs, c));
    case WaiterTimesOut(c) => RequestsShrink(s.reqs, c); ShrunkAttends(s, R.WaiterTimeout(s.reqs, c));
    case QueueTimesOut(c) => RequestsShrink(s.reqs, c); ShrunkAttends(s, R.QueueTimeout(s.reqs, c));
  }

  lemma CloseAttends(s: State)
    requires Attended(s)
    ensures Attended(Close(s)) && Attended(FinishClose(s))
  {
    hide R.CloseQueue, R.CloseWaiters, L.Close, V.StopBeat, V.DropProbe;
    WaitersShrink(s.reqs, map[]);
    RequestsShrink(s.reqs, 0);
  }

  lemma OtherAttends(s: State, e: Event)
    requires Enabled(s, e) && Attended(s)
    requires e.ModeReported? || e.SetReconnect? || e.MeasureLatency? || e.SlotOpened?
    ensures Attended(Step(s, e))
  {
    hide V.DropProbe, V.OpenProbe, Timers.ClearRetry;
  }

  lemma AttendedStep(s: State, e: Event)
    requires Inv(s) && Enabled(s, e) && Attended(s)
    ensures Attended(Step(s, e))
  {
    hide Inv, Attended, ConnectStep, EnsureStep, AttemptConnect, Proceed, CloseTransport, Teardown, ScheduleReconnect,
         Deliver, Beat, PingTimeout, Measure, Send, Close, FinishClose;
    match e
    case Connect(auth, draw) => AskAttends(s, auth, draw);
    case EnsureConnected(auth, draw) => AskAttends(s, auth, draw);
    case CredentialsSettle(token, build, draw) => ArrivedAttends(s, token, build, draw);
    case RetryFires(id, auth, draw) => TimerAttends(s, id, auth, draw);
    case DeadlineFires(id, draw) => TimerAttends(s, id, Auth.Later, draw);
    case ErrorDelayFires(id, draw) => TimerAttends(s, id, Auth.Later, draw);
    case TransportOpens(_, _) => LinkAttends(s, e);
    case TransportCloses(_, _) => LinkAttends(s, e);
    case TransportFails(_, _) => LinkAttends(s, e);
    case SessionDropped(_) => LinkAttends(s, e);
    case MessageArrives(message, draw) => MessageAttends(s, message, draw);
    case HeartbeatFires(sent, draw) => BeatAttends(s, sent, draw);
    case PingTimesOut(draw) => BeatAttends(s, true, draw);
    case SendRequest(_, _) => RequestAttends(s, e);
    case AbortRequest(_) => RequestAttends(s, e);
    case WaiterTimesOut(_) => RequestAttends(s, e);
    case QueueTimesOut(_) => RequestAttends(s, e);
    case CloseBegins => CloseAttends(s);
    case CloseEnds => CloseAttends(s);
    case _ => OtherAttends(s, e);
  }

  lemma ArrivedAttends(s: State, token: nat, build: Build, draw: L.Draw)
    requires token in s.link.outstanding && Attended(s)
    ensures Attended(Step(s, CredentialsSettle(token, build, draw)))
  {
    hide Proceed;
    ProceedAttends(s.(link := s.link.(outstanding := s.link.outstanding - {token})), token, build, draw);
  }

  lemma {:induction false} AttendedThroughout(tr: seq<State>, es: seq<Event>, i: nat)
    requires Run(tr, es) && i <= |es|
    ensures Attended(tr[i])
  {
    hide Inv, Step, Enabled;
    if i > 0 {
      AttendedThroughout(tr, es, i - 1);
      RunInv(tr, es, i - 1);
      assert StepAt(tr, es, i - 1);
      AttendedStep(tr[i - 1], es[i - 1]);
    }
  }

  /**
   * Over every run, waiters exist only in a session; and outside one, unless `close` is still
   * under way, there is no waiter, held send, ping probe or terminal slot: a loss empties them all.
   */
  lemma NothingOutlivesSession(tr: seq<State>, es: seq<Event>, i: nat)
    requires Run(tr, es) && i <= |es| && !L.InSession(tr[i].link)
    ensures tr[i].reqs.waiters == {}
    ensures !tr[i].closing ==> tr[i].reqs.queue == [] && tr[i].live.probe.None? && tr[i].slots == {}
  {
    AttendedThroughout(tr, es, i);
    RunInv(tr, es, i);
  }
}
