/** Theorems about every run of the client: all finite interleavings of its events. */
module SessionRuns {
  import opened Prelude
  import opened Session
  import opened SessionSafety
  import B = Backoff
  import Timers
  import L = Link
  import R = Requests
  import V = Liveness

  /** `tr` is the sequence of states that the enabled events `es` lead through. */
  ghost predicate Steps(tr: seq<State>, es: seq<Event>) {
    && |tr| == |es| + 1
    && forall i :: 0 <= i < |es| ==> StepAt(tr, es, i)
  }

  ghost predicate StepAt(tr: seq<State>, es: seq<Event>, i: nat)
    requires |tr| == |es| + 1 && i < |es|
  {
    Enabled(tr[i], es[i]) && tr[i + 1] == Step(tr[i], es[i])
  }

  ghost predicate Run(tr: seq<State>, es: seq<Event>) {
    && Steps(tr, es)
    && exists policy, enabled, floor :: tr[0] == Initial(policy, enabled, floor)
  }

  lemma {:induction false} RunInv(tr: seq<State>, es: seq<Event>, i: nat)
    requires Run(tr, es) && i <= |es|
    ensures Inv(tr[i])
  {
    hide Good, Inv, Step, Enabled;
    if i == 0 {
      StartInv(tr, es);
    } else {
      RunInv(tr, es, i - 1);
      assert StepAt(tr, es, i - 1);
      StepKeeps(tr[i - 1], es[i - 1]);
      GoodInv(tr[i - 1], tr[i]);
    }
  }

  lemma StartInv(tr: seq<State>, es: seq<Event>)
    requires Run(tr, es)
    ensures Inv(tr[0])
  {
    hide Steps;
  }

  /** What holds between any two states of a run, in order. */
  ghost predicate Onward(s: State, s': State) {
    && R.Extends(s.reqs, s'.reqs)
    && (s.link.status == L.Disposed ==> s'.link.status == L.Disposed && s'.reqs.frames == s.reqs.frames)
    && s.live.log <= s'.live.log
    && L.Rank(s.link.security.floor) <= L.Rank(s'.link.security.floor)
    && s.link.pace.faults <= s'.link.pace.faults
  }

  lemma {:induction false} RunLater(tr: seq<State>, es: seq<Event>, i: nat, j: nat)
    requires Run(tr, es) && i <= j <= |es|
    ensures Onward(tr[i], tr[j])
    decreases j
  {
    hide Inv, Onward, Step, Enabled;
    if i < j {
      RunLater(tr, es, i, j - 1);
      RunInv(tr, es, j - 1);
      assert StepAt(tr, es, j - 1);
      OnwardStep(tr[i], tr[j - 1], es[j - 1]);
    } else {
      OnwardSelf(tr[i]);
    }
  }

  lemma OnwardSelf(s: State)
    ensures Onward(s, s)
  {
  }

  lemma OnwardStep(s: State, s': State, e: Event)
    requires Onward(s, s') && Inv(s') && Enabled(s', e)
    ensures Onward(s, Step(s', e))
  {
    hide Inv, R.Extends, Step, Enabled;
    StepKeeps(s', e);
    if s'.link.status == L.Disposed { DisposedSilent(s', e); }
    R.ExtendsTransitive(s.reqs, s'.reqs, Step(s', e).reqs);
  }

  // ---------------------------------------------------------------------------
  // Who drives the connection
  // ---------------------------------------------------------------------------

  /** There is never more than one driver; a retry is armed only while disconnected, and in time. */
  lemma AtMostOneDriver(tr: seq<State>, es: seq<Event>, i: nat)
    requires Run(tr, es) && i <= |es|
    ensures L.Drivers(tr[i].link) <= 1
    ensures tr[i].link.timers.retry.Some? ==> tr[i].link.status == L.Disconnected && tr[i].link.enabled
    ensures tr[i].link.pace.faults == 0 ==>
      var l, t := tr[i].link, tr[i].link.timers;
      && (L.InSession(l) ==> l.transport.Some?)
      && (l.status == L.Connecting ==> Timers.Arms(t, t.deadline) || Timers.Arms(t, t.errorDelay))
  {
    RunInv(tr, es, i);
  }

  /** Whether event `e` in state `s` asks for a connection and is not turned away by a stale promise. */
  predicate Asks(s: State, e: Event) {
    e.EnsureConnected? || (e.Connect? && !s.link.promise)
  }

  /**
   * Never stuck: from a request to connect on, for as long as the client is not closed,
   * reconnecting stays enabled and no loss has broken off, exactly one thing drives the connection
   * at every boundary.
   */
  lemma {:induction false} SingleDriver(tr: seq<State>, es: seq<Event>, k: nat, i: nat)
    requires Run(tr, es) && k < i <= |es| && Asks(tr[k], es[k])
    requires forall j :: k < j <= i ==> tr[j].link.enabled && tr[j].link.status != L.Disposed
    requires tr[i].link.pace.faults == 0
    ensures L.Drivers(tr[i].link) == 1
  {
    hide Inv, Good, Step, ConnectStep, EnsureStep, L.Drivers, Enabled;
    RunLater(tr, es, i - 1, i);
    RunInv(tr, es, i - 1);
    assert StepAt(tr, es, i - 1);
    if k == i - 1 {
      AskedDrives(tr[k], es[k]);
    } else {
      SingleDriver(tr, es, k, i - 1);
      StaysDriven(tr[i - 1], es[i - 1]);
    }
  }

  lemma AskedDrives(s: State, e: Event)
    requires Inv(s) && Enabled(s, e) && Asks(s, e)
    ensures var l := Step(s, e).link;
      l.enabled && l.status != L.Disposed && l.pace.faults == 0 ==> L.Drivers(l) == 1
  {
    hide Inv, ConnectStep, EnsureStep, L.Drivers;
    StepKeeps(s, e);
    if e.Connect? { ConnectKeeps(s, e.auth, e.draw); } else { EnsureKeeps(s, e.auth, e.draw); }
  }

  lemma StaysDriven(s: State, e: Event)
    requires Inv(s) && Enabled(s, e) && s.link.enabled && L.Drivers(s.link) == 1
    ensures var l := Step(s, e).link;
      l.enabled && l.status != L.Disposed && l.pace.faults == 0 ==> L.Drivers(l) == 1
  {
    hide Inv, Step, L.Drivers, Enabled;
    StepKeeps(s, e);
  }

  /** Before anything has asked for a connection the promise field is clear: the first `connect` is served. */
  lemma {:induction false} FirstConnectAsks(tr: seq<State>, es: seq<Event>, k: nat)
    requires Run(tr, es) && k <= |es|
    requires forall j :: 0 <= j < k ==> !es[j].Connect? && !es[j].EnsureConnected?
    ensures !tr[k].link.promise
  {
    hide Step, Enabled, Calm, Installed, Established, MayInstall;
    if k > 0 {
      FirstConnectAsks(tr, es, k - 1);
      assert StepAt(tr, es, k - 1);
      StepShape(tr[k - 1], es[k - 1]);
    }
  }

  // ---------------------------------------------------------------------------
  // What a step can do to the connection
  // ---------------------------------------------------------------------------

  /** No transport installed, no try number taken back. */
  predicate Calm(s: State, s': State) {
    && s'.link.security.builds == s.link.security.builds
    && (s'.link.transport == s.link.transport || s'.link.transport.None?)
    && s.link.pace.tries <= s'.link.pace.tries
  }

  /** A new transport, built with the security floor of that moment. */
  predicate Installed(s: State, s': State) {
    && s'.link.security.builds == s.link.security.builds + [s.link.security.floor]
    && s'.link.transport.Some?
    && s.link.pace.tries <= s'.link.pace.tries
  }

  predicate Established(s: State, s': State) {
    && s.link.status == L.Connecting && s'.link.status == L.Connected
    && s'.link.security.builds == s.link.security.builds && s'.link.transport == s.link.transport
  }

  /** The two halves of a waiting `connect` stay as they are, or go together. */
  predicate PromiseKept(s: State, s': State) {
    || (s'.link.promise == s.link.promise && s'.link.pending == s.link.pending)
    || (!s'.link.promise && !s'.link.pending)
  }

  /** The events that can end the current attempt in a new transport. */
  predicate MayInstall(s: State, e: Event) {
    match e
    case Connect(auth, _) => auth == Now(Built)
    case EnsureConnected(auth, _) => auth == Now(Built)
    case RetryFires(_, auth, _) => auth == Now(Built)
    case CredentialsSettle(token, build, _) => s.link.attempt == Some(token) && build == Built
    case _ => false
  }

  lemma LossCalm(s: State, draw: L.Draw)
    ensures Calm(s, ScheduleReconnect(s, draw)) && PromiseKept(s, ScheduleReconnect(s, draw))
    ensures Calm(s, Teardown(s, draw)) && PromiseKept(s, Teardown(s, draw))
    ensures Calm(s, FailAttempt(s, draw)) && PromiseKept(s, FailAttempt(s, draw))
  {
    hide L.Lose, R.Lose, V.SettleProbe, V.StopBeat, Timers.ClearDeadline, Timers.ClearErrorDelay;
    L.LoseShape(s.link, draw);
    L.LoseShape(L.Dispose(s.link), draw);
    L.LoseShape(s.link.(timers := Timers.ClearDeadline(s.link.timers)), draw);
  }

  lemma CountCalm(s: State, draw: L.Draw)
    ensures Calm(s, CountFailure(s, draw)) && PromiseKept(s, CountFailure(s, draw))
  {
    hide Teardown;
    LossCalm(s.(live := V.Fail(s.live).0), draw);
  }

  lemma FailShape(s: State, s1: State, draw: L.Draw)
    requires s1.link == s.link.(transport := s1.link.transport, timers := s1.link.timers, enabled := s1.link.enabled)
    requires s1.link.transport == s.link.transport || s1.link.transport.None?
    ensures Calm(s, FailAttempt(s1, draw)) && PromiseKept(s, FailAttempt(s1, draw))
  {
    hide FailAttempt, ScheduleReconnect, Teardown;
    LossCalm(s1, draw);
  }

  lemma InstallShape(s: State, disposed: State, token: nat)
    requires disposed.link == s.link.(transport := None, timers := disposed.link.timers)
    ensures var s' := disposed.(link := L.EndAttempt(L.Install(disposed.link), token));
      PromiseKept(s, s') && Installed(s, s')
  {
    hide Timers.ClearDeadline, Timers.ArmDeadline;
  }

  lemma ProceedShape(s: State, token: nat, build: Build, draw: L.Draw)
    ensures var s' := Proceed(s, token, build, draw);
      PromiseKept(s, s') && (Calm(s, s') || (s.link.attempt == Some(token) && build == Built && Installed(s, s')))
  {
    hide FailAttempt, DisposeTransport, L.SetReconnectEnabled, L.Install, L.EndAttempt, Installed;
    DisposedShape(s);
    var disposed := DisposeTransport(s);
    FailShape(s, s, draw);
    FailShape(s, disposed, draw);
    FailShape(s, disposed.(link := L.SetReconnectEnabled(disposed.link, false)), draw);
    InstallShape(s, disposed, token);
  }

  lemma AttemptShape(s: State, auth: Auth, draw: L.Draw)
    ensures var s' := AttemptConnect(s, auth, draw);
      PromiseKept(s, s') && (Calm(s, s') || (auth == Now(Built) && Installed(s, s')))
  {
    hide Proceed, Timers.ClearRetry;
    if auth.Now? {
      ProceedShape(s.(link := L.BeginAttempt(s.link)), s.link.tokens, auth.build, draw);
    }
  }

  lemma ConnectShape(s: State, auth: Auth, draw: L.Draw)
    ensures Calm(s, ConnectStep(s, auth, draw)) || (auth == Now(Built) && Installed(s, ConnectStep(s, auth, draw)))
    ensures Calm(s, EnsureStep(s, auth, draw)) || (auth == Now(Built) && Installed(s, EnsureStep(s, auth, draw)))
  {
    hide AttemptConnect;
    AttemptShape(s.(link := s.link.(shouldReconnect := true)), auth, draw);
    AttemptShape(s.(link := s.link.(shouldReconnect := true, pending := true)), auth, draw);
  }

  lemma CloseShape(s: State, reason: CloseReason, draw: L.Draw)
    ensures Calm(s, CloseTransport(s, reason, draw)) && PromiseKept(s, CloseTransport(s, reason, draw))
  {
    hide ScheduleReconnect, Timers.ClearRetry;
    var judged := L.Unwatch(s.link.(authFailed := s.link.authFailed || reason == AuthRejected));
    LossCalm(s.(link := judged), draw);
    LossCalm(s.(link := L.SetReconnectEnabled(judged, false)), draw);
  }

  /** Every step is calm, or installs a transport for the current attempt, or establishes the session. */
  lemma StepShape(s: State, e: Event)
    requires Enabled(s, e)
    ensures var s' := Step(s, e);
      && (Calm(s, s') || (MayInstall(s, e) && Installed(s, s')) || Established(s, s'))
      && (!e.Connect? && !e.EnsureConnected? ==> PromiseKept(s, s'))
  {
    hide Calm, Installed, Proceed, AttemptConnect, ConnectStep, EnsureStep, CloseTransport, Teardown, ScheduleReconnect,
         CountFailure, Beat, PingTimeout, Deliver, Measure, Send, R.Abort, R.QueueTimeout, R.WaiterTimeout, FinishClose;
    match e
    case Connect(auth, draw) => ConnectShape(s, auth, draw);
    case EnsureConnected(auth, draw) => ConnectShape(s, auth, draw);
    case CredentialsSettle(token, build, draw) => SettleShape(s, token, build, draw);
    case RetryFires(id, auth, draw) => FiredShape(s, id, auth, draw);
    case DeadlineFires(id, draw) => FiredShape(s, id, Auth.Later, draw);
    case ErrorDelayFires(id, draw) => FiredShape(s, id, Auth.Later, draw);
    case TransportCloses(reason, draw) => CloseShape(s, reason, draw);
    case MessageArrives(message, draw) => DeliverShape(s, message, draw);
    case HeartbeatFires(sent, draw) => BeatShape(s, sent, draw);
    case PingTimesOut(draw) => BeatShape(s, true, draw);
    case TransportOpens(_, _) => LossShape(s, e);
    case TransportFails(_, _) => LossShape(s, e);
    case SessionDropped(_) => LossShape(s, e);
    case _ => PlainShape(s, e);
  }

  lemma SettleShape(s: State, token: nat, build: Build, draw: L.Draw)
    requires token in s.link.outstanding
    ensures var s' := Step(s, CredentialsSettle(token, build, draw));
      PromiseKept(s, s') && (Calm(s, s') || (s.link.attempt == Some(token) && build == Built && Installed(s, s')))
  {
    hide Proceed;
    ProceedShape(s.(link := s.link.(outstanding := s.link.outstanding - {token})), token, build, draw);
  }

  lemma FiredShape(s: State, id: nat, auth: Auth, draw: L.Draw)
    requires id in s.link.timers.armed
    ensures var fired := TimerFired(s, id);
      && Calm(s, fired) && PromiseKept(s, fired)
      && Calm(s, Teardown(fired, draw)) && PromiseKept(s, Teardown(fired, draw))
      && Calm(s, ScheduleReconnect(fired, draw)) && PromiseKept(s, ScheduleReconnect(fired, draw))
      && PromiseKept(s, AttemptConnect(fired, auth, draw))
      && (Calm(s, AttemptConnect(fired, auth, draw))
          || (auth == Now(Built) && Installed(s, AttemptConnect(fired, auth, draw))))
  {
    hide Teardown, ScheduleReconnect, AttemptConnect;
    LossCalm(TimerFired(s, id), draw);
    AttemptShape(TimerFired(s, id), auth, draw);
  }

  lemma EstablishShape(s: State, restored: seq<R.Request>, rejected: set<R.CallId>, failing: set<R.CallId>)
    ensures var s' := EstablishSession(Heard(s), restored, rejected, failing);
      PromiseKept(s, s') && (Calm(s, s') || Established(s, s'))
  {
    hide R.Flush, R.Restore, V.StartBeat, V.Heard, Timers.ClearDeadline;
  }

  lemma DeliverShape(s: State, message: Inbound, draw: L.Draw)
    ensures var s' := Deliver(s, message, draw);
      PromiseKept(s, s') && (Calm(s, s') || Established(s, s'))
  {
    hide Deliver, Teardown, EstablishSession, Heard;
    DeliveredLink(s, message, draw);
    match message
    case BadHostFrame => LossCalm(s, draw);
    case ServerInfo(restored, rejected, failing) => EstablishShape(s, restored, rejected, failing);
    case _ =>
  }

  lemma BeatShape(s: State, sent: bool, draw: L.Draw)
    ensures Calm(s, Beat(s, sent, draw)) && PromiseKept(s, Beat(s, sent, draw))
    ensures s.live.probe.Some? ==> Calm(s, PingTimeout(s, draw)) && PromiseKept(s, PingTimeout(s, draw))
  {
    hide CountFailure, V.ScheduleBeat;
    CountCalm(s.(live := V.DropProbe(V.OpenProbe(V.StopBeat(s.live), true))), draw);
    CountCalm(s.(live := V.DropProbe(s.live)), draw);
  }

  /** Events that may lose the connection without a build, a timeout or a delivery. */
  lemma LossShape(s: State, e: Event)
    requires Enabled(s, e) && (e.TransportOpens? || e.TransportFails? || e.SessionDropped?)
    ensures Calm(s, Step(s, e)) && PromiseKept(s, Step(s, e))
  {
    hide Teardown, ScheduleReconnect, Timers.ClearErrorDelay, Timers.ClearDeadline, Timers.ClearRetry,
         Timers.ArmErrorDelay;
    match e
    case TransportOpens(_, draw) =>
      LossCalm(s.(link := s.link.(timers := Timers.ClearErrorDelay(s.link.timers))), draw);
    case TransportFails(_, draw) => LossCalm(s.(link := L.Unwatch(s.link.(errored := true))), draw);
    case SessionDropped(draw) => LossCalm(s, draw);
  }

  /** The events that neither build, lose, time out nor deliver anything. */
  lemma PlainShape(s: State, e: Event)
    requires Enabled(s, e)
    requires e.ModeReported? || e.SetReconnect?
      || e.SendRequest? || e.AbortRequest? || e.WaiterTimesOut? || e.QueueTimesOut? || e.MeasureLatency?
      || e.SlotOpened? || e.CloseBegins? || e.CloseEnds?
    ensures Calm(s, Step(s, e)) && PromiseKept(s, Step(s, e))
  {
    hide Send, Measure, FinishClose, L.Close, L.SetReconnectEnabled, L.ReportMode, V.StopBeat,
         R.Abort, R.QueueTimeout, R.WaiterTimeout, R.CloseWaiters;
    PlainLink(s.link);
    SameLink(s, e);
  }

  lemma SameLink(s: State, e: Event)
    ensures e.SendRequest? ==> Send(s, e.request).link == s.link
    ensures e.MeasureLatency? ==> Measure(s, e.sent).link == s.link
    ensures FinishClose(s).link == s.link
  {
    hide V.DropProbe, V.OpenProbe, R.SendNow, R.SendUnavailable, R.Hold, R.CloseQueue;
  }

  lemma PlainLink(l: L.Link)
    ensures var l' := L.Close(l);
      && l'.security == l.security && l'.transport.None? && l'.pace.tries == l.pace.tries
      && !l'.promise && !l'.pending
    ensures forall enabled :: var l' := L.SetReconnectEnabled(l, enabled);
      && l'.security == l.security && l'.transport == l.transport && l'.pace == l.pace
      && l'.promise == l.promise && l'.pending == l.pending
    ensures forall mode :: L.ReportMode(l.security, mode).builds == l.security.builds
  {
    hide Timers.ClearErrorDelay, Timers.ClearDeadline, Timers.ClearRetry;
  }

  /** An attempt has been claimed: a token was given out for it. */
  predicate Claims(s: State, s': State) {
    s.link.tokens < s'.link.tokens
  }

  /**
   * A client that nothing drives: `ensureConnected` always claims an attempt, but `connect` does so
   * exactly when no promise of an earlier connect is left over; otherwise it changes nothing.
   */
  lemma ConnectRevives(tr: seq<State>, es: seq<Event>, i: nat, auth: Auth, draw: L.Draw)
    requires Run(tr, es) && i <= |es| && tr[i].link.status != L.Disposed && L.Drivers(tr[i].link) == 0
    ensures Claims(tr[i], EnsureStep(tr[i], auth, draw))
    ensures Claims(tr[i], ConnectStep(tr[i], auth, draw)) <==> !tr[i].link.promise
    ensures tr[i].link.promise ==> ConnectStep(tr[i], auth, draw) == tr[i]
  {
    hide AttemptConnect;
    RunInv(tr, es, i);
    var s := tr[i];
    AttemptClaims(s, auth, draw);
    AttemptClaims(s.(link := s.link.(shouldReconnect := true)), auth, draw);
    AttemptClaims(s.(link := s.link.(shouldReconnect := true, pending := true)), auth, draw);
  }

  lemma AttemptClaims(s: State, auth: Auth, draw: L.Draw)
    ensures
      && s.link.status != L.Disposed && s.link.shouldReconnect
      && s.link.status != L.Connecting && s.link.attempt.None? ==>
      Claims(s, AttemptConnect(s, auth, draw))
  {
    hide Proceed, Timers.ClearRetry;
    if auth.Now? { ProceedTokens(s.(link := L.BeginAttempt(s.link)), s.link.tokens, auth.build, draw); }
  }

  lemma FailTokens(s: State, draw: L.Draw)
    ensures FailAttempt(s, draw).link.tokens == s.link.tokens
  {
    hide L.Lose, R.Lose, V.SettleProbe, Timers.ClearDeadline;
    L.LoseShape(s.link.(timers := Timers.ClearDeadline(s.link.timers)), draw);
  }

  lemma ProceedTokens(s: State, token: nat, build: Build, draw: L.Draw)
    ensures s.link.tokens <= Proceed(s, token, build, draw).link.tokens
  {
    hide FailAttempt, V.StopBeat, Timers.ClearDeadline, Timers.ClearErrorDelay, Timers.ArmDeadline;
    var disposed := DisposeTransport(s);
    FailTokens(s, draw);
    FailTokens(disposed, draw);
    FailTokens(disposed.(link := L.SetReconnectEnabled(disposed.link, false)), draw);
  }

  // ---------------------------------------------------------------------------
  // Leftover promises
  // ---------------------------------------------------------------------------

  /** The promise of an earlier `connect` is still on record although it has been answered. */
  predicate Stale(l: L.Link) {
    l.promise && !l.pending
  }

  /** A `connect` that begins an attempt of its own, which fails in the same turn. */
  predicate FailsAtOnce(s: State, e: Event) {
    && (e.Connect? || e.EnsureConnected?) && !s.link.promise
    && (s.link.status == L.Idle || s.link.status == L.Disconnected) && s.link.attempt.None?
    && e.auth.Now? && e.auth.build != Built
  }

  lemma FailAnswers(s: State, draw: L.Draw)
    ensures var l := FailAttempt(s, draw).link;
      if l.pace.faults == s.link.pace.faults then !l.promise && !l.pending
      else l.promise == s.link.promise && l.pending == s.link.pending
  {
    hide L.Lose, R.Lose, V.SettleProbe, Timers.ClearDeadline;
    L.FaultHolds(s.link.(timers := Timers.ClearDeadline(s.link.timers)), draw);
  }

  /** A current attempt without a transport answers the `connect`, unless its loss breaks off. */
  lemma ProceedAnswers(s: State, token: nat, build: Build, draw: L.Draw)
    requires s.link.attempt == Some(token)
    ensures var l := Proceed(s, token, build, draw).link;
      if build == Built || l.pace.faults != s.link.pace.faults
      then l.promise == s.link.promise && l.pending == s.link.pending
      else !l.promise && !l.pending
  {
    hide FailAttempt, DisposeTransport, L.SetReconnectEnabled, Timers.ClearDeadline, Timers.ArmDeadline;
    DisposedShape(s);
    var disposed := DisposeTransport(s);
    FailAnswers(s, draw);
    FailAnswers(disposed, draw);
    FailAnswers(disposed.(link := L.SetReconnectEnabled(disposed.link, false)), draw);
  }

  lemma ConnectLeaves(s: State, auth: Auth, draw: L.Draw)
    requires !Stale(s.link)
    ensures var s' := ConnectStep(s, auth, draw);
      Stale(s'.link) <==> FailsAtOnce(s, Connect(auth, draw)) && s'.link.pace.faults == s.link.pace.faults
  {
    hide Proceed, Timers.ClearRetry;
    var asked := s.(link := s.link.(shouldReconnect := true, pending := true));
    if auth.Now? { ProceedAnswers(asked.(link := L.BeginAttempt(asked.link)), s.link.tokens, auth.build, draw); }
  }

  lemma EnsureLeaves(s: State, auth: Auth, draw: L.Draw)
    requires !Stale(s.link)
    ensures var s' := EnsureStep(s, auth, draw);
      Stale(s'.link) <==> FailsAtOnce(s, EnsureConnected(auth, draw)) && s'.link.pace.faults == s.link.pace.faults
  {
    hide ConnectStep, AttemptConnect;
    var wanted := s.(link := s.link.(shouldReconnect := true));
    ConnectLeaves(wanted, auth, draw);
    AttemptShape(wanted, auth, draw);
  }

  /**
   * A leftover promise arises exactly in a `connect` whose own attempt fails in the turn that began
   * it, whether or not reconnecting is enabled, unless its loss breaks off.
   */
  lemma StaleExactly(tr: seq<State>, es: seq<Event>, i: nat)
    requires Run(tr, es) && i < |es| && !Stale(tr[i].link)
    ensures Stale(tr[i + 1].link) <==>
      FailsAtOnce(tr[i], es[i]) && tr[i + 1].link.pace.faults == tr[i].link.pace.faults
  {
    hide ConnectStep, EnsureStep, FailsAtOnce, Enabled, Calm, Installed, Established, MayInstall;
    assert StepAt(tr, es, i);
    if es[i].Connect? {
      ConnectLeaves(tr[i], es[i].auth, es[i].draw);
    } else if es[i].EnsureConnected? {
      EnsureLeaves(tr[i], es[i].auth, es[i].draw);
    } else {
      OthersLeaveNone(tr[i], es[i]);
    }
  }

  lemma OthersLeaveNone(s: State, e: Event)
    requires Enabled(s, e) && !e.Connect? && !e.EnsureConnected? && !Stale(s.link)
    ensures !Stale(Step(s, e).link) && !FailsAtOnce(s, e)
  {
    hide Step, Enabled, Calm, Installed, Established, MayInstall;
    StepShape(s, e);
  }

  /**
   * While it is there every `connect` is handed the old answer and changes nothing, and it never
   * turns into a connect that waits: the step that ends it clears the record.
   */
  lemma StaleTurnsAway(tr: seq<State>, es: seq<Event>, i: nat, auth: Auth, draw: L.Draw)
    requires Run(tr, es) && i < |es| && Stale(tr[i].link)
    ensures Step(tr[i], Connect(auth, draw)) == tr[i]
    ensures Stale(tr[i + 1].link) || (!tr[i + 1].link.promise && !tr[i + 1].link.pending)
  {
    hide AttemptConnect, Enabled, Calm, Installed, Established, MayInstall, Deliver, Beat, PingTimeout, Teardown,
         ScheduleReconnect, CloseTransport, Proceed;
    assert StepAt(tr, es, i);
    var s, e := tr[i], es[i];
    if e.EnsureConnected? {
      AttemptShape(s.(link := s.link.(shouldReconnect := true)), e.auth, e.draw);
    } else {
      StepShape(s, e);
    }
  }

  /** With reconnecting off a first connect that fails at once leaves one, and nothing drives the client. */
  lemma StalePromise(policy: B.Policy, floor: Option<L.Mode>, auth: Auth, draw: L.Draw)
    ensures var failed := ConnectStep(Initial(policy, false, floor), Now(CredentialError), draw);
      && Stale(failed.link) && L.Drivers(failed.link) == 0 && failed.link.status == L.Disconnected
      && ConnectStep(failed, auth, draw) == failed
  {
  }

  /**
   * With reconnecting on as well: while the armed retry is still to come, each further `connect`
   * is handed the old rejection and changes nothing.
   */
  lemma StaleWhileRetrying(policy: B.Policy, floor: Option<L.Mode>, auth: Auth, draw: L.Draw, again: L.Draw)
    requires B.Publishable(B.Delay(policy, 0, draw.first), draw.now)
    ensures var failed := ConnectStep(Initial(policy, true, floor), Now(CredentialError), draw);
      && Stale(failed.link) && failed.link.timers.retry.Some? && L.Drivers(failed.link) == 1
      && ConnectStep(failed, auth, again) == failed
  {
    hide B.Delay, B.Publishable;
  }

  /** Disposed is absorbing: afterwards nothing connects, retries or reaches a transport. */
  lemma DisposedAbsorbs(tr: seq<State>, es: seq<Event>, i: nat, j: nat)
    requires Run(tr, es) && i <= j <= |es| && tr[i].link.status == L.Disposed
    ensures tr[j].link.status == L.Disposed && tr[j].reqs.frames == tr[i].reqs.frames
    ensures var l := tr[j].link;
      l.transport.None? && l.attempt.None? && l.timers.retry.None? && !l.pending
  {
    RunLater(tr, es, i, j);
    RunInv(tr, es, j);
  }

  lemma LoseFrames(r: R.Reqs)
    ensures R.Lose(r).frames == r.frames && R.CloseQueue(r).frames == r.frames && R.CloseWaiters(r).frames == r.frames
  {
  }

  /** A disposed client hands no frame to any transport. */
  lemma DisposedSilent(s: State, e: Event)
    requires Inv(s) && Enabled(s, e) && s.link.status == L.Disposed
    ensures Step(s, e).reqs.frames == s.reqs.frames
  {
    hide R.Inv, L.Core, V.Inv, R.Lose, R.CloseQueue, R.CloseWaiters;
    LoseFrames(s.reqs);
  }
}
