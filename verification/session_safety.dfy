/** What every step of the client keeps, and what follows for every run. */
module SessionSafety {
  import opened Prelude
  import opened Session
  import opened Timers
  import L = Link
  import R = Requests
  import V = Liveness

  /** Holds between steps, except that the next heartbeat may still have to be scheduled. */
  ghost predicate Beatless(s: State) {
    && L.Inv(s.link) && R.Inv(s.reqs) && V.Inv(s.live)
    && (s.closing ==> s.link.status == L.Disposed)
    && (s.reqs.queue != [] ==> s.link.status == L.Connecting || s.closing)
    && (s.live.probe.Some? ==> s.link.status == L.Connected || s.closing)
    && (s.slots != {} ==> s.link.status == L.Connected || s.closing)
  }

  /** Holds between steps: a connected client also has a heartbeat coming, if no loss has broken off. */
  ghost predicate Inv(s: State) {
    && Beatless(s)
    && (s.link.status == L.Connected && s.link.pace.faults == 0 ==> s.live.heartbeat.Some? || s.live.attached)
  }

  /** Holds in the middle of a step, once a transport has been given up or an attempt has begun. */
  ghost predicate Mid(s: State) {
    && L.Core(s.link) && R.Inv(s.reqs) && V.Inv(s.live)
    && (s.closing ==> s.link.status == L.Disposed)
  }

  /** Nothing belongs to the lost connection any more. */
  predicate Emptied(s: State) {
    s.reqs.waiters == {} && s.reqs.queue == [] && s.live.probe.None? && s.slots == {}
  }

  /** What `s` has established stays established in `s'`. */
  ghost predicate Forward(s: State, s': State) {
    && R.Extends(s.reqs, s'.reqs)
    && (s.link.status == L.Disposed ==> s'.link.status == L.Disposed)
    && s.live.log <= s'.live.log
    && L.Rank(s.link.security.floor) <= L.Rank(s'.link.security.floor)
    && s.link.pace.faults <= s'.link.pace.faults
    && (forall c, o: R.Outcome :: R.News(s.reqs, s'.reqs, c, o) && o.Lost? ==> Emptied(s'))
  }

  /** A driver is only lost by closing, together with permission to reconnect, or by a loss that breaks off. */
  predicate Driven(s: State, s': State) {
    && s.link.enabled && s'.link.enabled && s'.link.status != L.Disposed
    && s'.link.pace.faults == 0 && L.Drivers(s.link) == 1 ==>
      L.Drivers(s'.link) == 1
  }

  ghost predicate Good(s: State, s': State) {
    Inv(s') && Forward(s, s') && Driven(s, s')
  }

  // ---------------------------------------------------------------------------
  // Losing a connection
  // ---------------------------------------------------------------------------

  /** Parts of the state that disposing of transports and beginning attempts leave alone. */
  ghost predicate SameWork(s: State, s': State) {
    && s'.reqs == s.reqs && s'.slots == s.slots && s'.closing == s.closing
    && s'.link.status == s.link.status && s'.link.security == s.link.security
    && s'.link.pace == s.link.pace
    && s.live.log <= s'.live.log
  }

  lemma DisposeTransportKeeps(s: State)
    requires Mid(s)
    ensures Mid(DisposeTransport(s)) && SameWork(s, DisposeTransport(s))
    ensures DisposeTransport(s).link.transport.None?
    ensures s.link.timers.retry.None? ==> DisposeTransport(s).link.timers.retry.None?
  {
    L.DisposeKeeps(s.link);
    V.TimerStepsKeep(s.live, false);
  }

  /** Every loss empties waiters, queue, probe and slots, and leaves exactly one driver if allowed one. */
  lemma ScheduleReconnectKeeps(s: State, draw: L.Draw)
    requires Mid(s)
    ensures var s' := ScheduleReconnect(s, draw);
      && Inv(s') && Forward(s, s') && Emptied(s')
      && (s.link.status != L.Disposed && s'.link.pace.faults == s.link.pace.faults ==>
            s'.link.status == L.Disconnected && L.Drivers(s'.link) == if s'.link.enabled then 1 else 0)
      && (s'.link.pace.faults != s.link.pace.faults ==> s'.link.status == s.link.status)
      && s.link.pace.tries <= s'.link.pace.tries && s'.link.security == s.link.security
      && s'.live.log == s.live.log
  {
    hide L.Inv, L.Core, L.Lose, R.Inv, V.Inv;
    L.LoseKeeps(s.link, draw);
    R.LoseKeeps(s.reqs);
    V.TimerStepsKeep(s.live, L.Lose(s.link, draw).status == L.Connected);
  }

  lemma TeardownKeeps(s: State, draw: L.Draw)
    requires Mid(s)
    ensures var s' := Teardown(s, draw);
      && Inv(s') && Forward(s, s') && Driven(s, s') && Emptied(s')
      && (s.link.status != L.Disposed && s'.link.pace.faults == s.link.pace.faults ==>
            s'.link.status == L.Disconnected)
      && s'.live.log == s.live.log && s'.link.security == s.link.security
  {
    DisposeTransportKeeps(s);
    ScheduleReconnectKeeps(DisposeTransport(s), draw);
  }

  // ---------------------------------------------------------------------------
  // Attempts
  // ---------------------------------------------------------------------------

  /** Disposing of the transport changes nothing else but timers, and so does ruling out a retry. */
  lemma DisposedShape(s: State)
    ensures var s' := DisposeTransport(s);
      && s'.link == s.link.(transport := None, timers := s'.link.timers) && s'.reqs == s.reqs && s'.slots == s.slots
      && s'.closing == s.closing && s'.live.probe == s.live.probe && s'.live.log == s.live.log
    ensures var l := DisposeTransport(s).link;
      var l' := L.SetReconnectEnabled(l, false);
      l' == l.(enabled := false, timers := l'.timers)
  {
    hide ClearDeadline, ClearErrorDelay, ClearRetry;
  }

  lemma FailAttemptKeeps(s: State, draw: L.Draw)
    requires Mid(s) && s.link.status != L.Disposed
    ensures var s' := FailAttempt(s, draw);
      && Inv(s') && Forward(s, s') && s'.link.attempt.None?
      && (s'.link.pace.faults == s.link.pace.faults ==>
            s'.link.status == L.Disconnected && L.Drivers(s'.link) == if s'.link.enabled then 1 else 0)
  {
    hide R.Inv, V.Inv, L.Lose;
    L.ClearDeadlineKeeps(s.link);
    var cleared := s.(link := s.link.(timers := ClearDeadline(s.link.timers)));
    ScheduleReconnectKeeps(cleared, draw);
    L.LoseKeeps(cleared.link, draw);
  }

  /** A current attempt ends in a connecting session or in a loss; either way it is over. */
  lemma ProceedKeeps(s: State, token: nat, build: Build, draw: L.Draw)
    requires Mid(s) && s.link.attempt == Some(token) && token < s.link.tokens
    requires s.link.status == L.Idle || s.link.status == L.Disconnected
    requires s.link.timers.retry.None? && s.reqs.queue == [] && s.live.probe.None? && s.slots == {}
    ensures var s' := Proceed(s, token, build, draw);
      && Inv(s') && Forward(s, s')
      && (s'.link.enabled && s'.link.pace.faults == 0 ==> L.Drivers(s'.link) == 1)
      && s'.link.attempt.None?
  {
    hide R.Inv, V.Inv, FailAttempt, DisposeTransport, L.SetReconnectEnabled, L.Core;
    DisposedShape(s);
    DisposeTransportKeeps(s);
    match build
    case CredentialError => FailAttemptKeeps(s, draw);
    case RelayRefused =>
      var disposed := DisposeTransport(s);
      DisabledKeeps(disposed.link);
      FailAttemptKeeps(disposed.(link := L.SetReconnectEnabled(disposed.link, false)), draw);
    case FactoryError => FailAttemptKeeps(DisposeTransport(s), draw);
    case Built => L.InstallKeeps(DisposeTransport(s).link);
  }

  lemma AttemptConnectKeeps(s: State, auth: Auth, draw: L.Draw)
    requires Mid(s) && Inv(s) && (s.link.attempt.Some? || !L.InSession(s.link) || s.link.status == L.Connecting)
    ensures Good(s, AttemptConnect(s, auth, draw))
    ensures var s' := AttemptConnect(s, auth, draw);
      s.link.status != L.Disposed && s'.link.enabled && s'.link.pace.faults == 0 ==> L.Drivers(s'.link) == 1
  {
    if s.link.status != L.Disposed && s.link.status != L.Connecting && s.link.attempt.None? {
      L.BeginAttemptKeeps(s.link);
      var begun := s.(link := L.BeginAttempt(s.link));
      if auth.Now? {
        ProceedKeeps(begun, s.link.tokens, auth.build, draw);
      }
    }
  }

  lemma ConnectKeeps(s: State, auth: Auth, draw: L.Draw)
    requires Inv(s)
    ensures Good(s, ConnectStep(s, auth, draw))
    ensures var s' := ConnectStep(s, auth, draw);
      && s.link.status != L.Disposed && !s.link.promise && s'.link.enabled && s'.link.pace.faults == 0 ==>
      L.Drivers(s'.link) == 1
  {
    hide R.Inv, V.Inv, R.Extends, R.News;
    if s.link.status != L.Disposed && s.link.status != L.Connected {
      AttemptConnectKeeps(s.(link := s.link.(shouldReconnect := true, pending := true)), auth, draw);
    }
    if s.link.status == L.Disposed || s.link.status == L.Connected || s.link.promise {
      StillGood(s, s.link.authFailed);
    }
  }

  lemma EnsureKeeps(s: State, auth: Auth, draw: L.Draw)
    requires Inv(s)
    ensures Good(s, EnsureStep(s, auth, draw))
    ensures var s' := EnsureStep(s, auth, draw);
      && s.link.status != L.Disposed && s'.link.enabled && s'.link.pace.faults == 0 ==>
      L.Drivers(s'.link) == 1
  {
    hide R.Inv, V.Inv, R.Extends, R.News, ConnectStep;
    if s.link.status == L.Disposed || L.InSession(s.link) {
      StillGood(s, s.link.authFailed);
    } else {
      assert s.(link := s.link.(shouldReconnect := true)) == s;
      AttemptConnectKeeps(s, auth, draw);
      ConnectKeeps(s, auth, draw);
    }
  }

  // ---------------------------------------------------------------------------
  // Timers and transport events
  // ---------------------------------------------------------------------------

  lemma FiredMid(s: State, id: nat)
    requires Inv(s) && id in s.link.timers.armed
    ensures var fired := TimerFired(s, id);
      && Mid(fired) && SameWork(s, fired) && SameRetry(s.link.timers, fired.link.timers)
      && (s.link.timers.armed[id].Retry? ==> s.link.timers.retry == Some(id) && fired.link.timers.retry.None?)
  {
    L.FiredTimerKeeps(s.link, id);
    FiredKeeps(s.link.timers, id);
  }

  lemma RetryFiresKeeps(s: State, id: nat, auth: Auth, draw: L.Draw)
    requires Inv(s) && id in s.link.timers.armed && s.link.timers.armed[id].Retry?
    ensures Good(s, Step(s, RetryFires(id, auth, draw)))
  {
    hide R.Inv, V.Inv;
    FiredMid(s, id);
    AttemptConnectKeeps(TimerFired(s, id), auth, draw);
  }

  /** A deadline or error timer that comes too late changes nothing that matters. */
  lemma FiredGood(s: State, id: nat)
    requires Inv(s) && id in s.link.timers.armed && !s.link.timers.armed[id].Retry?
    requires s.link.status != L.Connecting && (s.link.timers.armed[id].ErrorDelay? ==> s.link.status != L.Connected)
    ensures Good(s, TimerFired(s, id))
  {
    hide R.Inv, V.Inv;
    FiredMid(s, id);
  }

  lemma DeadlineFiresKeeps(s: State, id: nat, draw: L.Draw)
    requires Inv(s) && id in s.link.timers.armed && s.link.timers.armed[id].Deadline?
    ensures Good(s, Step(s, DeadlineFires(id, draw)))
  {
    hide Inv, Mid, SameWork, Good, TimerFired, Teardown;
    FiredMid(s, id);
    if s.link.status == L.Connecting { TeardownGood(s, TimerFired(s, id), draw); } else { FiredGood(s, id); }
  }

  lemma ErrorDelayFiresKeeps(s: State, id: nat, draw: L.Draw)
    requires Inv(s) && id in s.link.timers.armed && s.link.timers.armed[id].ErrorDelay?
    ensures Good(s, Step(s, ErrorDelayFires(id, draw)))
  {
    hide Inv, Mid, SameWork, Good, TimerFired, ScheduleReconnect;
    FiredMid(s, id);
    if L.InSession(s.link) { LossGood(s, TimerFired(s, id), draw); } else { FiredGood(s, id); }
  }

  lemma TransportOpensKeeps(s: State, helloSent: bool, draw: L.Draw)
    requires Inv(s) && s.link.transport.Some? && !s.link.errored
    ensures Good(s, Step(s, TransportOpens(helloSent, draw)))
  {
    hide R.Inv, V.Inv, Good, ScheduleReconnect, L.Core, ClearErrorDelay;
    L.OpenedKeeps(s.link);
    var cleared := s.(link := s.link.(timers := ClearErrorDelay(s.link.timers)));
    OpenedGood(s);
    if s.link.status == L.Connecting && !helloSent { LossGood(s, cleared, draw); }
  }

  lemma OpenedGood(s: State)
    requires Inv(s) && !s.link.errored
    ensures Good(s, s.(link := s.link.(timers := ClearErrorDelay(s.link.timers))))
  {
    hide R.Inv, V.Inv;
    L.OpenedKeeps(s.link);
  }

  lemma TransportFailsKeeps(s: State, generic: bool, draw: L.Draw)
    requires Inv(s) && s.link.transport.Some?
    ensures Good(s, Step(s, TransportFails(generic, draw)))
  {
    hide R.Inv, V.Inv, L.Core, Good, ScheduleReconnect, L.GenericError, L.Unwatch;
    if generic {
      GenericErrorKeeps(s);
    } else {
      var marked := s.link.(errored := true);
      L.MarksKeep(s.link, true, s.link.authFailed);
      assert marked == s.link.(errored := true, authFailed := s.link.authFailed);
      L.DisposeKeeps(marked);
      UnwatchSame(marked);
      LossGood(s, s.(link := L.Unwatch(marked)), draw);
    }
  }

  lemma UnwatchSame(l: L.Link)
    ensures L.Unwatch(l).status == l.status && L.Unwatch(l).security == l.security && L.Unwatch(l).pace == l.pace
  {
  }

  lemma GenericErrorKeeps(s: State)
    requires Inv(s)
    ensures Good(s, s.(link := L.GenericError(s.link)))
  {
    hide R.Inv, V.Inv;
    L.GenericErrorKeeps(s.link);
  }

  /** A loss from a state that differs from `s` only inside its link. */
  lemma LossGood(s: State, s1: State, draw: L.Draw)
    requires Mid(s1) && SameWork(s, s1)
    ensures Good(s, ScheduleReconnect(s1, draw))
  {
    hide L.Core, R.Inv, R.Extends, V.Inv;
    ScheduleReconnectKeeps(s1, draw);
  }

  /** A teardown from a state that differs from `s` only inside its link. */
  lemma TeardownGood(s: State, s1: State, draw: L.Draw)
    requires Mid(s1) && SameWork(s, s1)
    ensures Good(s, Teardown(s1, draw))
  {
    hide Mid, Good, ScheduleReconnect, L.Dispose, V.StopBeat;
    DisposeTransportKeeps(s1);
    LossGood(s, DisposeTransport(s1), draw);
  }

  lemma SelfMid(s: State)
    requires Inv(s)
    ensures Mid(s) && SameWork(s, s)
  {
    hide R.Inv, V.Inv, L.Core;
  }

  /** The link as a close leaves it, judged and unwatched, is still sound. */
  lemma JudgedMid(s: State, authFailed: bool, stop: bool)
    requires Inv(s)
    ensures var cleared := L.Unwatch(s.link.(authFailed := authFailed));
      var s1 := s.(link := if stop then L.SetReconnectEnabled(cleared, false) else cleared);
      Mid(s1) && SameWork(s, s1)
  {
    hide R.Inv, V.Inv, L.Core;
    var judged := s.link.(authFailed := authFailed);
    L.MarksKeep(s.link, s.link.errored, authFailed);
    L.DisposeKeeps(judged);
    DisabledKeeps(L.Unwatch(judged));
  }

  lemma TransportClosesKeeps(s: State, reason: CloseReason, draw: L.Draw)
    requires Inv(s)
    ensures Good(s, CloseTransport(s, reason, draw))
  {
    hide Inv, Mid, SameWork, Good, ScheduleReconnect, L.Unwatch, L.SetReconnectEnabled;
    var authFailed := s.link.authFailed || reason == AuthRejected;
    var stop := reason == EndpointSecurity || reason == Superseded || (reason == Revoked && !authFailed);
    JudgedMid(s, authFailed, stop);
    var cleared := L.Unwatch(s.link.(authFailed := authFailed));
    LossGood(s, s.(link := if stop then L.SetReconnectEnabled(cleared, false) else cleared), draw);
  }

  lemma DisabledKeeps(l: L.Link)
    requires L.Core(l)
    ensures L.Core(L.SetReconnectEnabled(l, false))
  {
    L.ClearRetryKeeps(l);
  }

  lemma CredentialsSettleKeeps(s: State, token: nat, build: Build, draw: L.Draw)
    requires Inv(s) && token in s.link.outstanding
    ensures Good(s, Step(s, CredentialsSettle(token, build, draw)))
  {
    hide R.Inv, V.Inv, FailAttempt, DisposeTransport, L.Install;
    var arrived := s.(link := s.link.(outstanding := s.link.outstanding - {token}));
    if s.link.attempt == Some(token) { ProceedKeeps(arrived, token, build, draw); }
  }

  // ---------------------------------------------------------------------------
  // Messages
  // ---------------------------------------------------------------------------

  lemma HeardKeeps(s: State)
    requires Inv(s)
    ensures Good(s, Heard(s)) && Heard(s).reqs == s.reqs && Heard(s).link == s.link
  {
    V.HeardKeeps(s.live);
  }

  lemma AnsweredKeeps(s: State, verdict: map<R.CallId, R.Outcome>)
    requires Inv(s) && forall c :: c in verdict ==> !verdict[c].Lost?
    ensures Good(s, s.(reqs := R.Settle(s.reqs, verdict)))
  {
    R.AnswerKeeps(s.reqs, verdict);
    R.SettleNews(s.reqs, verdict);
  }

  lemma EstablishLink(l: L.Link)
    requires L.Inv(l) && l.status == L.Connecting
    ensures L.Inv(L.SettleConnect(L.Establish(l)))
  {
    ClearKeeps(l.timers);
    L.SameRetryTruthful(l.timers, ClearDeadline(l.timers), l.pace);
  }

  lemma EstablishKeeps(s: State, restored: seq<R.Request>, rejected: set<R.CallId>, failing: set<R.CallId>)
    requires Inv(s)
    ensures Good(s, EstablishSession(s, restored, rejected, failing))
  {
    hide R.Inv, R.Flush, R.Restore;
    if s.link.status == L.Connecting {
      EstablishLink(s.link);
      V.TimerStepsKeep(s.live, true);
      EstablishRequests(s.reqs, restored, rejected, failing);
    }
  }

  lemma EstablishRequests(r: R.Reqs, restored: seq<R.Request>, rejected: set<R.CallId>, failing: set<R.CallId>)
    requires R.Inv(r)
    ensures var r' := R.Flush(R.Restore(r, restored), rejected, failing);
      && R.Inv(r') && R.Extends(r, r') && r'.queue == []
      && (forall c, o :: R.News(r, r', c, o) ==> c in r.queue && o == R.SendFailed && (c in rejected || c in failing))
  {
    hide R.Inv, R.Extends, R.Flush, R.Restore;
    var reopened := R.Restore(r, restored);
    R.RestoreKeeps(r, restored);
    R.RestoreUntouched(r, restored);
    R.FlushKeeps(reopened, rejected, failing);
    R.FlushNews(reopened, rejected, failing);
    R.ExtendsTransitive(r, reopened, R.Flush(reopened, rejected, failing));
    assert forall c, o :: R.News(r, R.Flush(reopened, rejected, failing), c, o) ==>
        R.News(reopened, R.Flush(reopened, rejected, failing), c, o);
  }

  /** Only two kinds of message reach the connection; of the others a rejected hello leaves a mark. */
  lemma DeliveredLink(s: State, message: Inbound, draw: L.Draw)
    ensures message.BadHostFrame? ==> Deliver(s, message, draw) == Teardown(s, draw)
    ensures message.ServerInfo? ==>
      Deliver(s, message, draw) == EstablishSession(Heard(s), message.restored, message.rejected, message.failing)
    ensures !message.BadHostFrame? && !message.ServerInfo? ==>
      var l := Deliver(s, message, draw).link;
      l == s.link.(authFailed := l.authFailed)
  {
    hide Teardown, EstablishSession, R.Resolve, R.RejectOwners, V.SettleProbe, V.Heard;
  }

  lemma MessageKeeps(s: State, message: Inbound, draw: L.Draw)
    requires Inv(s) && s.link.transport.Some?
    ensures Good(s, Step(s, MessageArrives(message, draw)))
  {
    hide Good, Inv, Mid, SameWork, R.Resolve, R.RejectOwners, EstablishSession, Teardown, V.SettleProbe;
    HeardKeeps(s);
    var heard := Heard(s);
    match message
    case Garbage => StillGood(s, s.link.authFailed);
    case Invalid(requestId) =>
      StillGood(s, s.link.authFailed);
      if requestId.Some? { RejectOwnersKeeps(s, requestId.value); }
    case Pong =>
      PongKeeps(heard);
      HeardThen(s, heard.(live := V.SettleProbe(heard.live, s.link.status == L.Connected)));
    case HelloRejected(password) =>
      StillGood(heard, password);
      HeardThen(s, heard.(link := heard.link.(authFailed := password)));
    case ServerInfo(restored, rejected, failing) =>
      EstablishKeeps(heard, restored, rejected, failing);
      HeardThen(s, EstablishSession(heard, restored, rejected, failing));
    case Answer(reply) => ResolveKeeps(heard, reply); HeardThen(s, heard.(reqs := R.Resolve(heard.reqs, reply)));
    case HostFrame => StillGood(s, s.link.authFailed);
    case BadHostFrame => SelfMid(s); TeardownGood(s, s, draw);
    case FileFrame(effect) =>
      if effect.Broken? {
        RejectOwnersKeeps(heard, effect.requestId);
        HeardThen(s, heard.(reqs := R.RejectOwners(heard.reqs, effect.requestId)));
      } else if effect.Complete? {
        ResolveKeeps(heard, effect.reply);
        HeardThen(s, heard.(reqs := R.Resolve(heard.reqs, effect.reply)));
      }
    case _ =>
  }

  /** A sign of life only adds to the liveness log, so it can stand in front of any other effect. */
  lemma HeardThen(s: State, s': State)
    requires Inv(s) && Good(Heard(s), s')
    ensures Good(s, s')
  {
    hide R.Inv, R.Extends, L.Inv, V.Inv;
  }

  lemma StillGood(s: State, authFailed: bool)
    requires Inv(s)
    ensures Good(s, s.(link := s.link.(authFailed := authFailed)))
  {
    hide R.Inv, V.Inv;
  }

  lemma PongKeeps(s: State)
    requires Inv(s)
    ensures Good(s, s.(live := V.SettleProbe(s.live, s.link.status == L.Connected)))
  {
    hide R.Inv, L.Inv;
    V.TimerStepsKeep(s.live, s.link.status == L.Connected);
  }

  lemma RejectOwnersKeeps(s: State, requestId: string)
    requires Inv(s)
    ensures Good(s, s.(reqs := R.RejectOwners(s.reqs, requestId)))
  {
    hide R.Inv, Inv, Good;
    AnsweredKeeps(s, R.Owners(s.reqs, requestId));
  }

  lemma ResolveKeeps(s: State, reply: R.Reply)
    requires Inv(s)
    ensures Good(s, s.(reqs := R.Resolve(s.reqs, reply)))
  {
    hide R.Inv, Inv, Good;
    AnsweredKeeps(s, R.Readings(s.reqs, reply));
  }

  // ---------------------------------------------------------------------------
  // Liveness
  // ---------------------------------------------------------------------------

  lemma BeatlessMid(s: State)
    requires Beatless(s)
    ensures Mid(s)
  {
  }

  lemma CountedKeeps(s: State)
    requires Beatless(s)
    ensures var counted := s.(live := V.Fail(s.live).0);
      Beatless(counted) && s.live.log <= counted.live.log && counted.live.probe == s.live.probe
  {
    hide L.Inv, R.Inv, V.Inv;
    V.FailKeeps(s.live);
  }

  /** A step that goes on from a longer liveness log is a step from the log before. */
  lemma LoggedThen(s: State, s1: State, s': State)
    requires s1 == s.(live := s1.live) && s.live.log <= s1.live.log && Forward(s1, s') && Driven(s1, s')
    ensures Forward(s, s') && Driven(s, s')
  {
    hide R.Extends, R.News;
  }

  lemma SelfForward(s: State)
    ensures Forward(s, s) && Driven(s, s)
  {
    hide R.Extends, R.News;
    R.ExtendsSelf(s.reqs);
  }

  lemma CountFailureKeeps(s: State, draw: L.Draw)
    requires Beatless(s)
    ensures var s' := CountFailure(s, draw);
      Beatless(s') && Forward(s, s') && Driven(s, s')
  {
    hide Beatless, Mid, Forward, Driven, Teardown, V.Fail;
    var counted := s.(live := V.Fail(s.live).0);
    CountedKeeps(s);
    BeatlessMid(counted);
    TeardownKeeps(counted, draw);
    LoggedThen(s, counted, Teardown(counted, draw));
    SelfForward(counted);
    LoggedThen(s, counted, counted);
  }

  lemma NextBeatKeeps(s: State)
    requires Beatless(s)
    ensures Good(s, NextBeat(s)) && NextBeat(s) == s.(live := NextBeat(s).live) && NextBeat(s).live.log == s.live.log
    ensures NextBeat(s).live.probe == s.live.probe
  {
    V.ScheduleBeatKeeps(s.live, s.link.status == L.Connected);
  }

  /** A step that ends with a change to the liveness timers alone. */
  lemma ThenSilent(s: State, s1: State, s': State)
    requires Forward(s, s1) && Driven(s, s1)
    requires s' == s1.(live := s'.live) && s'.live.log == s1.live.log && s'.live.probe == s1.live.probe
    ensures Forward(s, s') && Driven(s, s')
  {
    hide R.Extends, R.News;
  }

  /** A failed heartbeat ping is counted and the next beat scheduled if the session survives. */
  lemma FailedBeatKeeps(s: State, draw: L.Draw)
    requires Beatless(s)
    ensures Good(s, NextBeat(CountFailure(s, draw)))
  {
    hide Beatless, Inv, Forward, Driven, CountFailure, NextBeat;
    CountFailureKeeps(s, draw);
    NextBeatKeeps(CountFailure(s, draw));
    ThenSilent(s, CountFailure(s, draw), NextBeat(CountFailure(s, draw)));
  }

  /** The heartbeat has fired: nothing is scheduled until its ping is over. */
  lemma BeatFired(s: State)
    requires Inv(s)
    ensures Beatless(s.(live := V.StopBeat(s.live))) && V.StopBeat(s.live).log == s.live.log
    ensures V.StopBeat(s.live).probe == s.live.probe
  {
    hide R.Inv, L.Inv;
    V.TimerStepsKeep(s.live, true);
  }

  /** The heartbeat waits for a ping, its own or one already in flight. */
  lemma BeatWaits(s: State, live: V.Live)
    requires Inv(s) && s.link.status == L.Connected && V.Inv(live) && live.probe.Some? && live.log == s.live.log
    ensures Good(s, s.(live := live.(attached := true)))
  {
    hide R.Inv, R.Extends, R.News, L.Inv;
    R.ExtendsSelf(s.reqs);
  }

  lemma BeatFails(s: State, draw: L.Draw)
    requires Inv(s) && s.live.probe.None?
    ensures var failed := s.(live := V.DropProbe(V.OpenProbe(V.StopBeat(s.live), true)));
      Good(s, NextBeat(CountFailure(failed, draw)))
  {
    hide R.Inv, R.Extends, R.News, L.Inv, V.Fail, CountFailure, NextBeat, Good;
    var fired := s.(live := V.StopBeat(s.live));
    V.TimerStepsKeep(s.live, true);
    V.OpenProbeKeeps(fired.live, true);
    V.TimerStepsKeep(V.OpenProbe(fired.live, true), true);
    var failed := fired.(live := V.DropProbe(V.OpenProbe(fired.live, true)));
    FailedBeatKeeps(failed, draw);
    SilentThen(s, failed, NextBeat(CountFailure(failed, draw)));
  }

  lemma BeatKeeps(s: State, sent: bool, draw: L.Draw)
    requires Inv(s) && s.live.heartbeat.Some?
    ensures Good(s, Beat(s, sent, draw))
  {
    hide Inv, Good, Beatless, CountFailure, NextBeat, V.StopBeat, V.OpenProbe, V.DropProbe;
    var fired := s.(live := V.StopBeat(s.live));
    BeatFired(s);
    BeatSound(s);
    if s.link.status != L.Connected || s.link.transport.None? {
      NextBeatKeeps(fired);
      SilentThen(s, fired, NextBeat(fired));
    } else if fired.live.probe.Some? {
      BeatWaits(s, fired.live);
    } else if sent {
      BeatWaits(s, V.OpenProbe(fired.live, true));
    } else {
      BeatFails(s, draw);
    }
  }

  lemma BeatSound(s: State)
    requires Inv(s)
    ensures V.Inv(V.StopBeat(s.live))
    ensures s.live.probe.None? ==>
      var pinged := V.OpenProbe(V.StopBeat(s.live), true);
      V.Inv(pinged) && pinged.probe.Some? && pinged.log == s.live.log
  {
    hide R.Inv, L.Inv;
    V.TimerStepsKeep(s.live, true);
    if s.live.probe.None? { V.OpenProbeKeeps(V.StopBeat(s.live), true); }
  }

  /** A step that goes on from `s1`, which differs from `s` in its liveness timers only. */
  lemma SilentThen(s: State, s1: State, s': State)
    requires s1 == s.(live := s1.live) && s1.live.log == s.live.log && Good(s1, s')
    ensures Good(s, s')
  {
    hide Inv, R.Extends, R.News;
  }

  lemma MeasureKeeps(s: State, sent: bool)
    requires Inv(s)
    ensures Good(s, Measure(s, sent)) && Measure(s, sent).live.log == s.live.log
  {
    if s.live.probe.None? {
      V.OpenProbeKeeps(s.live, false);
      V.TimerStepsKeep(V.OpenProbe(s.live, false), true);
    }
  }

  /** A step that goes on from a dropped probe is a step from the probe in flight. */
  lemma DropThen(s: State, s': State)
    requires Inv(s) && Good(s.(live := V.DropProbe(s.live)), s')
    ensures Good(s, s')
  {
    hide R.Inv, R.Extends, L.Inv, V.Inv;
  }

  lemma DroppedKeeps(s: State)
    requires Inv(s)
    ensures Beatless(s.(live := V.DropProbe(s.live)))
    ensures !s.live.attached ==> Good(s.(live := V.DropProbe(s.live)), s.(live := V.DropProbe(s.live)))
  {
    hide R.Inv, L.Inv;
    V.TimerStepsKeep(s.live, true);
  }

  /** A counted failure leaves the heartbeat as it was, or gives the connection up. */
  lemma CountBeats(s: State, draw: L.Draw)
    requires Inv(s)
    ensures var s' := CountFailure(s, draw);
      s'.link.status == L.Connected && s'.link.pace.faults == 0 ==> s'.live.heartbeat.Some? || s'.live.attached
  {
    hide L.Inv, L.Core, R.Inv, R.Extends, R.News, V.Inv, Teardown, Forward;
    CountMid(s);
    var (live, teardown) := V.Fail(s.live);
    if teardown { TeardownKeeps(s.(live := live), draw); }
  }

  lemma CountMid(s: State)
    requires Inv(s)
    ensures Mid(s.(live := V.Fail(s.live).0))
  {
    hide L.Inv, L.Core, R.Inv, V.Inv;
    BeatlessMid(s);
    V.FailKeeps(s.live);
  }

  lemma CountGood(s: State, draw: L.Draw)
    requires Inv(s)
    ensures Good(s, CountFailure(s, draw))
  {
    hide Beatless, Forward, Driven, CountFailure;
    CountFailureKeeps(s, draw);
    CountBeats(s, draw);
  }

  lemma PingTimeoutKeeps(s: State, draw: L.Draw)
    requires Inv(s) && s.live.probe.Some?
    ensures Good(s, PingTimeout(s, draw))
  {
    hide Inv, Good, Beatless, CountFailure, NextBeat;
    var dropped := s.(live := V.DropProbe(s.live));
    DroppedKeeps(s);
    if s.live.attached {
      FailedBeatKeeps(dropped, draw);
      NextBeatKeeps(dropped);
    } else if s.live.probe.value.drivesFailure {
      GoodInv(dropped, dropped);
      CountGood(dropped, draw);
    }
    DropThen(s, PingTimeout(s, draw));
  }

  lemma GoodInv(s: State, s': State)
    requires Good(s, s')
    ensures Inv(s')
  {
  }

  // ---------------------------------------------------------------------------
  // Requests and closing
  // ---------------------------------------------------------------------------

  lemma SendKeeps(s: State, request: R.Request)
    requires Inv(s)
    ensures Good(s, Send(s, request))
    ensures forall c, o :: !R.News(s.reqs, Send(s, request).reqs, c, o)
  {
    hide R.Inv, R.Extends, R.News, V.Inv, R.SendNow, R.SendUnavailable;
    if s.link.transport.Some? && s.link.status == L.Connected {
      R.SendNowKeeps(s.reqs, request, false);
      R.SendNowUntouched(s.reqs, request, false);
    } else if s.link.status == L.Connecting {
      R.HoldKeeps(s.reqs, request.requestId, request.responseType, false);
      R.HoldUntouched(s.reqs, request.requestId, request.responseType);
    } else {
      R.SendUnavailableKeeps(s.reqs, request);
      R.SendUnavailableUntouched(s.reqs, request);
    }
    R.UntouchedNews(s.reqs, Send(s, request).reqs);
  }

  lemma AbortKeeps(s: State, call: R.CallId)
    requires Inv(s)
    ensures Good(s, s.(reqs := R.Abort(s.reqs, call)))
  {
    R.AbortKeeps(s.reqs, call);
    R.AbortNews(s.reqs, call);
  }

  lemma QueueTimeoutKeeps(s: State, call: R.CallId)
    requires Inv(s)
    ensures Good(s, s.(reqs := R.QueueTimeout(s.reqs, call)))
  {
    R.QueueTimeoutKeeps(s.reqs, call);
    R.QueueTimeoutNews(s.reqs, call);
  }

  lemma CloseKeeps(s: State)
    requires Inv(s)
    ensures Good(s, Close(s))
  {
    hide R.Inv, V.Inv;
    L.CloseKeeps(s.link);
    V.TimerStepsKeep(s.live, false);
    R.CloseWaitersKeeps(s.reqs);
    R.CloseNews(s.reqs);
  }

  lemma FinishCloseKeeps(s: State)
    requires Inv(s) && s.closing
    ensures Good(s, FinishClose(s))
  {
    V.TimerStepsKeep(s.live, false);
    R.CloseQueueKeeps(s.reqs);
    R.CloseNews(s.reqs);
  }

  // ---------------------------------------------------------------------------
  // Every step
  // ---------------------------------------------------------------------------

  lemma ModeReportedKeeps(s: State, mode: L.Mode)
    requires Inv(s)
    ensures Good(s, s.(link := s.link.(security := L.ReportMode(s.link.security, mode))))
  {
    hide R.Inv, V.Inv;
    L.ReportModeKeeps(s.link, mode);
  }

  lemma SetReconnectKeeps(s: State, enabled: bool)
    requires Inv(s)
    ensures Good(s, s.(link := L.SetReconnectEnabled(s.link, enabled)))
  {
    hide R.Inv, V.Inv;
    L.ClearRetryKeeps(s.link);
  }

  lemma SlotOpenedKeeps(s: State, slot: nat)
    requires Inv(s) && s.link.status == L.Connected
    ensures Good(s, s.(slots := s.slots + {slot}))
  {
    hide R.Inv, V.Inv, L.Inv;
  }

  lemma StepKeeps(s: State, e: Event)
    requires Inv(s) && Enabled(s, e)
    ensures Good(s, Step(s, e))
  {
    hide Good, Inv, Mid, SameWork, ConnectStep, EnsureStep, AttemptConnect, Proceed, CloseTransport, ScheduleReconnect,
         Teardown, TimerFired, Deliver, Beat, Measure, PingTimeout, Send, Close, FinishClose, R.Abort, R.QueueTimeout;
    match e
    case Connect(auth, draw) => ConnectKeeps(s, auth, draw);
    case EnsureConnected(auth, draw) => EnsureKeeps(s, auth, draw);
    case CredentialsSettle(token, build, draw) => CredentialsSettleKeeps(s, token, build, draw);
    case RetryFires(id, auth, draw) => RetryFiresKeeps(s, id, auth, draw);
    case DeadlineFires(id, draw) => DeadlineFiresKeeps(s, id, draw);
    case ErrorDelayFires(id, draw) => ErrorDelayFiresKeeps(s, id, draw);
    case TransportOpens(helloSent, draw) => TransportOpensKeeps(s, helloSent, draw);
    case TransportCloses(reason, draw) => TransportClosesKeeps(s, reason, draw);
    case TransportFails(generic, draw) => TransportFailsKeeps(s, generic, draw);
    case MessageArrives(message, draw) => MessageKeeps(s, message, draw);
    case SendRequest(request, aborted) => SendKeeps(s, request); StillGood(s, s.link.authFailed);
    case AbortRequest(call) => AbortKeeps(s, call);
    case WaiterTimesOut(call) => AnsweredKeeps(s, map[call := R.TimedOut]);
    case QueueTimesOut(call) => QueueTimeoutKeeps(s, call);
    case HeartbeatFires(sent, draw) => BeatKeeps(s, sent, draw);
    case MeasureLatency(sent) => MeasureKeeps(s, sent);
    case PingTimesOut(draw) => PingTimeoutKeeps(s, draw);
    case CloseBegins => CloseKeeps(s);
    case CloseEnds => FinishCloseKeeps(s);
    case ModeReported(mode) => ModeReportedKeeps(s, mode);
    case SetReconnect(enabled) => SetReconnectKeeps(s, enabled);
    case SessionDropped(draw) => SelfMid(s); TeardownGood(s, s, draw);
    case SlotOpened(slot) => SlotOpenedKeeps(s, slot);
  }
}
