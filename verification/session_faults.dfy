/**
 * Losses that break off because their retry time is no date: what such a fault needs, what it
 * leaves behind, and exactly which reconnect policies are safe from it.
 */
module SessionFaults {
  import opened Prelude
  import opened Session
  import opened SessionSafety
  import opened SessionRuns
  import B = Backoff
  import Timers
  import L = Link
  import R = Requests
  import V = Liveness

  function DrawOf(e: Event): Option<L.Draw> {
    match e
    case Connect(_, draw) => Some(draw)
    case EnsureConnected(_, draw) => Some(draw)
    case CredentialsSettle(_, _, draw) => Some(draw)
    case RetryFires(_, _, draw) => Some(draw)
    case DeadlineFires(_, draw) => Some(draw)
    case ErrorDelayFires(_, draw) => Some(draw)
    case TransportOpens(_, draw) => Some(draw)
    case TransportCloses(_, draw) => Some(draw)
    case TransportFails(_, draw) => Some(draw)
    case MessageArrives(_, draw) => Some(draw)
    case SessionDropped(draw) => Some(draw)
    case HeartbeatFires(_, draw) => Some(draw)
    case PingTimesOut(draw) => Some(draw)
    case _ => None
  }

  /**
   * A loss has broken off. The client may reconnect, and the retry time of its try cannot be
   * published; the status is the one before, and no attempt or retry is left.
   */
  predicate BrokenOff(l: L.Link, l': L.Link, draw: L.Draw) {
    && l'.pace.faults == l.pace.faults + 1 && l'.pace.tries == l.pace.tries
    && !B.Publishable(L.NextDelay(l.pace, draw.first).1, draw.now)
    && l'.enabled && l'.shouldReconnect && l'.status == l.status && l.status != L.Disposed
    && l'.attempt.None? && l'.timers.retry.None?
  }

  predicate Steady(l: L.Link, l': L.Link) {
    l'.pace.policy == l.pace.policy && l'.pace.faults == l.pace.faults
  }

  predicate Paced(l: L.Link, l': L.Link, draw: L.Draw) {
    l'.pace.policy == l.pace.policy && (l'.pace.faults == l.pace.faults || BrokenOff(l, l', draw))
  }

  // ---------------------------------------------------------------------------
  // One step
  // ---------------------------------------------------------------------------

  lemma EmitPaced(l: L.Link, draw: L.Draw)
    requires l.attempt.None? && l.timers.retry.None? && l.status != L.Disposed
    ensures Paced(l, L.EmitDisconnected(l, draw), draw)
    ensures Steady(l, L.EmitDisconnected(l, draw)) <==> !L.Faults(l, draw)
    ensures Steady(l, L.ArmReconnect(l, draw.second))
  {
    hide B.Delay, B.Publishable, Timers.ArmRetry;
  }

  lemma JudgedPaced(l: L.Link)
    ensures var judged := L.Judged(l);
      && judged.pace == l.pace && judged.status == l.status && judged.attempt.None? && judged.timers.retry.None?
      && judged.shouldReconnect == l.shouldReconnect && judged.enabled == (l.enabled && !l.authFailed)
  {
  }

  /** A loss of a client that may reconnect breaks off exactly when its retry time cannot be published. */
  lemma LosePaced(l: L.Link, draw: L.Draw)
    ensures Paced(l, L.Lose(l, draw), draw)
    ensures L.Lose(l, draw).pace.faults != l.pace.faults <==>
      && l.status != L.Disposed && l.shouldReconnect && l.enabled && !l.authFailed
      && var delay := L.NextDelay(l.pace, draw.first).1;
         delay.None? || draw.now + delay.value > 8_640_000_000_000_000
  {
    hide L.Judged, L.EmitDisconnected, L.ArmReconnect, L.NextDelay;
    JudgedPaced(l);
    var judged := L.Judged(l);
    if judged.status != L.Disposed {
      EmitPaced(judged, draw);
      ArmSteady(L.EmitDisconnected(judged, draw), draw.second);
    }
  }

  lemma ArmSteady(l: L.Link, random: B.Unit)
    ensures Steady(l, L.ArmReconnect(l, random))
  {
    hide B.Delay, Timers.ArmRetry;
  }

  lemma LossPaced(s: State, draw: L.Draw)
    ensures Paced(s.link, ScheduleReconnect(s, draw).link, draw) && Paced(s.link, Teardown(s, draw).link, draw)
    ensures Paced(s.link, FailAttempt(s, draw).link, draw)
  {
    hide L.Lose, R.Lose, V.SettleProbe, V.StopBeat, Timers.ClearDeadline, Timers.ClearErrorDelay;
    LosePaced(s.link, draw);
    LosePaced(L.Dispose(s.link), draw);
    LosePaced(s.link.(timers := Timers.ClearDeadline(s.link.timers)), draw);
  }

  lemma FailPaced(s: State, s1: State, draw: L.Draw)
    requires s1.link == s.link.(transport := s1.link.transport, timers := s1.link.timers, enabled := s1.link.enabled)
    ensures Paced(s.link, FailAttempt(s1, draw).link, draw)
  {
    hide FailAttempt, ScheduleReconnect, Teardown;
    LossPaced(s1, draw);
  }

  lemma ProceedPaced(s: State, token: nat, build: Build, draw: L.Draw)
    ensures Paced(s.link, Proceed(s, token, build, draw).link, draw)
  {
    hide FailAttempt, DisposeTransport, L.SetReconnectEnabled, BrokenOff, Timers.ClearDeadline, Timers.ArmDeadline;
    DisposedShape(s);
    var disposed := DisposeTransport(s);
    FailPaced(s, s, draw);
    FailPaced(s, disposed, draw);
    FailPaced(s, disposed.(link := L.SetReconnectEnabled(disposed.link, false)), draw);
  }

  lemma AttemptPaced(s: State, auth: Auth, draw: L.Draw)
    ensures Paced(s.link, AttemptConnect(s, auth, draw).link, draw)
  {
    hide Proceed, Timers.ClearRetry;
    if auth.Now? { ProceedPaced(s.(link := L.BeginAttempt(s.link)), s.link.tokens, auth.build, draw); }
  }

  lemma AskPaced(s: State, auth: Auth, draw: L.Draw)
    ensures Paced(s.link, ConnectStep(s, auth, draw).link, draw) && Paced(s.link, EnsureStep(s, auth, draw).link, draw)
  {
    hide AttemptConnect;
    AttemptPaced(s.(link := s.link.(shouldReconnect := true)), auth, draw);
    AttemptPaced(s.(link := s.link.(shouldReconnect := true, pending := true)), auth, draw);
  }

  lemma FiredPaced(s: State, id: nat, auth: Auth, draw: L.Draw)
    requires id in s.link.timers.armed
    ensures var fired := TimerFired(s, id);
      && Paced(s.link, fired.link, draw) && Paced(s.link, AttemptConnect(fired, auth, draw).link, draw)
      && Paced(s.link, ScheduleReconnect(fired, draw).link, draw) && Paced(s.link, Teardown(fired, draw).link, draw)
  {
    hide AttemptConnect, ScheduleReconnect, Teardown;
    AttemptPaced(TimerFired(s, id), auth, draw);
    LossPaced(TimerFired(s, id), draw);
  }

  lemma ClosePaced(s: State, reason: CloseReason, draw: L.Draw)
    ensures Paced(s.link, CloseTransport(s, reason, draw).link, draw)
  {
    hide ScheduleReconnect, Timers.ClearRetry, Timers.ClearErrorDelay, Timers.ClearDeadline;
    var judged := L.Unwatch(s.link.(authFailed := s.link.authFailed || reason == AuthRejected));
    LossPaced(s.(link := judged), draw);
    LossPaced(s.(link := L.SetReconnectEnabled(judged, false)), draw);
  }

  lemma TransportPaced(s: State, e: Event)
    requires Enabled(s, e) && (e.TransportOpens? || e.TransportCloses? || e.TransportFails? || e.SessionDropped?)
    ensures Paced(s.link, Step(s, e).link, e.draw)
  {
    hide ScheduleReconnect, Teardown, Timers.ClearErrorDelay, Timers.ClearDeadline, Timers.ClearRetry,
         Timers.ArmErrorDelay, CloseTransport;
    match e
    case TransportOpens(_, draw) =>
      LossPaced(s.(link := s.link.(timers := Timers.ClearErrorDelay(s.link.timers))), draw);
    case TransportCloses(reason, draw) => ClosePaced(s, reason, draw);
    case TransportFails(_, draw) => LossPaced(s.(link := L.Unwatch(s.link.(errored := true))), draw);
    case SessionDropped(draw) => LossPaced(s, draw);
  }

  lemma EstablishPaced(s: State, restored: seq<R.Request>, rejected: set<R.CallId>, failing: set<R.CallId>)
    ensures Steady(s.link, EstablishSession(Heard(s), restored, rejected, failing).link)
  {
    hide R.Flush, R.Restore, V.StartBeat, V.Heard, Timers.ClearDeadline;
  }

  lemma MessagePaced(s: State, message: Inbound, draw: L.Draw)
    ensures Paced(s.link, Deliver(s, message, draw).link, draw)
  {
    hide Deliver, Teardown, EstablishSession, Heard;
    DeliveredLink(s, message, draw);
    match message
    case BadHostFrame => LossPaced(s, draw);
    case ServerInfo(restored, rejected, failing) => EstablishPaced(s, restored, rejected, failing);
    case _ =>
  }

  lemma CountPaced(s: State, draw: L.Draw)
    ensures Paced(s.link, CountFailure(s, draw).link, draw) && Paced(s.link, NextBeat(CountFailure(s, draw)).link, draw)
  {
    hide Teardown, V.ScheduleBeat;
    LossPaced(s.(live := V.Fail(s.live).0), draw);
  }

  lemma BeatPaced(s: State, sent: bool, draw: L.Draw)
    ensures Paced(s.link, Beat(s, sent, draw).link, draw)
    ensures s.live.probe.Some? ==> Paced(s.link, PingTimeout(s, draw).link, draw)
  {
    hide CountFailure, V.ScheduleBeat, V.StopBeat, V.DropProbe, V.OpenProbe;
    CountPaced(s.(live := V.DropProbe(V.OpenProbe(V.StopBeat(s.live), true))), draw);
    CountPaced(s.(live := V.DropProbe(s.live)), draw);
  }

  lemma QuietSteady(s: State, e: Event)
    requires Enabled(s, e) && DrawOf(e).None?
    ensures Steady(s.link, Step(s, e).link)
  {
    hide R.SendNow, R.SendUnavailable, R.Hold, R.Abort, R.QueueTimeout, R.WaiterTimeout, R.CloseQueue, R.CloseWaiters,
         V.StopBeat, V.DropProbe, V.OpenProbe, Timers.ClearRetry, Timers.ClearDeadline, Timers.ClearErrorDelay;
  }

  lemma StepPaced(s: State, e: Event)
    requires Enabled(s, e)
    ensures DrawOf(e).None? ==> Steady(s.link, Step(s, e).link)
    ensures DrawOf(e).Some? ==> Paced(s.link, Step(s, e).link, DrawOf(e).value)
  {
    hide Paced, Steady, ConnectStep, EnsureStep, AttemptConnect, Proceed, CloseTransport, Teardown, ScheduleReconnect,
         Deliver, Beat, PingTimeout, Measure, Send, Close, FinishClose, TimerFired;
    match e
    case Connect(auth, draw) => AskPaced(s, auth, draw);
    case EnsureConnected(auth, draw) => AskPaced(s, auth, draw);
    case CredentialsSettle(token, build, draw) => CredentialsPaced(s, token, build, draw);
    case RetryFires(id, auth, draw) => FiredPaced(s, id, auth, draw);
    case DeadlineFires(id, draw) => FiredPaced(s, id, Auth.Later, draw);
    case ErrorDelayFires(id, draw) => FiredPaced(s, id, Auth.Later, draw);
    case TransportOpens(_, _) => TransportPaced(s, e);
    case TransportCloses(_, _) => TransportPaced(s, e);
    case TransportFails(_, _) => TransportPaced(s, e);
    case SessionDropped(_) => TransportPaced(s, e);
    case MessageArrives(message, draw) => MessagePaced(s, message, draw);
    case HeartbeatFires(sent, draw) => BeatPaced(s, sent, draw);
    case PingTimesOut(draw) => BeatPaced(s, true, draw);
    case _ => QuietSteady(s, e);
  }

  lemma CredentialsPaced(s: State, token: nat, build: Build, draw: L.Draw)
    requires token in s.link.outstanding
    ensures Paced(s.link, Step(s, CredentialsSettle(token, build, draw)).link, draw)
  {
    hide Proceed;
    ProceedPaced(s.(link := s.link.(outstanding := s.link.outstanding - {token})), token, build, draw);
  }

  // ---------------------------------------------------------------------------
  // Every run
  // ---------------------------------------------------------------------------

  /**
   * Whatever the run, a loss breaks off only where reconnecting is allowed and the retry time
   * cannot be published: the ceiling is no number, or the delay still pending or drawn now ends
   * after the last date. Then nothing drives the client but the session it may still take for live.
   */
  lemma FaultCause(tr: seq<State>, es: seq<Event>, i: nat)
    requires Run(tr, es) && i < |es| && tr[i + 1].link.pace.faults != tr[i].link.pace.faults
    ensures DrawOf(es[i]).Some? && BrokenOff(tr[i].link, tr[i + 1].link, DrawOf(es[i]).value)
    ensures L.Drivers(tr[i + 1].link) == if L.InSession(tr[i].link) then 1 else 0
  {
    hide Step, Enabled, L.NextDelay, B.Publishable;
    assert StepAt(tr, es, i);
    StepPaced(tr[i], es[i]);
  }

  /** The longest delay the policy can draw at any try. */
  function LongestDelay(p: B.Policy): nat {
    if p.fullJitter && 0 < p.max then p.max - 1 else p.max
  }

  /** A positive base, and no delay that ends after the last date when drawn at `last`. */
  predicate Sane(p: B.Policy, last: nat) {
    0 < p.base && last + LongestDelay(p) <= 8_640_000_000_000_000
  }

  /** No loss happens later than `last`. */
  ghost predicate InTime(es: seq<Event>, last: nat) {
    forall i :: 0 <= i < |es| && DrawOf(es[i]).Some? ==> DrawOf(es[i]).value.now <= last
  }

  lemma {:induction false} SameRate(tr: seq<State>, es: seq<Event>, i: nat)
    requires Run(tr, es) && i <= |es|
    ensures tr[i].link.pace.policy == tr[0].link.pace.policy
  {
    hide Step, Enabled, BrokenOff;
    if i > 0 {
      SameRate(tr, es, i - 1);
      assert StepAt(tr, es, i - 1);
      StepPaced(tr[i - 1], es[i - 1]);
    }
  }

  lemma SanePublishes(p: L.Pace, random: B.Unit, now: nat, last: nat)
    requires p.drawn.None? && Sane(p.policy, last) && now <= last
    ensures B.Publishable(L.NextDelay(p, random).1, now)
  {
    hide B.Scaled;
  }

  /** With a sane policy no loss ever breaks off. */
  lemma {:induction false} SaneNeverFaults(tr: seq<State>, es: seq<Event>, i: nat, last: nat)
    requires Run(tr, es) && i <= |es| && Sane(tr[0].link.pace.policy, last) && InTime(es, last)
    ensures tr[i].link.pace.faults == 0
  {
    hide Step, Enabled, Inv, Sane, L.NextDelay, B.Publishable;
    if i == 0 {
      StartFaultless(tr, es);
    } else {
      SaneNeverFaults(tr, es, i - 1, last);
      SameRate(tr, es, i - 1);
      NothingDrawn(tr, es, i - 1);
      assert StepAt(tr, es, i - 1);
      StepPaced(tr[i - 1], es[i - 1]);
      var draw := DrawOf(es[i - 1]);
      if draw.Some? { SanePublishes(tr[i - 1].link.pace, draw.value.first, draw.value.now, last); }
    }
  }

  lemma StartFaultless(tr: seq<State>, es: seq<Event>)
    requires Run(tr, es)
    ensures tr[0].link.pace.faults == 0
  {
    hide Steps;
  }

  lemma NothingDrawn(tr: seq<State>, es: seq<Event>, i: nat)
    requires Run(tr, es) && i <= |es| && tr[i].link.pace.faults == 0
    ensures tr[i].link.pace.drawn.None?
  {
    RunInv(tr, es, i);
  }

  /** The client has been asked to connect at `k` and was neither disabled nor closed after that. */
  ghost predicate Wanted(tr: seq<State>, es: seq<Event>, k: nat, i: nat)
    requires |tr| == |es| + 1 && k < i <= |es|
  {
    Asks(tr[k], es[k]) && forall j :: k < j <= i ==> tr[j].link.enabled && tr[j].link.status != L.Disposed
  }

  /** Never stuck, with no condition but the policy: a wanted client always has exactly one driver. */
  lemma SaneStaysDriven(tr: seq<State>, es: seq<Event>, k: nat, i: nat, last: nat)
    requires Run(tr, es) && k < i <= |es| && Sane(tr[0].link.pace.policy, last) && InTime(es, last)
    requires Wanted(tr, es, k, i)
    ensures L.Drivers(tr[i].link) == 1
  {
    hide L.Drivers, Sane;
    SaneNeverFaults(tr, es, i, last);
    SingleDriver(tr, es, k, i);
  }

  // ---------------------------------------------------------------------------
  // A policy that is not sane does break off
  // ---------------------------------------------------------------------------

  /** The client has failed `n` times in a row and waits for its retry. */
  ghost predicate Waiting(s: State, p: B.Policy, n: nat) {
    var l := s.link;
    && l.status == L.Disconnected && l.enabled && l.shouldReconnect && !l.authFailed && l.attempt.None?
    && l.pace.policy == p && l.pace.tries == n && l.pace.faults == 0 && l.pace.drawn.None?
    && Timers.Arms(l.timers, l.timers.retry) && l.timers.armed[l.timers.retry.value].Retry?
  }

  /** The client is enabled and not closed, a loss has broken off, and nothing drives the connection. */
  ghost predicate Stranded(s: State) {
    s.link.enabled && s.link.status != L.Disposed && s.link.pace.faults == 1 && L.Drivers(s.link) == 0
  }

  /** A random value whose share of the maximum is the longest delay. */
  function TopShare(p: B.Policy): B.Unit {
    if 0 < p.max then (p.max - 1) as real / p.max as real else 0.0
  }

  function LateDraw(p: B.Policy, last: nat): L.Draw {
    L.Draw(TopShare(p), 0.0, last)
  }

  /** Far enough into the failures, a policy that is not sane draws a delay that cannot be published. */
  lemma DoomedDelay(p: B.Policy, n: nat, last: nat)
    requires !Sane(p, last) && B.OVERFLOW_TRY <= n && p.max <= n
    ensures !B.Publishable(B.Delay(p, n, TopShare(p)), last)
  {
    hide B.Scaled;
    if 0 < p.base {
      B.CeilingReachesMax(p, n);
      if p.fullJitter && 0 < p.max { TopShareTakes(p); }
    }
  }

  lemma TopShareTakes(p: B.Policy)
    requires 0 < p.max
    ensures B.FloorScaled(TopShare(p), p.max) == p.max - 1
  {
    assert TopShare(p) * (p.max as real) == (p.max - 1) as real;
  }

  /** The next failure strands the client or is waited out like the ones before. */
  lemma FailsOnce(s: State, p: B.Policy, n: nat, last: nat)
    requires s.link.status == L.Idle || s.link.status == L.Disconnected
    requires s.link.attempt.None? && s.link.timers.retry.None? && s.link.pace.drawn.None?
    requires s.link.enabled && s.link.shouldReconnect && !s.link.authFailed
    requires s.link.pace.policy == p && s.link.pace.tries == n && s.link.pace.faults == 0
    ensures var s' := AttemptConnect(s, Now(CredentialError), LateDraw(p, last));
      if B.Publishable(B.Delay(p, n, TopShare(p)), last) then Waiting(s', p, n + 1) else Stranded(s')
  {
    hide R.Lose, V.SettleProbe, B.Delay, B.Publishable, Timers.ClearDeadline;
  }

  lemma FirstFails(p: B.Policy, floor: Option<L.Mode>, last: nat)
    ensures var s' := Step(Initial(p, true, floor), EnsureConnected(Now(CredentialError), LateDraw(p, last)));
      if B.Publishable(B.Delay(p, 0, TopShare(p)), last) then Waiting(s', p, 1) else Stranded(s')
  {
    hide AttemptConnect, B.Delay, B.Publishable;
    var s := Initial(p, true, floor);
    FailsOnce(s.(link := s.link.(pending := true)), p, 0, last);
  }

  lemma RetryFails(s: State, p: B.Policy, n: nat, last: nat)
    requires Waiting(s, p, n)
    ensures var e := RetryFires(s.link.timers.retry.value, Now(CredentialError), LateDraw(p, last));
      && Enabled(s, e)
      && if B.Publishable(B.Delay(p, n, TopShare(p)), last) then Waiting(Step(s, e), p, n + 1) else Stranded(Step(s, e))
  {
    hide AttemptConnect, B.Delay, B.Publishable;
    FailsOnce(TimerFired(s, s.link.timers.retry.value), p, n, last);
  }

  /** A run with one more event. */
  lemma RunExtends(tr: seq<State>, es: seq<Event>, e: Event)
    requires Run(tr, es) && Enabled(tr[|es|], e)
    ensures Run(tr + [Step(tr[|es|], e)], es + [e])
  {
    hide Step, Enabled, Initial;
    var tr', es' := tr + [Step(tr[|es|], e)], es + [e];
    forall i | 0 <= i < |es'| ensures StepAt(tr', es', i) {
      if i < |es| { assert StepAt(tr, es, i); }
    }
    assert tr'[0] == tr[0];
  }

  /** Failures in a row, as late as allowed: the client is stranded at try `n` at the latest, or waits for the next. */
  lemma {:induction false} FailsInARow(p: B.Policy, floor: Option<L.Mode>, last: nat, n: nat)
    returns (tr: seq<State>, es: seq<Event>)
    ensures Run(tr, es) && tr[0] == Initial(p, true, floor) && InTime(es, last)
    ensures es != [] && Wanted(tr, es, 0, |es|)
    ensures
      || Stranded(tr[|es|])
      || (Waiting(tr[|es|], p, n + 1) && B.Publishable(B.Delay(p, n, TopShare(p)), last))
  {
    hide Step, Enabled, B.Delay, B.Publishable, L.Drivers, TopShare;
    if n == 0 {
      FirstFails(p, floor, last);
      tr, es := FirstRun(p, floor, LateDraw(p, last));
    } else {
      tr, es := FailsInARow(p, floor, last, n - 1);
      if !Stranded(tr[|es|]) {
        var s := tr[|es|];
        RetryFails(s, p, n, last);
        var e := RetryFires(s.link.timers.retry.value, Now(CredentialError), LateDraw(p, last));
        RunExtends(tr, es, e);
        tr, es := tr + [Step(s, e)], es + [e];
      }
    }
  }

  lemma FirstRun(p: B.Policy, floor: Option<L.Mode>, draw: L.Draw) returns (tr: seq<State>, es: seq<Event>)
    ensures Run(tr, es) && tr[0] == Initial(p, true, floor) && es == [EnsureConnected(Now(CredentialError), draw)]
    ensures tr[1] == Step(Initial(p, true, floor), es[0])
  {
    hide Step;
    es := [EnsureConnected(Now(CredentialError), draw)];
    tr := [Initial(p, true, floor), Step(Initial(p, true, floor), es[0])];
    assert StepAt(tr, es, 0);
    assert tr[0] == Initial(p, true, floor);
  }

  /** The client is driven whenever it is wanted, however its events interleave up to the last date allowed. */
  ghost predicate AlwaysDriven(p: B.Policy, floor: Option<L.Mode>, last: nat) {
    forall tr: seq<State>, es: seq<Event>, k: nat, i: nat | Run(tr, es) && k < i <= |es| && Wanted(tr, es, k, i) ::
      tr[0] == Initial(p, true, floor) && InTime(es, last) ==> L.Drivers(tr[i].link) == 1
  }

  /**
   * Exactly the sane policies keep a wanted client driven. With any other, one whose base is zero
   * or whose longest delay ends after the last date, enough failures in a row leave it enabled,
   * asked to connect, and with nothing to drive it until it is asked again.
   */
  lemma DrivenExactly(p: B.Policy, floor: Option<L.Mode>, last: nat)
    ensures AlwaysDriven(p, floor, last) <==> Sane(p, last)
  {
    hide Initial, L.Drivers, Sane;
    if Sane(p, last) {
      forall tr: seq<State>, es: seq<Event>, k: nat, i: nat | Run(tr, es) && k < i <= |es| && Wanted(tr, es, k, i)
        && tr[0] == Initial(p, true, floor) && InTime(es, last)
        ensures L.Drivers(tr[i].link) == 1
      {
        PolicyOf(p, floor);
        SaneStaysDriven(tr, es, k, i, last);
      }
    } else {
      var tr, es := UnsaneStrands(p, floor, last);
    }
  }

  lemma PolicyOf(p: B.Policy, floor: Option<L.Mode>)
    ensures Initial(p, true, floor).link.pace.policy == p
  {
  }

  /** A run on which a policy that is not sane strands a client that is wanted. */
  lemma UnsaneStrands(p: B.Policy, floor: Option<L.Mode>, last: nat) returns (tr: seq<State>, es: seq<Event>)
    requires !Sane(p, last)
    ensures Run(tr, es) && tr[0] == Initial(p, true, floor) && InTime(es, last)
    ensures es != [] && Wanted(tr, es, 0, |es|) && Stranded(tr[|es|])
  {
    hide Sane;
    var n := if p.max < B.OVERFLOW_TRY then B.OVERFLOW_TRY else p.max;
    tr, es := FailsInARow(p, floor, last, n);
    DoomedDelay(p, n, last);
  }
}
