/** Heartbeats: which events count, and when the connection is given up for want of an answer. */
module SessionLiveness {
  import opened Prelude
  import opened Session
  import opened SessionSafety
  import opened SessionRuns
  import Timers
  import L = Link
  import R = Requests
  import V = Liveness

  /** A ping of the heartbeat goes unanswered in time, or cannot be sent. */
  predicate HeartbeatFails(s: State, e: Event) {
    || (e.PingTimesOut? && s.live.probe.Some? && s.live.probe.value.drivesFailure)
    || (e.HeartbeatFires? && !e.sent && s.link.status == L.Connected && s.link.transport.Some? && s.live.probe.None?)
  }

  /** A message that passes validation, a file frame or a terminal frame arrives. */
  predicate ShowsLife(e: Event) {
    && e.MessageArrives?
    && (match e.message
        case Garbage => false
        case Invalid(_) => false
        case HostFrame => false
        case BadHostFrame => false
        case _ => true)
  }

  /** A failure is written down, and the second in a row as a teardown too. */
  function FailureWritten(l: V.Live): seq<V.Sign> {
    if l.failures + 1 < V.FAILURE_THRESHOLD then [V.Failure] else [V.Failure, V.Teardown]
  }

  function FailureCounted(l: V.Live): nat {
    if l.failures + 1 < V.FAILURE_THRESHOLD then l.failures + 1 else 0
  }

  /** What the step adds to the history of failures, signs of life and teardowns. */
  function Written(s: State, e: Event): seq<V.Sign> {
    if HeartbeatFails(s, e) then FailureWritten(s.live)
    else if ShowsLife(e) then [V.Alive]
    else []
  }

  function Counted(s: State, e: Event): nat {
    if HeartbeatFails(s, e) then FailureCounted(s.live)
    else if ShowsLife(e) then 0
    else s.live.failures
  }

  /** The liveness teardown of the step at `k`. */
  predicate TearsDown(tr: seq<State>, k: nat)
    requires k + 1 < |tr|
  {
    && |tr[k].live.log| < |tr[k + 1].live.log|
    && tr[k + 1].live.log[|tr[k + 1].live.log| - 1] == V.Teardown
  }

  // ---------------------------------------------------------------------------
  // One step
  // ---------------------------------------------------------------------------

  ghost predicate Records(s: State, e: Event, s': State) {
    s'.live.log == s.live.log + Written(s, e) && s'.live.failures == Counted(s, e)
  }

  predicate SameHistory(l: V.Live, l': V.Live) {
    l'.log == l.log && l'.failures == l.failures
  }

  lemma TimersKeepHistory(l: V.Live, connected: bool, drives: bool)
    ensures SameHistory(l, V.StopBeat(l)) && SameHistory(l, V.DropProbe(l)) && SameHistory(l, V.OpenProbe(l, drives))
    ensures SameHistory(l, V.ScheduleBeat(l, connected)) && SameHistory(l, V.StartBeat(l))
    ensures SameHistory(l, V.SettleProbe(l, connected))
    ensures V.StopBeat(l).probe == l.probe
  {
  }

  lemma LossKeepsHistory(s: State, draw: L.Draw)
    ensures SameHistory(s.live, ScheduleReconnect(s, draw).live) && SameHistory(s.live, Teardown(s, draw).live)
    ensures SameHistory(s.live, FailAttempt(s, draw).live)
  {
    hide R.Lose, L.Lose, L.Dispose, L.SettleConnect, V.StopBeat, V.SettleProbe;
    TimersKeepHistory(s.live, L.Lose(s.link, draw).status == L.Connected, false);
    TimersKeepHistory(s.live, false, false);
    TimersKeepHistory(V.StopBeat(s.live), false, false);
    TimersKeepHistory(V.StopBeat(s.live), true, false);
    TimersKeepHistory(s.live, true, false);
  }

  lemma CountRecords(s: State, draw: L.Draw)
    ensures CountFailure(s, draw).live.log == s.live.log + FailureWritten(s.live)
    ensures CountFailure(s, draw).live.failures == FailureCounted(s.live)
  {
    hide Teardown;
    LossKeepsHistory(s.(live := V.Fail(s.live).0), draw);
  }

  lemma PingRecords(s: State, sent: bool, draw: L.Draw)
    ensures Records(s, HeartbeatFires(sent, draw), Beat(s, sent, draw))
    ensures s.live.probe.Some? ==> Records(s, PingTimesOut(draw), PingTimeout(s, draw))
  {
    hide CountFailure, V.ScheduleBeat, V.StopBeat, V.OpenProbe, V.DropProbe;
    var fired := s.(live := V.StopBeat(s.live));
    TimersKeepHistory(s.live, s.link.status == L.Connected, true);
    TimersKeepHistory(fired.live, s.link.status == L.Connected, true);
    var pinged := V.OpenProbe(fired.live, true);
    TimersKeepHistory(pinged, false, true);
    BeatRecords(fired.(live := V.DropProbe(pinged)), draw);
    BeatRecords(s.(live := V.DropProbe(s.live)), draw);
  }

  lemma BeatRecords(s: State, draw: L.Draw)
    ensures SameHistory(CountFailure(s, draw).live, NextBeat(CountFailure(s, draw)).live)
    ensures SameHistory(s.live, NextBeat(s).live)
    ensures CountFailure(s, draw).live.log == s.live.log + FailureWritten(s.live)
    ensures CountFailure(s, draw).live.failures == FailureCounted(s.live)
  {
    hide CountFailure, V.ScheduleBeat;
    CountRecords(s, draw);
    TimersKeepHistory(s.live, s.link.status == L.Connected, false);
    var counted := CountFailure(s, draw);
    TimersKeepHistory(counted.live, counted.link.status == L.Connected, false);
  }

  lemma EstablishRecords(s: State, restored: seq<R.Request>, rejected: set<R.CallId>, failing: set<R.CallId>)
    ensures SameHistory(s.live, EstablishSession(s, restored, rejected, failing).live)
  {
    hide R.Flush, R.Restore, V.StartBeat, L.Establish;
    TimersKeepHistory(s.live, true, false);
  }

  lemma MessageRecords(s: State, message: Inbound, draw: L.Draw)
    ensures Records(s, MessageArrives(message, draw), Deliver(s, message, draw))
  {
    hide Teardown, EstablishSession, V.SettleProbe, R.Resolve, R.RejectOwners;
    match message
    case BadHostFrame => LossKeepsHistory(s, draw);
    case ServerInfo(restored, rejected, failing) => EstablishRecords(Heard(s), restored, rejected, failing);
    case Pong => TimersKeepHistory(V.Heard(s.live), s.link.status == L.Connected, false);
    case _ =>
  }

  lemma AttemptRecords(s: State, auth: Auth, draw: L.Draw)
    ensures SameHistory(s.live, AttemptConnect(s, auth, draw).live)
  {
    hide Proceed, L.BeginAttempt;
    if auth.Now? { ProceedRecords(s.(link := L.BeginAttempt(s.link)), s.link.tokens, auth.build, draw); }
  }

  lemma ProceedRecords(s: State, token: nat, build: Build, draw: L.Draw)
    ensures SameHistory(s.live, Proceed(s, token, build, draw).live)
  {
    hide FailAttempt, L.Dispose, L.Install, L.EndAttempt, V.StopBeat;
    TimersKeepHistory(s.live, false, false);
    var disposed := DisposeTransport(s);
    LossKeepsHistory(s, draw);
    LossKeepsHistory(disposed, draw);
    LossKeepsHistory(disposed.(link := L.SetReconnectEnabled(disposed.link, false)), draw);
  }

  lemma AskRecords(s: State, auth: Auth, draw: L.Draw)
    ensures SameHistory(s.live, ConnectStep(s, auth, draw).live) && SameHistory(s.live, EnsureStep(s, auth, draw).live)
  {
    hide AttemptConnect;
    AttemptRecords(s.(link := s.link.(shouldReconnect := true)), auth, draw);
    AttemptRecords(s.(link := s.link.(shouldReconnect := true, pending := true)), auth, draw);
  }

  lemma TimerRecords(s: State, id: nat, auth: Auth, draw: L.Draw)
    requires id in s.link.timers.armed
    ensures var fired := TimerFired(s, id);
      && SameHistory(s.live, fired.live)
      && SameHistory(s.live, AttemptConnect(fired, auth, draw).live)
      && SameHistory(s.live, ScheduleReconnect(fired, draw).live)
      && SameHistory(s.live, Teardown(fired, draw).live)
  {
    hide AttemptConnect, ScheduleReconnect, Teardown;
    AttemptRecords(TimerFired(s, id), auth, draw);
    LossKeepsHistory(TimerFired(s, id), draw);
  }

  lemma TransportRecords(s: State, e: Event)
    requires Enabled(s, e) && (e.TransportOpens? || e.TransportCloses? || e.TransportFails? || e.SessionDropped?)
    ensures SameHistory(s.live, Step(s, e).live)
  {
    hide ScheduleReconnect, Teardown, L.Unwatch, L.GenericError, L.SetReconnectEnabled;
    match e
    case TransportOpens(_, draw) =>
      LossKeepsHistory(s.(link := s.link.(timers := Timers.ClearErrorDelay(s.link.timers))), draw);
    case TransportCloses(reason, draw) =>
      var judged := L.Unwatch(s.link.(authFailed := s.link.authFailed || reason == AuthRejected));
      LossKeepsHistory(s.(link := judged), draw);
      LossKeepsHistory(s.(link := L.SetReconnectEnabled(judged, false)), draw);
    case TransportFails(_, draw) => LossKeepsHistory(s.(link := L.Unwatch(s.link.(errored := true))), draw);
    case SessionDropped(draw) => LossKeepsHistory(s, draw);
  }

  lemma QuietRecords(s: State, e: Event)
    requires Enabled(s, e)
    requires e.ModeReported? || e.SetReconnect? || e.SendRequest? || e.AbortRequest? || e.WaiterTimesOut?
      || e.QueueTimesOut? || e.MeasureLatency? || e.SlotOpened? || e.CloseBegins? || e.CloseEnds?
    ensures SameHistory(s.live, Step(s, e).live)
  {
    hide R.SendNow, R.SendUnavailable, R.Hold, R.Abort, R.QueueTimeout, R.WaiterTimeout, R.CloseQueue, R.CloseWaiters,
         L.Close, L.SetReconnectEnabled, V.StopBeat, V.DropProbe, V.OpenProbe;
    TimersKeepHistory(s.live, false, false);
    TimersKeepHistory(V.OpenProbe(s.live, false), false, false);
  }

  /** Everything but a message or a heartbeat ping leaves the history alone. */
  lemma OtherRecords(s: State, e: Event)
    requires Enabled(s, e) && !e.MessageArrives? && !e.HeartbeatFires? && !e.PingTimesOut?
    ensures SameHistory(s.live, Step(s, e).live)
  {
    hide SameHistory, ConnectStep, EnsureStep, AttemptConnect, Proceed, CloseTransport, Teardown, ScheduleReconnect,
         Measure, Send, Close, FinishClose;
    match e
    case Connect(auth, draw) => AskRecords(s, auth, draw);
    case EnsureConnected(auth, draw) => AskRecords(s, auth, draw);
    case CredentialsSettle(token, build, draw) => ArrivalRecords(s, token, build, draw);
    case RetryFires(id, auth, draw) => TimerRecords(s, id, auth, draw);
    case DeadlineFires(id, draw) => TimerRecords(s, id, Auth.Later, draw);
    case ErrorDelayFires(id, draw) => TimerRecords(s, id, Auth.Later, draw);
    case TransportOpens(_, _) => TransportRecords(s, e);
    case TransportCloses(_, _) => TransportRecords(s, e);
    case TransportFails(_, _) => TransportRecords(s, e);
    case SessionDropped(_) => TransportRecords(s, e);
    case _ => QuietRecords(s, e);
  }

  lemma ArrivalRecords(s: State, token: nat, build: Build, draw: L.Draw)
    requires token in s.link.outstanding
    ensures SameHistory(s.live, Step(s, CredentialsSettle(token, build, draw)).live)
  {
    hide Proceed;
    ProceedRecords(s.(link := s.link.(outstanding := s.link.outstanding - {token})), token, build, draw);
  }

  lemma StepRecords(s: State, e: Event)
    requires Enabled(s, e)
    ensures Records(s, e, Step(s, e))
  {
    hide Records, Deliver, Beat, PingTimeout;
    if e.MessageArrives? {
      MessageRecords(s, e.message, e.draw);
    } else if e.HeartbeatFires? {
      PingRecords(s, e.sent, e.draw);
    } else if e.PingTimesOut? {
      PingRecords(s, true, e.draw);
    } else {
      OtherRecords(s, e);
      NothingWritten(s, e);
    }
  }

  lemma NothingWritten(s: State, e: Event)
    requires Enabled(s, e) && !e.MessageArrives? && !e.HeartbeatFires? && !e.PingTimesOut?
    requires SameHistory(s.live, Step(s, e).live)
    ensures Records(s, e, Step(s, e))
  {
    hide Step, Enabled;
    assert s.live.log + [] == s.live.log;
  }

  // ---------------------------------------------------------------------------
  // Every run
  // ---------------------------------------------------------------------------

  /**
   * What each step writes into the history: a failure for a heartbeat ping that times out or cannot
   * be sent, and a teardown with the second in a row; a sign of life for a validated message, a file
   * frame or a terminal frame; nothing for anything else.
   */
  lemma HistoryExact(tr: seq<State>, es: seq<Event>, k: nat)
    requires Run(tr, es) && k < |es|
    ensures tr[k + 1].live.log == tr[k].live.log + Written(tr[k], es[k])
    ensures tr[k + 1].live.failures == Counted(tr[k], es[k])
  {
    hide Step, Enabled, Written, Counted;
    assert StepAt(tr, es, k);
    StepRecords(tr[k], es[k]);
  }

  /** Between the events at `j` and `k` no heartbeat fails and nothing shows that the daemon lives. */
  ghost predicate Silent(tr: seq<State>, es: seq<Event>, j: nat, k: nat)
    requires |tr| == |es| + 1 && k <= |es|
  {
    forall m :: j < m < k ==> !ShowsLife(es[m]) && !HeartbeatFails(tr[m], es[m])
  }

  /** The failure that is counted: the last one, with silence since. */
  lemma {:induction false} CountedSince(tr: seq<State>, es: seq<Event>, k: nat) returns (j: nat)
    requires Run(tr, es) && k <= |es| && tr[k].live.failures == 1
    ensures j < k && HeartbeatFails(tr[j], es[j]) && tr[j].live.failures == 0 && Silent(tr, es, j, k)
  {
    hide HeartbeatFails, ShowsLife;
    HistoryExact(tr, es, k - 1);
    if HeartbeatFails(tr[k - 1], es[k - 1]) {
      j := k - 1;
    } else {
      j := CountedSince(tr, es, k - 1);
    }
  }

  lemma {:induction false} StillCounted(tr: seq<State>, es: seq<Event>, j: nat, k: nat)
    requires Run(tr, es) && j < k <= |es|
    requires HeartbeatFails(tr[j], es[j]) && tr[j].live.failures == 0 && Silent(tr, es, j, k)
    ensures tr[k].live.failures == 1
    decreases k
  {
    hide HeartbeatFails, ShowsLife;
    HistoryExact(tr, es, k - 1);
    if j < k - 1 { StillCounted(tr, es, j, k - 1); }
  }

  /**
   * A liveness teardown needs two failed heartbeats with no message, file frame or terminal frame
   * between them, and it really gives the connection up with all that belonged to it.
   */
  lemma TeardownJustified(tr: seq<State>, es: seq<Event>, k: nat) returns (j: nat)
    requires Run(tr, es) && k < |es| && TearsDown(tr, k)
    ensures j < k && HeartbeatFails(tr[j], es[j]) && HeartbeatFails(tr[k], es[k]) && Silent(tr, es, j, k)
    ensures GivenUp(tr[k + 1])
  {
    hide HeartbeatFails, GivenUp, Step, Enabled;
    HistoryExact(tr, es, k);
    FailuresBounded(tr, es, k);
    j := CountedSince(tr, es, k);
    assert StepAt(tr, es, k);
    SecondFailureDrops(tr[k], es[k]);
  }

  /** And a second failure in such silence always does tear the connection down. */
  lemma SecondFailureTears(tr: seq<State>, es: seq<Event>, j: nat, k: nat)
    requires Run(tr, es) && j < k < |es| && Silent(tr, es, j, k)
    requires HeartbeatFails(tr[j], es[j]) && !TearsDown(tr, j) && HeartbeatFails(tr[k], es[k])
    ensures TearsDown(tr, k)
  {
    hide HeartbeatFails;
    HistoryExact(tr, es, j);
    FailuresBounded(tr, es, j);
    StillCounted(tr, es, j, k);
    HistoryExact(tr, es, k);
  }

  lemma FailuresBounded(tr: seq<State>, es: seq<Event>, k: nat)
    requires Run(tr, es) && k <= |es|
    ensures tr[k].live.failures <= 1
  {
    RunInv(tr, es, k);
  }

  lemma SecondFailureDrops(s: State, e: Event)
    requires Enabled(s, e) && HeartbeatFails(s, e) && s.live.failures == 1
    ensures GivenUp(Step(s, e))
  {
    hide CountFailure, GivenUp, V.ScheduleBeat, V.StopBeat, V.OpenProbe, V.DropProbe;
    TimersKeepHistory(s.live, false, true);
    if e.PingTimesOut? {
      FailureDrops(s.(live := V.DropProbe(s.live)), e.draw);
    } else {
      var fired := s.(live := V.StopBeat(s.live));
      TimersKeepHistory(fired.live, false, true);
      TimersKeepHistory(V.OpenProbe(fired.live, true), false, true);
      FailureDrops(fired.(live := V.DropProbe(V.OpenProbe(fired.live, true))), e.draw);
    }
  }

  /** The connection is gone, with everything that belonged to it. */
  predicate GivenUp(s: State) {
    s.link.transport.None? && Emptied(s) && (s.link.pace.faults == 0 ==> s.link.status != L.Connected)
  }

  lemma FailureDrops(s: State, draw: L.Draw)
    requires s.live.failures == 1
    ensures GivenUp(CountFailure(s, draw)) && GivenUp(NextBeat(CountFailure(s, draw)))
  {
    hide L.Lose, R.Lose, Timers.ClearDeadline, Timers.ClearErrorDelay;
    L.LoseShape(L.Dispose(s.link), draw);
    LossEmpties(s.reqs);
  }

  lemma LossEmpties(r: R.Reqs)
    ensures R.Lose(r).waiters == {} && R.Lose(r).queue == []
  {
  }

  /** A connected client, unless a loss has broken off, has a next heartbeat coming; one ping at most is in flight. */
  lemma HeartbeatNeverStops(tr: seq<State>, es: seq<Event>, i: nat)
    requires Run(tr, es) && i <= |es|
    ensures tr[i].live.failures < V.FAILURE_THRESHOLD
    ensures tr[i].link.status == L.Connected && tr[i].link.pace.faults == 0 ==>
      tr[i].live.heartbeat.Some? || (tr[i].live.attached && tr[i].live.probe.Some?)
    ensures forall id :: id in tr[i].live.timers && tr[i].live.timers[id] == V.Ping ==>
      tr[i].live.probe.Some? && tr[i].live.probe.value.timer == id
  {
    RunInv(tr, es, i);
  }

  predicate Ticks(l: V.Live, id: nat) {
    id in l.timers && l.timers[id] == V.Beat
  }

  ghost predicate SameTicks(l: V.Live, l': V.Live) {
    l'.heartbeat == l.heartbeat && forall id :: Ticks(l', id) <==> Ticks(l, id)
  }

  lemma LatencyTicks(l: V.Live, connected: bool)
    requires V.Inv(l)
    ensures var l' := V.SettleProbe(l, connected);
      && l'.probe.None? && !l'.attached
      && if l.attached && connected then l'.heartbeat.Some? && Ticks(l', l'.heartbeat.value) else SameTicks(l, l')
    ensures l.probe.None? ==>
      var pinged := V.OpenProbe(l, false);
      && SameTicks(l, pinged) && SameTicks(l, V.DropProbe(pinged))
      && pinged.attached == V.DropProbe(pinged).attached == l.attached
  {
  }

  /**
   * A latency measurement counts no failure and touches nothing outside liveness. Beginning one,
   * sent or not, leaves the heartbeat and its timer alone; so does one that times out, except that a
   * heartbeat which waited for that ping is scheduled again if the client is connected.
   */
  lemma LatencyNeverCounts(tr: seq<State>, es: seq<Event>, i: nat)
    requires Run(tr, es) && i < |es|
    requires
      || es[i].MeasureLatency?
      || (es[i].PingTimesOut? && tr[i].live.probe.Some? && !tr[i].live.probe.value.drivesFailure)
    ensures tr[i + 1] == tr[i].(live := tr[i + 1].live)
    ensures tr[i + 1].live.log == tr[i].live.log && tr[i + 1].live.failures == tr[i].live.failures
    ensures es[i].MeasureLatency? ==>
      SameTicks(tr[i].live, tr[i + 1].live) && tr[i + 1].live.attached == tr[i].live.attached
    ensures es[i].PingTimesOut? ==>
      var l, l' := tr[i].live, tr[i + 1].live;
      && l'.probe.None? && !l'.attached
      && if l.attached && tr[i].link.status == L.Connected then l'.heartbeat.Some? && Ticks(l', l'.heartbeat.value)
         else SameTicks(l, l')
  {
    hide Inv, V.OpenProbe, V.DropProbe, V.ScheduleBeat, SameTicks, Ticks, CountFailure;
    HistoryExact(tr, es, i);
    assert StepAt(tr, es, i);
    RunInv(tr, es, i);
    LiveInv(tr[i]);
    LatencyTicks(tr[i].live, tr[i].link.status == L.Connected);
    SameTicksSelf(tr[i].live);
  }

  lemma SameTicksSelf(l: V.Live)
    ensures SameTicks(l, l)
  {
  }

  lemma LiveInv(s: State)
    requires Inv(s)
    ensures V.Inv(s.live)
  {
  }
}
