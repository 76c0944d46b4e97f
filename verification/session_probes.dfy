/** What each event does to the ping in flight, to the heartbeat, and to the terminal slots. */
module SessionProbes {
  import opened Prelude
  import opened Session
  import opened SessionSafety
  import opened SessionRuns
  import opened SessionLiveness
  import opened SessionEffects
  import Timers
  import L = Link
  import R = Requests
  import V = Liveness

  /** A client that believes in its session and holds a transport can be asked for a ping. */
  predicate Pingable(s: State) {
    s.link.status == L.Connected && s.link.transport.Some?
  }

  /** A ping goes out: the heartbeat's, or a measurement's, while none is in flight. */
  predicate PingGoes(s: State, e: Event) {
    Pingable(s) && s.live.probe.None? && ((e.HeartbeatFires? && e.sent) || (e.MeasureLatency? && e.sent))
  }

  predicate IsPong(e: Event) {
    e.MessageArrives? && e.message.Pong?
  }

  /** The ping in flight is over: answered, timed out, or gone with its session. */
  predicate PingOver(s: State, e: Event) {
    IsPong(e) || e.PingTimesOut? || GivesUp(s, e) || e.CloseEnds?
  }

  /** The heartbeat waits for a ping: one that is in flight, or the one it has just sent. */
  predicate Attaches(s: State, e: Event) {
    e.HeartbeatFires? && Pingable(s) && (s.live.probe.Some? || e.sent)
  }

  /** The transport is disposed of, and the heartbeat with it. */
  predicate Disposes(s: State, e: Event) {
    Drops(s, e) || Closes(s, e) || (Verdict(s, e).Some? && Verdict(s, e).value != CredentialError)
  }

  /** The next heartbeat is scheduled. */
  predicate Schedules(s: State, e: Event) {
    || Establishes(s, e)
    || ((IsPong(e) || e.PingTimesOut?) && s.live.attached && s.link.status == L.Connected)
    || (e.HeartbeatFires? && s.link.status == L.Connected && !Attaches(s, e))
  }

  predicate BeatAfter(s: State, e: Event) {
    !Disposes(s, e) && (Schedules(s, e) || (s.live.heartbeat.Some? && !e.HeartbeatFires?))
  }

  predicate AttachedAfter(s: State, e: Event) {
    !PingOver(s, e) && (s.live.attached || Attaches(s, e))
  }

  ghost predicate ProbeMoves(s: State, e: Event, l: V.Live) {
    if PingGoes(s, e) then
      && l.probe.Some? && l.probe.value.drivesFailure == e.HeartbeatFires?
      && l.probe.value.timer in l.timers && l.timers[l.probe.value.timer] == V.Ping
    else l.probe == if PingOver(s, e) then None else s.live.probe
  }

  function SlotsAfter(s: State, e: Event): set<nat> {
    if GivesUp(s, e) || e.CloseEnds? then {}
    else s.slots + if e.SlotOpened? then {e.slot} else {}
  }

  predicate ClosingAfter(s: State, e: Event) {
    !e.CloseEnds? && (s.closing || Closes(s, e))
  }

  ghost predicate Pulses(s: State, e: Event, s': State) {
    && ProbeMoves(s, e, s'.live) && s'.live.attached == AttachedAfter(s, e)
    && (s'.link.pace.faults == s.link.pace.faults ==> s'.live.heartbeat.Some? == BeatAfter(s, e))
    && s'.slots == SlotsAfter(s, e) && s'.closing == ClosingAfter(s, e)
  }

  // ---------------------------------------------------------------------------
  // Losses
  // ---------------------------------------------------------------------------

  /** A loss ends the ping and empties the slots; without a fault it leaves the heartbeat's timer. */
  ghost predicate LostBy(s: State, s': State) {
    && s'.live.probe.None? && !s'.live.attached && s'.slots == {} && s'.closing == s.closing
    && (s'.link.pace.faults == s.link.pace.faults ==> s'.live.heartbeat == s.live.heartbeat)
  }

  lemma LossLive(s: State, draw: L.Draw)
    requires V.Inv(s.live)
    ensures LostBy(s, ScheduleReconnect(s, draw)) && LostBy(s, FailAttempt(s, draw))
  {
    hide L.Lose, R.Lose, Timers.ClearDeadline;
    L.LoseShape(s.link, draw);
    L.LoseShape(s.link.(timers := Timers.ClearDeadline(s.link.timers)), draw);
  }

  lemma StoppedLive(s: State)
    requires V.Inv(s.live)
    ensures var s' := DisposeTransport(s);
      && V.Inv(s'.live) && s'.live.heartbeat.None?
      && s'.live.probe == s.live.probe && s'.live.attached == s.live.attached
      && s'.slots == s.slots && s'.closing == s.closing && s'.link.pace == s.link.pace
  {
    hide Timers.ClearDeadline, Timers.ClearErrorDelay;
    V.TimerStepsKeep(s.live, false);
  }

  lemma TeardownLive(s: State, draw: L.Draw)
    requires V.Inv(s.live)
    ensures LostBy(DisposeTransport(s), Teardown(s, draw))
    ensures DisposeTransport(s).live.heartbeat.None? && DisposeTransport(s).link.pace == s.link.pace
    ensures DisposeTransport(s).closing == s.closing
  {
    hide DisposeTransport, ScheduleReconnect, V.Inv, LostBy;
    StoppedLive(s);
    LossLive(DisposeTransport(s), draw);
  }

  lemma ProceedLive(s: State, token: nat, build: Build, draw: L.Draw)
    requires V.Inv(s.live) && s.link.attempt == Some(token)
    ensures var s', disposed := Proceed(s, token, build, draw), DisposeTransport(s);
      && disposed.live.heartbeat.None? && disposed.link.pace == s.link.pace && disposed.closing == s.closing
      && (build == CredentialError ==> LostBy(s, s'))
      && (build == RelayRefused || build == FactoryError ==>
            && s'.live.probe.None? && !s'.live.attached && s'.slots == {} && s'.closing == s.closing
            && (s'.link.pace.faults == s.link.pace.faults ==> s'.live.heartbeat.None?))
      && (build == Built ==>
            && s'.live.heartbeat.None? && s'.live.probe == s.live.probe && s'.live.attached == s.live.attached
            && s'.slots == s.slots && s'.closing == s.closing)
  {
    hide FailAttempt, DisposeTransport, L.Install, L.SetReconnectEnabled, V.Inv;
    StoppedLive(s);
    DisposedShape(s);
    var disposed := DisposeTransport(s);
    LossLive(s, draw);
    LossLive(disposed, draw);
    LossLive(disposed.(link := L.SetReconnectEnabled(disposed.link, false)), draw);
  }

  // ---------------------------------------------------------------------------
  // One event
  // ---------------------------------------------------------------------------

  lemma SessionHolds(s: State)
    requires Inv(s)
    ensures V.Inv(s.live) && (s.live.attached ==> s.live.probe.Some?)
    ensures s.live.probe.Some? || s.slots != {} ==> s.link.status == L.Connected || s.closing
    ensures s.closing ==> s.link.status == L.Disposed
    ensures s.live.failures <= 1
  {
    hide R.Inv, L.Inv;
  }

  lemma DropPulses(s: State, e: Event, s1: State, draw: L.Draw)
    requires V.Inv(s.live) && Drops(s, e) && !e.HeartbeatFires? && !e.PingTimesOut?
    requires s1.live == s.live && s1.closing == s.closing && s1.link.pace == s.link.pace
    ensures Pulses(s, e, Teardown(s1, draw))
  {
    hide Teardown, V.Inv;
    TeardownLive(s1, draw);
  }

  lemma BreakPulses(s: State, e: Event, s1: State, draw: L.Draw)
    requires V.Inv(s.live) && Breaks(s, e)
    requires s1.live == s.live && s1.closing == s.closing && s1.link.pace == s.link.pace
    ensures Pulses(s, e, ScheduleReconnect(s1, draw))
  {
    hide ScheduleReconnect, V.Inv;
    LossLive(s1, draw);
  }

  lemma VerdictPulses(s: State, e: Event, s1: State, token: nat, draw: L.Draw)
    requires Inv(s) && Verdict(s, e).Some? && s1.link.attempt == Some(token)
    requires s1.live == s.live && s1.closing == s.closing && s1.slots == s.slots && s1.link.pace == s.link.pace
    ensures Pulses(s, e, Proceed(s1, token, Verdict(s, e).value, draw))
  {
    hide Inv, Proceed, DisposeTransport, V.Inv, Verdict, Begins;
    SessionHolds(s);
    AttemptIsNothingElse(s, e);
    ProceedLive(s1, token, Verdict(s, e).value, draw);
  }

  /** A failure of the heartbeat: the second in a row gives the session up, and then no beat is scheduled. */
  lemma CountPulses(s: State, draw: L.Draw)
    requires V.Inv(s.live) && s.live.probe.None?
    ensures var s' := CountFailure(s, draw);
      && s'.live.probe.None? && !s'.live.attached && s'.closing == s.closing
      && (s.live.failures == 1 ==>
            && s'.slots == {}
            && (s'.link.pace.faults == s.link.pace.faults ==>
                  s'.live.heartbeat.None? && s'.link.status != L.Connected))
      && (s.live.failures != 1 ==>
            s'.link == s.link && s'.live.heartbeat == s.live.heartbeat && s'.slots == s.slots)
  {
    hide Teardown, L.Lose, R.Lose;
    V.FailKeeps(s.live);
    var counted := s.(live := V.Fail(s.live).0);
    TeardownLive(counted, draw);
    TeardownEnds(counted, draw);
  }

  lemma TeardownEnds(s: State, draw: L.Draw)
    ensures var s' := Teardown(s, draw);
      s'.link.pace.faults == s.link.pace.faults ==> s'.link.status != L.Connected
  {
    hide L.Lose, R.Lose, V.StopBeat, V.SettleProbe, Timers.ClearDeadline, Timers.ClearErrorDelay;
    L.LoseShape(L.Dispose(s.link), draw);
  }

  lemma NextPulses(s: State)
    ensures var s' := NextBeat(s);
      && s'.live.probe == s.live.probe && s'.live.attached == s.live.attached && s'.link == s.link
      && s'.slots == s.slots && s'.closing == s.closing
      && s'.live.heartbeat.Some? == (s.live.heartbeat.Some? || s.link.status == L.Connected)
  {
  }

  /** A ping of the heartbeat that could not be sent. */
  lemma UnsentPulses(s: State, draw: L.Draw)
    requires Inv(s) && Pingable(s) && s.live.probe.None?
    ensures Pulses(s, HeartbeatFires(false, draw), Beat(s, false, draw))
  {
    hide Inv, CountFailure, NextBeat, V.Inv, V.Justified, V.TimersOwned;
    SessionHolds(s);
    var failed := s.(live := V.DropProbe(V.OpenProbe(V.StopBeat(s.live), true)));
    StoppedPulses(s.live);
    CountPulses(failed, draw);
    NextPulses(CountFailure(failed, draw));
  }

  lemma StoppedPulses(l: V.Live)
    requires V.Inv(l) && l.probe.None?
    ensures var failed := V.DropProbe(V.OpenProbe(V.StopBeat(l), true));
      && V.Inv(failed) && failed.probe.None? && failed.heartbeat.None? && failed.failures == l.failures
  {
    V.TimerStepsKeep(l, false);
    V.OpenProbeKeeps(V.StopBeat(l), true);
    V.TimerStepsKeep(V.OpenProbe(V.StopBeat(l), true), false);
  }

  lemma BeatPulses(s: State, e: Event)
    requires Inv(s) && e.HeartbeatFires? && Enabled(s, e)
    ensures Pulses(s, e, Beat(s, e.sent, e.draw))
  {
    hide Inv, CountFailure, V.Inv;
    SessionHolds(s);
    if Pingable(s) && s.live.probe.None? && !e.sent {
      UnsentPulses(s, e.draw);
    } else {
      NextPulses(s.(live := V.StopBeat(s.live)));
    }
  }

  lemma TimeoutPulses(s: State, e: Event)
    requires Inv(s) && e.PingTimesOut? && Enabled(s, e)
    ensures Pulses(s, e, PingTimeout(s, e.draw))
  {
    hide Inv, CountFailure, NextBeat, V.Inv, V.Justified, V.TimersOwned;
    SessionHolds(s);
    var dropped := s.(live := V.DropProbe(s.live));
    V.TimerStepsKeep(s.live, false);
    CountPulses(dropped, e.draw);
    NextPulses(CountFailure(dropped, e.draw));
    NextPulses(dropped);
  }

  lemma MeasurePulses(s: State, e: Event)
    requires Inv(s) && e.MeasureLatency?
    ensures Pulses(s, e, Measure(s, e.sent))
  {
    hide Inv, V.Inv;
    SessionHolds(s);
  }

  lemma MessagePulses(s: State, e: Event)
    requires Inv(s) && e.MessageArrives?
    ensures Pulses(s, e, Deliver(s, e.message, e.draw))
  {
    hide Inv, Teardown, R.Flush, R.Restore, R.Settle, L.Establish, V.Inv;
    SessionHolds(s);
    if e.message.BadHostFrame? { DropPulses(s, e, s, e.draw); }
  }

  /** Events that end in a loss, or in nothing that matters here. */
  lemma LossPulses(s: State, e: Event)
    requires Inv(s) && Enabled(s, e)
    requires e.DeadlineFires? || e.ErrorDelayFires? || e.TransportOpens? || e.TransportCloses? || e.TransportFails?
      || e.SessionDropped?
    ensures Pulses(s, e, Step(s, e))
  {
    hide Inv, Pulses, ScheduleReconnect, Teardown, L.Unwatch, L.GenericError, L.SetReconnectEnabled, V.Inv,
         Timers.ClearErrorDelay, Timers.Fired;
    SessionHolds(s);
    if !Loses(s, e) {
      StillPulses(s, e, Step(s, e));
    } else {
      match e
      case DeadlineFires(id, draw) => DropPulses(s, e, TimerFired(s, id), draw);
      case ErrorDelayFires(id, draw) => BreakPulses(s, e, TimerFired(s, id), draw);
      case TransportOpens(_, draw) =>
        BreakPulses(s, e, s.(link := s.link.(timers := Timers.ClearErrorDelay(s.link.timers))), draw);
      case TransportCloses(reason, draw) => ClosePulses(s, reason, draw);
      case TransportFails(_, draw) =>
        SamePace(s.link.(errored := true));
        BreakPulses(s, e, s.(link := L.Unwatch(s.link.(errored := true))), draw);
      case SessionDropped(draw) => DropPulses(s, e, s, draw);
    }
  }

  lemma SamePace(l: L.Link)
    ensures L.Unwatch(l).pace == l.pace && L.SetReconnectEnabled(L.Unwatch(l), false).pace == l.pace
  {
    hide Timers.ClearRetry, Timers.ClearDeadline, Timers.ClearErrorDelay;
  }

  lemma ClosePulses(s: State, reason: CloseReason, draw: L.Draw)
    requires V.Inv(s.live)
    ensures Pulses(s, TransportCloses(reason, draw), CloseTransport(s, reason, draw))
  {
    hide Pulses, ScheduleReconnect, L.Unwatch, L.SetReconnectEnabled, V.Inv;
    var judged := s.link.(authFailed := s.link.authFailed || reason == AuthRejected);
    SamePace(judged);
    BreakPulses(s, TransportCloses(reason, draw), s.(link := L.Unwatch(judged)), draw);
    BreakPulses(s, TransportCloses(reason, draw),
                s.(link := L.SetReconnectEnabled(L.Unwatch(judged), false)), draw);
  }

  /** Nothing of liveness, slots or closing is touched. */
  lemma StillPulses(s: State, e: Event, s': State)
    requires Inv(s) && s'.live == s.live && s'.slots == s.slots && s'.closing == s.closing && !GivesUp(s, e)
    requires Verdict(s, e).None? && !Closes(s, e) && !Establishes(s, e) && !e.SlotOpened? && !e.CloseEnds?
    requires !e.HeartbeatFires? && !e.PingTimesOut? && !e.MeasureLatency? && !IsPong(e)
    ensures Pulses(s, e, s')
  {
    hide Inv, V.Inv, Verdict, GivesUp, Closes, Establishes;
    SessionHolds(s);
    LossIsMissing(s, e);
  }

  lemma LossIsMissing(s: State, e: Event)
    requires !GivesUp(s, e)
    ensures !Drops(s, e)
  {
  }

  lemma AskPulses(s: State, e: Event)
    requires Inv(s) && Enabled(s, e)
    requires e.Connect? || e.EnsureConnected? || e.CredentialsSettle? || e.RetryFires?
    ensures Pulses(s, e, Step(s, e))
  {
    hide Inv, Pulses, Proceed, V.Inv, Timers.ClearRetry, Timers.Fired, Kept;
    HeldFrom(s);
    if e.RetryFires? { RetryHeld(s, e.id); }
    if Verdict(s, e).None? {
      AskStill(s, e);
    } else {
      ClaimedOpen(s, e);
      WantedAlready(s);
      AskVerdict(s, e);
    }
  }

  lemma AskStill(s: State, e: Event)
    requires Inv(s) && Enabled(s, e) && Verdict(s, e).None?
    requires e.Connect? || e.EnsureConnected? || e.CredentialsSettle? || e.RetryFires?
    requires e.RetryFires? ==> Begins(s, e)
    ensures Pulses(s, e, Step(s, e))
  {
    hide Inv, Pulses, FailAttempt, DisposeTransport, L.Install, V.Inv, Timers.ClearRetry, Timers.Fired;
    StillPulses(s, e, Step(s, e));
  }

  /** A step whose promise is put on record at the end is one with the same liveness. */
  lemma RecordedPulses(s: State, e: Event, s': State)
    requires Pulses(s, e, s')
    ensures Pulses(s, e, s'.(link := s'.link.(promise := true)))
  {
  }

  lemma AskVerdict(s: State, e: Event)
    requires Inv(s) && Enabled(s, e) && Verdict(s, e).Some?
    requires e.Connect? || e.EnsureConnected? || e.CredentialsSettle? || e.RetryFires?
    requires s.link.shouldReconnect && s.link.status != L.Disposed
    ensures Pulses(s, e, Step(s, e))
  {
    hide Inv, Pulses, Proceed, V.Inv, Timers.ClearRetry, Timers.Fired;
    if e.CredentialsSettle? {
      VerdictPulses(s, e, s.(link := s.link.(outstanding := s.link.outstanding - {e.token})), e.token, e.draw);
    } else if e.RetryFires? {
      var fired := TimerFired(s, e.id);
      VerdictPulses(s, e, fired.(link := L.BeginAttempt(fired.link)), s.link.tokens, e.draw);
    } else {
      RequestPulses(s, e);
    }
  }

  lemma RequestPulses(s: State, e: Event)
    requires Inv(s) && Enabled(s, e) && Verdict(s, e).Some? && (e.Connect? || e.EnsureConnected?)
    requires s.link.shouldReconnect && s.link.status != L.Disposed
    ensures Pulses(s, e, Step(s, e))
  {
    hide Inv, Pulses, Proceed, V.Inv, Timers.ClearRetry;
    var wanted := s.(link := s.link.(shouldReconnect := true));
    var asked := s.(link := s.link.(shouldReconnect := true, pending := true));
    VerdictPulses(s, e, wanted.(link := L.BeginAttempt(wanted.link)), s.link.tokens, e.draw);
    VerdictPulses(s, e, asked.(link := L.BeginAttempt(asked.link)), s.link.tokens, e.draw);
    RecordedPulses(s, e, Proceed(asked.(link := L.BeginAttempt(asked.link)), s.link.tokens, e.auth.build, e.draw));
  }

  lemma QuietPulses(s: State, e: Event)
    requires Inv(s) && Enabled(s, e)
    requires e.ModeReported? || e.SetReconnect? || e.SendRequest? || e.AbortRequest? || e.WaiterTimesOut?
      || e.QueueTimesOut? || e.SlotOpened? || e.CloseBegins? || e.CloseEnds?
    ensures Pulses(s, e, Step(s, e))
  {
    hide Inv, Pulses, Send, R.Abort, R.QueueTimeout, R.WaiterTimeout, R.CloseQueue, R.CloseWaiters, L.Close,
         L.SetReconnectEnabled, L.ReportMode, V.Inv, V.StopBeat, V.DropProbe;
    if e.SlotOpened? || e.CloseBegins? || e.CloseEnds? {
      ClosingPulses(s, e);
    } else {
      SendStill(s, e);
      StillPulses(s, e, Step(s, e));
    }
  }

  lemma SendStill(s: State, e: Event)
    ensures e.SendRequest? ==>
      var s' := Send(s, e.request);
      s'.live == s.live && s'.slots == s.slots && s'.closing == s.closing
  {
    hide R.SendNow, R.SendUnavailable, R.Hold;
  }

  lemma ClosingPulses(s: State, e: Event)
    requires Inv(s) && Enabled(s, e) && (e.SlotOpened? || e.CloseBegins? || e.CloseEnds?)
    ensures Pulses(s, e, Step(s, e))
  {
    hide Inv, R.CloseQueue, R.CloseWaiters, L.Close, V.Inv;
    SessionHolds(s);
  }

  lemma StepPulses(s: State, e: Event)
    requires Inv(s) && Enabled(s, e)
    ensures Pulses(s, e, Step(s, e))
  {
    hide Inv, Pulses, ConnectStep, EnsureStep, AttemptConnect, Proceed, CloseTransport, Teardown, ScheduleReconnect,
         Deliver, Beat, PingTimeout, Measure, Send, Close, FinishClose, TimerFired, L.GenericError, L.Unwatch;
    if e.HeartbeatFires? {
      BeatPulses(s, e);
    } else if e.PingTimesOut? {
      TimeoutPulses(s, e);
    } else if e.MeasureLatency? {
      MeasurePulses(s, e);
    } else if e.MessageArrives? {
      MessagePulses(s, e);
    } else if e.Connect? || e.EnsureConnected? || e.CredentialsSettle? || e.RetryFires? {
      AskPulses(s, e);
    } else if e.DeadlineFires? || e.ErrorDelayFires? || e.TransportOpens? || e.TransportCloses? || e.TransportFails?
              || e.SessionDropped? {
      LossPulses(s, e);
    } else {
      QuietPulses(s, e);
    }
  }

  // ---------------------------------------------------------------------------
  // Every run
  // ---------------------------------------------------------------------------

  lemma RunPulses(tr: seq<State>, es: seq<Event>, i: nat)
    requires Run(tr, es) && i < |es|
    ensures Pulses(tr[i], es[i], tr[i + 1])
  {
    hide Inv, Step, Enabled, Pulses;
    RunInv(tr, es, i);
    assert StepAt(tr, es, i);
    StepPulses(tr[i], es[i]);
  }

  /**
   * The ping in flight. In every run one goes out exactly when a heartbeat or a measurement is sent
   * on a connected client with none in flight, it can fail the heartbeat exactly when it is the
   * heartbeat's, and it is over exactly with a pong, its timeout, the loss of its session or `close`.
   */
  lemma PingExactly(tr: seq<State>, es: seq<Event>, i: nat)
    requires Run(tr, es) && i < |es|
    ensures ProbeMoves(tr[i], es[i], tr[i + 1].live)
    ensures tr[i + 1].live.attached <==> AttachedAfter(tr[i], es[i])
  {
    hide ProbeMoves, AttachedAfter;
    RunPulses(tr, es, i);
  }

  /**
   * The next heartbeat. In every run, unless its loss breaks off, one is scheduled exactly when a
   * session is established, when the ping that one waited for is over, or when one has fired and has
   * no ping to wait for; it goes when it fires or its transport is disposed of.
   */
  lemma BeatExactly(tr: seq<State>, es: seq<Event>, i: nat)
    requires Run(tr, es) && i < |es| && tr[i + 1].link.pace.faults == tr[i].link.pace.faults
    ensures tr[i + 1].live.heartbeat.Some? <==> BeatAfter(tr[i], es[i])
  {
    hide BeatAfter;
    RunPulses(tr, es, i);
  }

  /** An answered ping is over: neither it nor its timer is left, in any run. */
  lemma PongEnds(tr: seq<State>, es: seq<Event>, i: nat)
    requires Run(tr, es) && i < |es| && es[i].MessageArrives? && es[i].message.Pong?
    ensures tr[i + 1].live.probe.None? && !tr[i + 1].live.attached
    ensures V.Ping !in tr[i + 1].live.timers.Values
  {
    PingExactly(tr, es, i);
    HeartbeatNeverStops(tr, es, i + 1);
  }

  /** Terminal slots are those opened since the session was last lost, and `close` is under way until it ends. */
  lemma SlotsExactly(tr: seq<State>, es: seq<Event>, i: nat)
    requires Run(tr, es) && i < |es|
    ensures tr[i + 1].slots == SlotsAfter(tr[i], es[i])
    ensures tr[i + 1].closing <==> ClosingAfter(tr[i], es[i])
  {
    hide SlotsAfter, ClosingAfter;
    RunPulses(tr, es, i);
  }
}
