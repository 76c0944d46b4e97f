/** What the send promise of a request says about its frame, over every run. */
module SessionSends {
  import opened Prelude
  import opened Session
  import opened SessionSafety
  import opened SessionRuns
  import B = Backoff
  import L = Link
  import R = Requests
  import V = Liveness

  /**
   * A resolved send has handed its frame to a transport and a pending one has not; a refused one
   * has not either, unless the send itself failed, which a transport may do after it got the frame.
   */
  predicate Truthful(send: R.Send, handed: bool) {
    match send
    case Pending => !handed
    case Resolved => handed
    case Refused(error) => handed ==> error == R.SendFailed
  }

  ghost predicate SendsTruthful(r: R.Reqs) {
    && (forall c: R.CallId :: c in r.frames || c in r.queue ==> c < |r.calls|)
    && (forall c: R.CallId :: c < |r.calls| ==> Truthful(r.calls[c].send, c in r.frames))
  }

  // ---------------------------------------------------------------------------
  // Steps of the requests
  // ---------------------------------------------------------------------------

  lemma SettleTruthful(r: R.Reqs, verdict: map<R.CallId, R.Outcome>)
    requires SendsTruthful(r)
    ensures SendsTruthful(R.Settle(r, verdict)) && SendsTruthful(R.Continue(r))
  {
  }

  lemma RefuseTruthful(r: R.Reqs, verdict: map<R.CallId, R.Outcome>)
    requires SendsTruthful(r)
    ensures SendsTruthful(R.Continue(R.Refuse(r, verdict)))
  {
    hide R.Continue;
    assert SendsTruthful(R.Refuse(r, verdict));
    SettleTruthful(R.Refuse(r, verdict), map[]);
  }

  lemma HoldTruthful(r: R.Reqs, requestId: string, responseType: string, restored: bool)
    requires SendsTruthful(r)
    ensures SendsTruthful(R.Hold(r, requestId, responseType, restored))
  {
  }

  lemma TransmitTruthful(r: R.Reqs, batch: seq<R.CallId>, rejected: set<R.CallId>, failing: set<R.CallId>)
    requires SendsTruthful(r) && forall c: R.CallId :: c in batch ==> c in r.queue
    ensures SendsTruthful(R.Continue(R.Transmit(r, batch, rejected, failing)))
  {
    hide R.Continue, R.SharesId;
    assert SendsTruthful(R.Transmit(r, batch, rejected, failing));
    SettleTruthful(R.Transmit(r, batch, rejected, failing), map[]);
  }

  lemma SendNowTruthful(r: R.Reqs, request: R.Request, restored: bool)
    requires SendsTruthful(r)
    ensures SendsTruthful(R.SendNow(r, request, restored))
  {
    hide SendsTruthful, R.Transmit, R.Continue;
    var c := |r.calls|;
    HoldTruthful(r, request.requestId, request.responseType, restored);
    TransmitTruthful(R.Hold(r, request.requestId, request.responseType, restored), [c],
                     if request.rejected then {c} else {}, if request.failing then {c} else {});
  }

  lemma {:induction false} RestoreTruthful(r: R.Reqs, requests: seq<R.Request>)
    requires SendsTruthful(r)
    ensures SendsTruthful(R.Restore(r, requests))
    decreases |requests|
  {
    hide SendsTruthful, R.SendNow;
    if requests != [] {
      SendNowTruthful(r, requests[0], true);
      RestoreTruthful(R.SendNow(r, requests[0], true), requests[1..]);
    }
  }

  lemma LoseTruthful(r: R.Reqs)
    requires SendsTruthful(r)
    ensures SendsTruthful(R.Lose(r)) && SendsTruthful(R.CloseQueue(r)) && SendsTruthful(R.CloseWaiters(r))
  {
    hide SendsTruthful, R.Settle, R.Refuse, R.Continue;
    SettleTruthful(r, R.LossVerdict(r));
    var cleared := R.Settle(r, R.LossVerdict(r));
    RefuseTruthful(cleared, R.All(cleared, R.Lost(false)));
    RefuseTruthful(r, R.All(r, R.Closed));
    SettleTruthful(r, map c | c in r.waiters :: R.Closed);
  }

  // ---------------------------------------------------------------------------
  // Steps of the client
  // ---------------------------------------------------------------------------

  lemma RequestTruthful(s: State, e: Event)
    requires SendsTruthful(s.reqs) && Enabled(s, e)
    requires e.SendRequest? || e.AbortRequest? || e.WaiterTimesOut? || e.QueueTimesOut?
    ensures SendsTruthful(Step(s, e).reqs)
  {
    hide SendsTruthful, R.SendNow, R.Hold, R.Settle, R.Refuse, R.Continue;
    match e
    case SendRequest(request, _) =>
      SendNowTruthful(s.reqs, request, false);
      HoldTruthful(s.reqs, request.requestId, request.responseType, false);
      var held := R.Hold(s.reqs, request.requestId, request.responseType, false);
      RefuseTruthful(held, map[|s.reqs.calls| := R.Lost(false)]);
    case AbortRequest(c) =>
      SettleTruthful(s.reqs, map[c := R.Canceled]);
      RefuseTruthful(R.Settle(s.reqs, map[c := R.Canceled]), map[c := R.Canceled]);
    case WaiterTimesOut(c) => SettleTruthful(s.reqs, map[c := R.TimedOut]);
    case QueueTimesOut(c) => RefuseTruthful(s.reqs, map[c := R.TimedOut]);
  }

  lemma MessageTruthful(s: State, message: Inbound, draw: L.Draw)
    requires SendsTruthful(s.reqs)
    ensures SendsTruthful(Deliver(s, message, draw).reqs)
  {
    hide SendsTruthful, R.Flush, R.Restore, R.Settle, R.Lose, L.Lose, L.Dispose, L.Establish, V.Heard, V.SettleProbe,
         V.StartBeat;
    match message
    case Invalid(requestId) => if requestId.Some? { SettleTruthful(s.reqs, R.Owners(s.reqs, requestId.value)); }
    case ServerInfo(restored, rejected, failing) => EstablishTruthful(s.reqs, restored, rejected, failing);
    case Answer(reply) => SettleTruthful(s.reqs, R.Readings(s.reqs, reply));
    case BadHostFrame => LoseTruthful(s.reqs);
    case FileFrame(effect) =>
      if effect.Broken? { SettleTruthful(s.reqs, R.Owners(s.reqs, effect.requestId)); }
      if effect.Complete? { SettleTruthful(s.reqs, R.Readings(s.reqs, effect.reply)); }
    case _ =>
  }

  lemma EstablishTruthful(
    r: R.Reqs, restored: seq<R.Request>, rejected: set<R.CallId>, failing: set<R.CallId>)
    requires SendsTruthful(r)
    ensures SendsTruthful(R.Flush(R.Restore(r, restored), rejected, failing))
  {
    hide SendsTruthful, R.Restore, R.Transmit, R.Continue;
    RestoreTruthful(r, restored);
    var reopened := R.Restore(r, restored);
    TransmitTruthful(reopened, reopened.queue, rejected, failing);
  }

  lemma StepTruthful(s: State, e: Event)
    requires SendsTruthful(s.reqs) && Enabled(s, e)
    ensures SendsTruthful(Step(s, e).reqs)
  {
    hide SendsTruthful, R.Lose, R.CloseQueue, R.CloseWaiters;
    LoseTruthful(s.reqs);
    if e.MessageArrives? {
      MessageTruthful(s, e.message, e.draw);
    } else if e.SendRequest? || e.AbortRequest? || e.WaiterTimesOut? || e.QueueTimesOut? {
      RequestTruthful(s, e);
    } else if !e.CloseBegins? && !e.CloseEnds? {
      LossOrNothing(s, e);
    }
  }

  /** The requests are left alone, or all lost. */
  predicate SameOrLost(r: R.Reqs, r': R.Reqs) {
    r' == r || r' == R.Lose(r)
  }

  lemma AttemptLoses(s: State, token: nat, build: Build, auth: Auth, draw: L.Draw)
    ensures SameOrLost(s.reqs, Proceed(s, token, build, draw).reqs)
    ensures SameOrLost(s.reqs, AttemptConnect(s, auth, draw).reqs)
  {
    hide R.Lose, L.Lose, L.Dispose, L.Install, L.BeginAttempt, V.StopBeat, V.DropProbe;
  }

  lemma AskLoses(s: State, auth: Auth, draw: L.Draw)
    ensures SameOrLost(s.reqs, ConnectStep(s, auth, draw).reqs) && SameOrLost(s.reqs, EnsureStep(s, auth, draw).reqs)
  {
    hide R.Lose, AttemptConnect;
    AttemptLoses(s.(link := s.link.(shouldReconnect := true)), 0, Built, auth, draw);
    AttemptLoses(s.(link := s.link.(shouldReconnect := true, pending := true)), 0, Built, auth, draw);
  }

  lemma BeatLoses(s: State, sent: bool, draw: L.Draw)
    ensures SameOrLost(s.reqs, Beat(s, sent, draw).reqs)
    ensures s.live.probe.Some? ==> SameOrLost(s.reqs, PingTimeout(s, draw).reqs)
  {
    hide R.Lose, L.Lose, L.Dispose, V.Fail, V.StopBeat, V.OpenProbe, V.DropProbe, V.ScheduleBeat;
  }

  /** Connection and liveness events either leave the requests alone or lose them all. */
  lemma LossOrNothing(s: State, e: Event)
    requires Enabled(s, e) && !e.MessageArrives? && !e.SendRequest? && !e.AbortRequest?
    requires !e.WaiterTimesOut? && !e.QueueTimesOut? && !e.CloseBegins? && !e.CloseEnds?
    ensures SameOrLost(s.reqs, Step(s, e).reqs)
  {
    hide R.Lose, L.Lose, L.Dispose, L.GenericError, L.Unwatch, V.DropProbe, V.StopBeat,
         ConnectStep, EnsureStep, AttemptConnect, Proceed, Beat, PingTimeout;
    match e
    case Connect(auth, draw) => AskLoses(s, auth, draw);
    case EnsureConnected(auth, draw) => AskLoses(s, auth, draw);
    case CredentialsSettle(token, build, draw) =>
      AttemptLoses(s.(link := s.link.(outstanding := s.link.outstanding - {token})), token, build, Auth.Later, draw);
    case RetryFires(id, auth, draw) => AttemptLoses(TimerFired(s, id), 0, Built, auth, draw);
    case HeartbeatFires(sent, draw) => BeatLoses(s, sent, draw);
    case PingTimesOut(draw) => BeatLoses(s, true, draw);
    case _ =>
  }

  // ---------------------------------------------------------------------------
  // Every run
  // ---------------------------------------------------------------------------

  lemma StartTruthful(tr: seq<State>, es: seq<Event>)
    requires Run(tr, es)
    ensures SendsTruthful(tr[0].reqs)
  {
    hide Steps;
  }

  lemma {:induction false} RunTruthful(tr: seq<State>, es: seq<Event>, i: nat)
    requires Run(tr, es) && i <= |es|
    ensures SendsTruthful(tr[i].reqs)
  {
    hide SendsTruthful, Step, Enabled;
    if i == 0 {
      StartTruthful(tr, es);
    } else {
      RunTruthful(tr, es, i - 1);
      assert StepAt(tr, es, i - 1);
      StepTruthful(tr[i - 1], es[i - 1]);
    }
  }

  /** A send that says "sent" was handed to a transport; one that is held, or was refused unsent, was not. */
  lemma SendsSayTheTruth(tr: seq<State>, es: seq<Event>, i: nat, c: R.CallId)
    requires Run(tr, es) && i <= |es| && c < |tr[i].reqs.calls|
    ensures var send, handed := tr[i].reqs.calls[c].send, c in tr[i].reqs.frames;
      && (send.Resolved? ==> handed)
      && (send.Pending? || (send.Refused? && send.error != R.SendFailed) ==> !handed)
  {
    RunTruthful(tr, es, i);
  }

  /** And what was refused unsent stays unsent: every refusal but one by the transport that had the frame. */
  lemma RefusedStaysUnsent(tr: seq<State>, es: seq<Event>, i: nat, j: nat, c: R.CallId)
    requires Run(tr, es) && i <= j <= |es| && c < |tr[i].reqs.calls| && tr[i].reqs.calls[c].send.Refused?
    requires tr[i].reqs.calls[c].send.error == R.SendFailed ==> c !in tr[i].reqs.frames
    ensures c !in tr[j].reqs.frames
  {
    SendsSayTheTruth(tr, es, i, c);
    RunLater(tr, es, i, j);
  }

  /** A held send that is aborted, or that times out in the queue, is never handed over. */
  lemma WithdrawnNeverSent(tr: seq<State>, es: seq<Event>, i: nat, j: nat, c: R.CallId)
    requires Run(tr, es) && i < j <= |es| && c in tr[i].reqs.queue
    requires es[i] == AbortRequest(c) || es[i] == QueueTimesOut(c)
    ensures c !in tr[j].reqs.frames
  {
    hide Inv, Step, Enabled;
    RunInv(tr, es, i);
    assert StepAt(tr, es, i);
    WithdrawnRefused(tr[i], es[i], c);
    RefusedStaysUnsent(tr, es, i + 1, j, c);
  }

  lemma WithdrawnRefused(s: State, e: Event, c: R.CallId)
    requires Inv(s) && Enabled(s, e) && c in s.reqs.queue && (e == AbortRequest(c) || e == QueueTimesOut(c))
    ensures c < |Step(s, e).reqs.calls|
    ensures Step(s, e).reqs.calls[c].send == R.Refused(if e.AbortRequest? then R.Canceled else R.TimedOut)
  {
    assert R.QueueExact(s.reqs);
  }

  /**
   * Of everything that can time out or be aborted, exactly two events take a held send back: its
   * own timeout in the queue and an abort of its own call. A waiter that times out does not.
   */
  lemma WithdrawnExactly(tr: seq<State>, es: seq<Event>, i: nat, c: R.CallId)
    requires Run(tr, es) && i < |es| && c in tr[i].reqs.queue
    requires es[i].WaiterTimesOut? || es[i].QueueTimesOut? || es[i].AbortRequest?
    ensures c !in tr[i + 1].reqs.queue <==> es[i] == QueueTimesOut(c) || es[i] == AbortRequest(c)
  {
    hide Inv, Enabled;
    assert StepAt(tr, es, i);
  }

  /**
   * A send still held when the session is established is handed over even if its waiter has settled
   * meanwhile, by its own timeout say; only then is the caller told what the waiter settled with.
   */
  lemma SettledStillSent(
    tr: seq<State>, es: seq<Event>, i: nat, c: R.CallId,
    restored: seq<R.Request>, rejected: set<R.CallId>, failing: set<R.CallId>, draw: L.Draw)
    requires Run(tr, es) && i < |es| && c in tr[i].reqs.queue && tr[i].link.status == L.Connecting
    requires es[i] == MessageArrives(ServerInfo(restored, rejected, failing), draw) && c !in rejected
    ensures c < |tr[i].reqs.calls| && R.CallOutcome(tr[i].reqs.calls[c]).None?
    ensures c in tr[i + 1].reqs.frames && c < |tr[i + 1].reqs.calls|
    ensures c !in failing && tr[i].reqs.calls[c].wait.Some? ==>
      R.CallOutcome(tr[i + 1].reqs.calls[c]) == tr[i].reqs.calls[c].wait
  {
    hide R.Inv, R.Restore, R.Flush, L.Inv, V.Inv, V.Heard, V.StartBeat, L.Establish;
    assert StepAt(tr, es, i);
    RunInv(tr, es, i);
    HeldSent(tr[i].reqs, restored, rejected, failing, c);
  }

  lemma HeldSent(
    r: R.Reqs, restored: seq<R.Request>, rejected: set<R.CallId>, failing: set<R.CallId>, c: R.CallId)
    requires R.Inv(r) && c in r.queue && c !in rejected
    ensures var r' := R.Flush(R.Restore(r, restored), rejected, failing);
      && c < |r.calls| <= |r'.calls| && r.calls[c].send.Pending? && c in r'.frames
      && (c !in failing ==> r'.calls[c].send.Resolved?)
      && (r.calls[c].wait.Some? ==> r'.calls[c].wait == r.calls[c].wait)
  {
    hide R.Restore, R.FramesOrdered, R.LossHonest, R.UnknownEarned, R.SharesId;
    R.RestoreKeeps(r, restored);
    var reopened := R.Restore(r, restored);
    R.FlushKeeps(reopened, rejected, failing);
    R.ExtendsTransitive(r, reopened, R.Flush(reopened, rejected, failing));
  }

  lemma FirstTransport(policy: B.Policy, draw: L.Draw)
    ensures var s := ConnectStep(Initial(policy, true, None), Now(Built), draw);
      s.link.status == L.Connecting && s.link.transport.Some? && s.reqs == R.EMPTY
  {
    hide V.StopBeat;
  }

  const HELD := SendRequest(R.Request("1", "pong", false, false), false)

  /** One held call, whose waiter has timed out. */
  const TIMED_OUT := R.Reqs([R.Call("1", "pong", R.Pending, Some(R.TimedOut), false)], {}, [0], [], {})

  lemma HeldTimesOut(s: State)
    requires s.link.status == L.Connecting && s.reqs == R.EMPTY
    ensures var held := Step(s, HELD);
      && held.link == s.link && Enabled(held, WaiterTimesOut(0))
      && Step(held, WaiterTimesOut(0)) == s.(reqs := TIMED_OUT)
  {
    hide R.Inv;
    var held := Step(s, HELD);
    assert Step(held, WaiterTimesOut(0)).reqs.calls == TIMED_OUT.calls;
  }

  lemma OpenedRuns(tr: seq<State>, es: seq<Event>, policy: B.Policy)
    requires |tr| == |es| + 1 == 5 && tr[0] == Initial(policy, true, None)
    requires StepAt(tr, es, 0) && StepAt(tr, es, 1) && StepAt(tr, es, 2) && StepAt(tr, es, 3)
    ensures Run(tr, es)
  {
    hide Step, Enabled, Initial, StepAt;
  }

  /** It happens: a call times out while connecting, its frame goes out later, and then it is told so. */
  lemma TimedOutSent(policy: B.Policy, draw: L.Draw) returns (tr: seq<State>, es: seq<Event>)
    ensures Run(tr, es) && |es| == 4 && es[2] == WaiterTimesOut(0)
    ensures tr[3].reqs.queue == [0] && tr[3].reqs.frames == [] && 0 in tr[4].reqs.frames
    ensures |tr[4].reqs.calls| == 1 && R.CallOutcome(tr[4].reqs.calls[0]) == Some(R.TimedOut)
  {
    hide R.Flush, R.Restore, Initial, ConnectStep, EstablishSession, Send, R.WaiterTimeout, Run;
    var s0 := Initial(policy, true, None);
    es := [Connect(Now(Built), draw), HELD, WaiterTimesOut(0), MessageArrives(ServerInfo([], {}, {}), draw)];
    var s1 := Step(s0, es[0]);
    FirstTransport(policy, draw);
    HeldTimesOut(s1);
    var s2 := Step(s1, es[1]);
    var s3 := Step(s2, es[2]);
    tr := [s0, s1, s2, s3, Step(s3, es[3])];
    OpenedRuns(tr, es, policy);
    SettledStillSent(tr, es, 3, 0, [], {}, {}, draw);
    SameCalls(s3);
  }

  lemma SameCalls(s: State)
    requires s.reqs == TIMED_OUT
    ensures |EstablishSession(Heard(s), [], {}, {}).reqs.calls| == 1
  {
    hide V.Heard, V.StartBeat, L.Establish;
  }
}
