/** What a caller of the client can rely on, over every run. */
module SessionClaims {
  import opened Prelude
  import opened Session
  import opened SessionSafety
  import opened SessionRuns
  import opened SessionSends
  import B = Backoff
  import Timers
  import L = Link
  import R = Requests
  import V = Liveness

  // ---------------------------------------------------------------------------
  // Outcomes of requests
  // ---------------------------------------------------------------------------

  /**
   * A call told that the connection was lost, and not that its outcome is unknown, never has its
   * frame handed to a transport: not before `i`, and not at any later point of the run either.
   */
  lemma HonestLoss(tr: seq<State>, es: seq<Event>, i: nat, j: nat, c: R.CallId)
    requires Run(tr, es) && i <= j <= |es| && c < |tr[i].reqs.calls|
    requires R.CallOutcome(tr[i].reqs.calls[c]) == Some(R.Lost(false))
    ensures c !in tr[j].reqs.frames
  {
    OutcomeSettlesOnce(tr, es, i, j, c);
    RunInv(tr, es, j);
    assert R.LossHonest(tr[j].reqs);
  }

  /** And "unknown" is only said when a frame with that request id really was handed over. */
  lemma UnknownIsEarned(tr: seq<State>, es: seq<Event>, i: nat, c: R.CallId)
    requires Run(tr, es) && i <= |es| && c < |tr[i].reqs.calls|
    requires R.CallOutcome(tr[i].reqs.calls[c]) == Some(R.Lost(true))
    ensures exists d: R.CallId ::
      && d in tr[i].reqs.frames && d < |tr[i].reqs.calls|
      && tr[i].reqs.calls[d].requestId == tr[i].reqs.calls[c].requestId
  {
    RunInv(tr, es, i);
    assert R.LossHonest(tr[i].reqs) && R.UnknownEarned(tr[i].reqs);
  }

  /** The two promises of a call, and so its outcome, settle at most once. */
  lemma OutcomeSettlesOnce(tr: seq<State>, es: seq<Event>, i: nat, j: nat, c: R.CallId)
    requires Run(tr, es) && i <= j <= |es| && c < |tr[i].reqs.calls|
    ensures c < |tr[j].reqs.calls| && tr[j].reqs.calls[c].requestId == tr[i].reqs.calls[c].requestId
    ensures tr[i].reqs.calls[c].wait.Some? ==> tr[j].reqs.calls[c].wait == tr[i].reqs.calls[c].wait
    ensures !tr[i].reqs.calls[c].send.Pending? ==> tr[j].reqs.calls[c].send == tr[i].reqs.calls[c].send
    ensures var o := R.CallOutcome(tr[i].reqs.calls[c]); o.Some? ==> R.CallOutcome(tr[j].reqs.calls[c]) == o
  {
    RunLater(tr, es, i, j);
  }

  /** A waiter is in the table, and a send in the queue, exactly while its promise is unsettled. */
  lemma TablesExact(tr: seq<State>, es: seq<Event>, i: nat, c: R.CallId)
    requires Run(tr, es) && i <= |es| && c < |tr[i].reqs.calls|
    ensures c in tr[i].reqs.waiters <==> tr[i].reqs.calls[c].wait.None?
    ensures c in tr[i].reqs.queue <==> tr[i].reqs.calls[c].send.Pending?
    ensures tr[i].reqs.queue != [] ==> tr[i].link.status == L.Connecting || tr[i].closing
  {
    RunInv(tr, es, i);
    assert R.WaitersExact(tr[i].reqs) && R.QueueExact(tr[i].reqs);
  }

  /**
   * No request is handed over twice, and apart from restored subscriptions frames go out in the
   * order their requests were made, however sends were held back, aborted or timed out.
   */
  lemma FramesInCallOrder(tr: seq<State>, es: seq<Event>, i: nat, m: nat, n: nat)
    requires Run(tr, es) && i <= |es| && m < n < |tr[i].reqs.frames|
    ensures var r := tr[i].reqs;
      && r.frames[m] != r.frames[n]
      && (r.frames[m] !in r.restored && r.frames[n] !in r.restored ==> r.frames[m] < r.frames[n])
  {
    RunInv(tr, es, i);
    assert R.FramesOrdered(tr[i].reqs);
    assert R.InOrder(tr[i].reqs.restored, tr[i].reqs.frames[m], tr[i].reqs.frames[n]);
  }

  // ---------------------------------------------------------------------------
  // Why requests settle
  // ---------------------------------------------------------------------------

  function ReplyOf(e: Event): Option<R.Reply> {
    if e.MessageArrives? && e.message.Answer? then Some(e.message.reply)
    else if e.MessageArrives? && e.message.FileFrame? && e.message.effect.Complete? then Some(e.message.effect.reply)
    else None
  }

  function RejectedId(e: Event): Option<string> {
    if e.MessageArrives? && e.message.Invalid? then e.message.requestId
    else if e.MessageArrives? && e.message.FileFrame? && e.message.effect.Broken? then Some(e.message.effect.requestId)
    else None
  }

  /** The event `e` gives the pending call `c` a reason to settle with `o`. */
  predicate Earned(s: State, e: Event, c: R.CallId, o: R.Outcome)
    requires Enabled(s, e) && c < |s.reqs.calls|
  {
    var call, reply := s.reqs.calls[c], ReplyOf(e);
    match o
    case Answered =>
      reply.Some? && reply.value.Response? && reply.value.requestId == call.requestId
      && reply.value.responseType == call.responseType && c !in reply.value.skipped
    case SelectorThrew =>
      reply.Some? && reply.value.Response? && reply.value.requestId == call.requestId
      && reply.value.responseType == call.responseType && c in reply.value.throwing
    case RemoteError => reply.Some? && reply.value.ErrorReply? && reply.value.requestId == call.requestId
    case InvalidResponse => RejectedId(e) == Some(call.requestId)
    case TimedOut => e == WaiterTimesOut(c) || e == QueueTimesOut(c)
    case Canceled => e == AbortRequest(c)
    case Lost(_) => Emptied(Step(s, e))
    case Closed => e.CloseBegins? || e.CloseEnds?
    case SendFailed =>
      e.MessageArrives? && e.message.ServerInfo? && c in s.reqs.queue
      && (c in e.message.rejected || c in e.message.failing)
  }

  ghost predicate HasReason(s: State, e: Event, c: R.CallId, o: R.Outcome) {
    Enabled(s, e) && c < |s.reqs.calls| && Earned(s, e, c, o)
  }

  /**
   * Whatever a pending call settles with, the event of that step is the reason: answers carry its
   * own request id, and a loss leaves no waiter, queued send, probe or terminal slot behind.
   */
  lemma SettlementEarned(tr: seq<State>, es: seq<Event>, i: nat, c: R.CallId, o: R.Outcome)
    requires Run(tr, es) && i < |es| && R.News(tr[i].reqs, tr[i + 1].reqs, c, o)
    ensures HasReason(tr[i], es[i], c, o)
  {
    hide Inv, Step, R.News, HasReason, Enabled;
    RunInv(tr, es, i);
    assert StepAt(tr, es, i);
    NewsEarned(tr[i], es[i], c, o);
  }

  lemma NewsEarned(s: State, e: Event, c: R.CallId, o: R.Outcome)
    requires Inv(s) && Enabled(s, e) && R.News(s.reqs, Step(s, e).reqs, c, o)
    ensures HasReason(s, e, c, o)
  {
    hide Inv, Good, R.News, R.Lose, R.Extends, HasReason, Deliver, Send, Emptied, Step;
    NewsOld(s.reqs, Step(s, e).reqs, c, o);
    LostEmptied(s, e, c, o);
    RequestsOf(s);
    if e.MessageArrives? {
      DeliveredByStep(s, e);
      MessageEarned(s, e.message, e.draw, c, o);
    } else if e.SendRequest? {
      SendSettlesNothing(s, e.request, e.aborted);
    } else if e.AbortRequest? || e.WaiterTimesOut? || e.QueueTimesOut? || e.CloseBegins? || e.CloseEnds? {
      RequestEventEarned(s, e, c, o);
    } else {
      LossOrNothing(s, e);
      LossEarned(s, e, c, o);
    }
  }

  lemma DeliveredByStep(s: State, e: Event)
    requires Enabled(s, e) && e.MessageArrives?
    ensures Step(s, e) == Deliver(s, e.message, e.draw)
  {
    hide Deliver;
  }

  lemma LossEarned(s: State, e: Event, c: R.CallId, o: R.Outcome)
    requires R.Inv(s.reqs) && Enabled(s, e) && R.News(s.reqs, Step(s, e).reqs, c, o)
    requires SameOrLost(s.reqs, Step(s, e).reqs) && (o.Lost? ==> Emptied(Step(s, e)))
    ensures HasReason(s, e, c, o)
  {
    hide R.Inv, R.News, R.Lose, R.Extends, Step, Enabled, Emptied;
    NewsOld(s.reqs, Step(s, e).reqs, c, o);
    R.ExtendsSelf(s.reqs);
    R.LoseNews(s.reqs);
  }

  lemma NewsOld(r: R.Reqs, r': R.Reqs, c: R.CallId, o: R.Outcome)
    requires R.News(r, r', c, o)
    ensures c < |r.calls|
  {
  }

  lemma LostEmptied(s: State, e: Event, c: R.CallId, o: R.Outcome)
    requires Inv(s) && Enabled(s, e) && R.News(s.reqs, Step(s, e).reqs, c, o)
    ensures o.Lost? ==> Emptied(Step(s, e))
  {
    hide Inv, Step, R.News, Emptied, R.Extends;
    StepKeeps(s, e);
  }

  lemma RequestsOf(s: State)
    requires Inv(s)
    ensures R.Inv(s.reqs)
  {
  }

  lemma SendSettlesNothing(s: State, request: R.Request, aborted: bool)
    requires Inv(s)
    ensures forall c, o :: !R.News(s.reqs, Step(s, SendRequest(request, aborted)).reqs, c, o)
  {
    hide Inv, Good, Send, R.News;
    SendKeeps(s, request);
    R.ExtendsSelf(s.reqs);
  }

  lemma RequestEventEarned(s: State, e: Event, c: R.CallId, o: R.Outcome)
    requires R.Inv(s.reqs) && Enabled(s, e) && R.News(s.reqs, Step(s, e).reqs, c, o)
    requires e.AbortRequest? || e.WaiterTimesOut? || e.QueueTimesOut? || e.CloseBegins? || e.CloseEnds?
    ensures HasReason(s, e, c, o)
  {
    hide R.Inv, R.News, R.Abort, R.QueueTimeout, R.CloseQueue, R.CloseWaiters, R.Settle, L.Close;
    R.ExtendsSelf(s.reqs);
    NewsOld(s.reqs, Step(s, e).reqs, c, o);
    match e
    case AbortRequest(call) => R.AbortNews(s.reqs, call);
    case WaiterTimesOut(call) => R.SettleNews(s.reqs, map[call := R.TimedOut]);
    case QueueTimesOut(call) => R.QueueTimeoutNews(s.reqs, call);
    case _ => R.CloseNews(s.reqs);
  }

  /** A reply settles only what it answers. */
  lemma ReplyEarned(s: State, e: Event, c: R.CallId, o: R.Outcome)
    requires Enabled(s, e) && ReplyOf(e).Some? && R.News(s.reqs, R.Resolve(s.reqs, ReplyOf(e).value), c, o)
    ensures HasReason(s, e, c, o)
  {
    hide R.News, R.Settle, Emptied, Step;
    NewsOld(s.reqs, R.Resolve(s.reqs, ReplyOf(e).value), c, o);
    R.SettleNews(s.reqs, R.Readings(s.reqs, ReplyOf(e).value));
  }

  /** A broken response or transfer rejects only the requests of its id. */
  lemma RejectionEarned(s: State, e: Event, c: R.CallId, o: R.Outcome)
    requires Enabled(s, e) && RejectedId(e).Some? && R.News(s.reqs, R.RejectOwners(s.reqs, RejectedId(e).value), c, o)
    ensures HasReason(s, e, c, o)
  {
    hide R.News, R.Settle, Emptied, Step;
    NewsOld(s.reqs, R.RejectOwners(s.reqs, RejectedId(e).value), c, o);
    R.SettleNews(s.reqs, R.Owners(s.reqs, RejectedId(e).value));
  }

  lemma MessageEarned(s: State, message: Inbound, draw: L.Draw, c: R.CallId, o: R.Outcome)
    requires R.Inv(s.reqs) && s.link.transport.Some? && c < |s.reqs.calls|
    requires R.News(s.reqs, Deliver(s, message, draw).reqs, c, o)
    requires o.Lost? ==> Emptied(Deliver(s, message, draw))
    ensures HasReason(s, MessageArrives(message, draw), c, o)
  {
    hide R.Inv, R.News, Emptied, R.Lose, R.Resolve, R.RejectOwners, V.Heard, V.SettleProbe, L.Lose, L.Dispose,
         EstablishSession;
    R.ExtendsSelf(s.reqs);
    var e := MessageArrives(message, draw);
    if RejectedId(e).Some? {
      RejectionEarned(s, e, c, o);
    } else if ReplyOf(e).Some? {
      ReplyEarned(s, e, c, o);
    } else if message.ServerInfo? {
      ServerInfoEarned(s, message.restored, message.rejected, message.failing, draw, c, o);
    } else if message.BadHostFrame? {
      R.LoseNews(s.reqs);
    }
  }

  lemma ServerInfoEarned(
    s: State, restored: seq<R.Request>, rejected: set<R.CallId>, failing: set<R.CallId>, draw: L.Draw,
    c: R.CallId, o: R.Outcome)
    requires R.Inv(s.reqs) && s.link.transport.Some? && c < |s.reqs.calls|
    requires R.News(s.reqs, EstablishSession(Heard(s), restored, rejected, failing).reqs, c, o)
    ensures HasReason(s, MessageArrives(ServerInfo(restored, rejected, failing), draw), c, o)
  {
    hide R.Inv, R.News, R.Flush, R.Restore, R.Settle, V.Heard, V.StartBeat, L.Establish, Emptied;
    R.ExtendsSelf(s.reqs);
    EstablishRequests(s.reqs, restored, rejected, failing);
  }

  // ---------------------------------------------------------------------------
  // Pacing and endpoint security
  // ---------------------------------------------------------------------------

  /**
   * The armed retry belongs to the latest try and waits exactly as long as was published, within
   * the ceiling of that try, and unless a loss has broken off delays are drawn once for each retry
   * armed.
   */
  lemma BackoffTruthful(tr: seq<State>, es: seq<Event>, i: nat)
    requires Run(tr, es) && i <= |es|
    ensures tr[i].link.pace.faults == 0 ==> tr[i].link.pace.draws == tr[i].link.pace.arms
    ensures var t, p := tr[i].link.timers, tr[i].link.pace;
      t.retry.Some? ==>
        && Timers.Arms(t, t.retry) && t.armed[t.retry.value].Retry?
        && var timer := t.armed[t.retry.value];
           p.published == Some(timer.delay) && B.Bounded(p.policy, timer.number, timer.delay)
           && timer.number + 1 == p.tries
  {
    RunInv(tr, es, i);
  }

  /** The try number only falls when a session is established. */
  lemma TriesFallOnConnect(tr: seq<State>, es: seq<Event>, i: nat)
    requires Run(tr, es) && i < |es| && tr[i + 1].link.pace.tries < tr[i].link.pace.tries
    ensures tr[i].link.status == L.Connecting && tr[i + 1].link.status == L.Connected
  {
    hide Step, Enabled;
    assert StepAt(tr, es, i);
    StepShape(tr[i], es[i]);
  }

  /** The floor never falls, and every transport was built with at least the floor before it. */
  lemma SecurityOnlyRises(tr: seq<State>, es: seq<Event>, i: nat, j: nat, m: nat, n: nat)
    requires Run(tr, es) && i <= j <= |es| && m <= n < |tr[j].link.security.builds|
    ensures L.Rank(tr[i].link.security.floor) <= L.Rank(tr[j].link.security.floor)
    ensures var security := tr[j].link.security;
      L.Rank(security.builds[m]) <= L.Rank(security.builds[n]) <= L.Rank(security.floor)
  {
    RunLater(tr, es, i, j);
    RunInv(tr, es, j);
    L.RisingPairwise(tr[j].link.security.builds, tr[j].link.security.floor, m, n);
  }

  /**
   * A new transport is only ever installed by the attempt that is current, so a superseded one
   * never installs anything; and it is built with the security floor of that moment.
   */
  lemma OnlyCurrentAttemptInstalls(tr: seq<State>, es: seq<Event>, i: nat)
    requires Run(tr, es) && i < |es|
    ensures var l, l' := tr[i].link, tr[i + 1].link;
      || (l'.security.builds == l.security.builds && (l'.transport == l.transport || l'.transport.None?))
      || (&& MayInstall(tr[i], es[i]) && l'.transport.Some?
          && l'.security.builds == l.security.builds + [l.security.floor])
  {
    hide Step, Enabled;
    assert StepAt(tr, es, i);
    StepShape(tr[i], es[i]);
  }

  /**
   * Every transport built after a state asks for at least the floor of that state; once protected
   * mode has been negotiated each later one asks for protected mode.
   */
  lemma {:induction false} LaterBuildsMeetFloor(tr: seq<State>, es: seq<Event>, i: nat, j: nat, n: nat)
    requires Run(tr, es) && i <= j <= |es|
    requires |tr[i].link.security.builds| <= n < |tr[j].link.security.builds|
    ensures L.Rank(tr[i].link.security.floor) <= L.Rank(tr[j].link.security.builds[n])
    decreases j
  {
    hide Step, Enabled, MayInstall;
    if i < j {
      OnlyCurrentAttemptInstalls(tr, es, j - 1);
      if n < |tr[j - 1].link.security.builds| {
        LaterBuildsMeetFloor(tr, es, i, j - 1, n);
      } else {
        RunLater(tr, es, i, j - 1);
      }
    }
  }

  lemma ProtectedStays(tr: seq<State>, es: seq<Event>, i: nat, j: nat, n: nat)
    requires Run(tr, es) && i < j <= |es| && es[i] == ModeReported(L.Protected)
    requires |tr[i].link.security.builds| <= n < |tr[j].link.security.builds|
    ensures tr[j].link.security.builds[n] == Some(L.Protected)
  {
    assert StepAt(tr, es, i);
    LaterBuildsMeetFloor(tr, es, i + 1, j, n);
  }
}
