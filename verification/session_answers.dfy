/** What each event does to the requests: whose waiter it settles, whose send, and which frames go out. */
module SessionAnswers {
  import opened Prelude
  import opened Session
  import opened SessionSafety
  import opened SessionRuns
  import opened SessionSends
  import opened SessionEffects
  import opened SessionPromises
  import opened SessionClaims
  import opened SessionCalls
  import Timers
  import L = Link
  import R = Requests
  import V = Liveness

  // ---------------------------------------------------------------------------
  // What callers are told
  // ---------------------------------------------------------------------------

  /** A reply to a call, as the protocol has it: same request id, and for a response the same type. */
  function ReplyTells(call: R.Call, c: R.CallId, reply: R.Reply): Option<R.Outcome> {
    match reply
    case ErrorReply(requestId) => if requestId == call.requestId then Some(R.RemoteError) else None
    case Response(responseType, requestId, skipped, throwing) =>
      if requestId == call.requestId && responseType == call.responseType then
        if c in throwing then Some(R.SelectorThrew) else if c in skipped then None else Some(R.Answered)
      else None
  }

  function IdTells(call: R.Call, requestId: string): Option<R.Outcome> {
    if requestId == call.requestId then Some(R.InvalidResponse) else None
  }

  /** What a message tells a waiter. */
  function MessageTells(s: State, message: Inbound, c: R.CallId): Option<R.Outcome>
    requires c < |s.reqs.calls|
  {
    var call := s.reqs.calls[c];
    match message
    case Answer(reply) => ReplyTells(call, c, reply)
    case FileFrame(effect) =>
      (match effect
       case Quiet => None
       case Broken(requestId) => IdTells(call, requestId)
       case Complete(reply) => ReplyTells(call, c, reply))
    case Invalid(requestId) => if requestId.Some? then IdTells(call, requestId.value) else None
    case ServerInfo(_, rejected, failing) =>
      if s.link.status == L.Connecting && c in s.reqs.queue && (c in rejected || c in failing)
      then Some(R.SendFailed) else None
    case BadHostFrame => Some(R.Lost(call.submitted))
    case _ => None
  }

  /** What the waiter of call `c` settles with in this step, if it does. */
  function WaiterTold(s: State, e: Event, c: R.CallId): Option<R.Outcome>
    requires c < |s.reqs.calls|
  {
    match e
    case MessageArrives(message, _) => MessageTells(s, message, c)
    case WaiterTimesOut(d) => if d == c then Some(R.TimedOut) else None
    case QueueTimesOut(d) => if d == c then Some(R.TimedOut) else None
    case AbortRequest(d) => if d == c then Some(R.Canceled) else None
    case CloseBegins => Some(R.Closed)
    case _ => if GivesUp(s, e) then Some(R.Lost(s.reqs.calls[c].submitted)) else None
  }

  /** What becomes of a held send in this step. */
  function HeldBecomes(s: State, e: Event, c: R.CallId): R.Send {
    match e
    case MessageArrives(message, _) =>
      if message.BadHostFrame? then R.Refused(R.Lost(false))
      else if message.ServerInfo? && s.link.status == L.Connecting then
        if c in message.rejected || c in message.failing then R.Refused(R.SendFailed) else R.Resolved
      else R.Pending
    case QueueTimesOut(d) => if d == c then R.Refused(R.TimedOut) else R.Pending
    case AbortRequest(d) => if d == c then R.Refused(R.Canceled) else R.Pending
    case CloseEnds => R.Refused(R.Closed)
    case _ => if GivesUp(s, e) then R.Refused(R.Lost(false)) else R.Pending
  }

  /** The new calls of a session's restored requests whose frames go out. */
  function Reopened(first: nat, requests: seq<R.Request>): seq<R.CallId>
    decreases |requests|
  {
    if requests == [] then []
    else (if requests[0].rejected then [] else [first]) + Reopened(first + 1, requests[1..])
  }

  /** The frames that this step hands to the transport, in order. */
  function Handed(s: State, e: Event): seq<R.CallId> {
    match e
    case SendRequest(request, aborted) =>
      if !aborted && s.link.status == L.Connected && s.link.transport.Some? && !request.rejected
      then [|s.reqs.calls|] else []
    case MessageArrives(message, _) =>
      if message.ServerInfo? && s.link.status == L.Connecting
      then Reopened(|s.reqs.calls|, message.restored) + Without(s.reqs.queue, message.rejected) else []
    case _ => []
  }

  // ---------------------------------------------------------------------------
  // The steps of the requests
  // ---------------------------------------------------------------------------

  lemma SettleTells(r: R.Reqs, verdict: map<R.CallId, R.Outcome>, c: R.CallId)
    ensures var r' := R.Settle(r, verdict);
      && |r'.calls| == |r.calls| && r'.frames == r.frames
      && (c < |r.calls| ==>
            && r'.calls[c].send == r.calls[c].send
            && (c in r.waiters ==>
                  r'.calls[c].wait == if c in verdict then Some(verdict[c]) else r.calls[c].wait))
  {
  }

  lemma LoseTells(r: R.Reqs, c: R.CallId)
    requires R.Inv(r)
    ensures var r' := R.Lose(r);
      && |r'.calls| == |r.calls| && r'.frames == r.frames
      && (c in r.waiters ==> r'.calls[c].wait == Some(R.Lost(r.calls[c].submitted)))
      && (c in r.queue ==> r'.calls[c].send == R.Refused(R.Lost(false)))
  {
    hide R.FramesOrdered, R.LossHonest, R.UnknownEarned;
  }

  lemma RefuseTells(r: R.Reqs, verdict: map<R.CallId, R.Outcome>, c: R.CallId)
    requires R.Inv(r)
    ensures var r' := R.Continue(R.Refuse(r, verdict));
      && |r'.calls| == |r.calls| && r'.frames == r.frames
      && (c in r.waiters ==>
            r'.calls[c].wait == if r.calls[c].send.Pending? && c in verdict then Some(verdict[c]) else None)
      && (c in r.queue ==> r'.calls[c].send == if c in verdict then R.Refused(verdict[c]) else R.Pending)
  {
    hide R.FramesOrdered, R.LossHonest, R.UnknownEarned;
  }

  lemma AbortTells(r: R.Reqs, d: R.CallId, c: R.CallId)
    requires R.Inv(r)
    ensures var r' := R.Abort(r, d);
      && |r'.calls| == |r.calls| && r'.frames == r.frames
      && (c in r.waiters ==> r'.calls[c].wait == if c == d then Some(R.Canceled) else None)
      && (c in r.queue ==> r'.calls[c].send == if c == d then R.Refused(R.Canceled) else R.Pending)
  {
    hide R.FramesOrdered, R.LossHonest, R.UnknownEarned;
  }

  lemma CloseTells(r: R.Reqs, c: R.CallId)
    requires R.Inv(r)
    ensures var r' := R.CloseWaiters(r);
      && |r'.calls| == |r.calls| && r'.frames == r.frames
      && (c < |r.calls| ==> r'.calls[c].send == r.calls[c].send)
      && (c in r.waiters ==> r'.calls[c].wait == Some(R.Closed))
    ensures var r' := R.CloseQueue(r);
      && |r'.calls| == |r.calls| && r'.frames == r.frames
      && (c in r.queue ==> r'.calls[c].send == R.Refused(R.Closed))
  {
    hide R.FramesOrdered, R.LossHonest, R.UnknownEarned;
  }

  lemma FlushTells(r: R.Reqs, rejected: set<R.CallId>, failing: set<R.CallId>, c: R.CallId)
    requires R.Inv(r)
    ensures var r' := R.Flush(r, rejected, failing);
      && |r'.calls| == |r.calls| && r'.frames == r.frames + Without(r.queue, rejected)
      && (c in r.queue ==>
            r'.calls[c].send == if c in rejected || c in failing then R.Refused(R.SendFailed) else R.Resolved)
      && (c in r.waiters ==>
            r'.calls[c].wait == if c in r.queue && (c in rejected || c in failing) then Some(R.SendFailed) else None)
  {
    hide R.FramesOrdered, R.LossHonest, R.UnknownEarned, R.SharesId;
  }

  lemma SendNowHands(r: R.Reqs, request: R.Request, restored: bool)
    ensures R.SendNow(r, request, restored).frames == r.frames + if request.rejected then [] else [|r.calls|]
  {
    hide R.SharesId;
    var c := |r.calls|;
    assert [c][..0] == [];
  }

  lemma {:induction false} RestoreHands(r: R.Reqs, requests: seq<R.Request>)
    ensures R.Restore(r, requests).frames == r.frames + Reopened(|r.calls|, requests)
    ensures |R.Restore(r, requests).calls| == |r.calls| + |requests|
    decreases |requests|
  {
    hide R.SendNow;
    if requests != [] {
      SendNowHands(r, requests[0], true);
      SendNowGrows(r, requests[0], true);
      RestoreHands(R.SendNow(r, requests[0], true), requests[1..]);
    }
  }

  lemma SendNowGrows(r: R.Reqs, request: R.Request, restored: bool)
    ensures |R.SendNow(r, request, restored).calls| == |r.calls| + 1
  {
    hide R.SharesId;
  }

  lemma EstablishTells(
    r: R.Reqs, requests: seq<R.Request>, rejected: set<R.CallId>, failing: set<R.CallId>, c: R.CallId)
    requires R.Inv(r)
    ensures var r' := R.Flush(R.Restore(r, requests), rejected, failing);
      && |r.calls| <= |r'.calls| && r'.frames == r.frames + (Reopened(|r.calls|, requests) + Without(r.queue, rejected))
      && (c in r.queue ==>
            r'.calls[c].send == if c in rejected || c in failing then R.Refused(R.SendFailed) else R.Resolved)
      && (c in r.waiters ==>
            r'.calls[c].wait == if c in r.queue && (c in rejected || c in failing) then Some(R.SendFailed) else None)
  {
    hide R.Restore, R.Flush, R.Inv;
    ReopenedTells(r, requests, c);
    RestoreHands(r, requests);
    var reopened := R.Restore(r, requests);
    FlushTells(reopened, rejected, failing, c);
    FrontHands(r.frames, Reopened(|r.calls|, requests), Without(r.queue, rejected));
  }

  lemma FrontHands(a: seq<R.CallId>, b: seq<R.CallId>, c: seq<R.CallId>)
    ensures a + b + c == a + (b + c)
  {
  }

  /** The restored requests leave the calls of before waiting as they were. */
  lemma ReopenedTells(r: R.Reqs, requests: seq<R.Request>, c: R.CallId)
    requires R.Inv(r)
    ensures var reopened := R.Restore(r, requests);
      && R.Inv(reopened) && reopened.queue == r.queue && |r.calls| <= |reopened.calls|
      && (c in r.waiters ==> c < |r.calls| && c in reopened.waiters)
      && (c in r.queue ==> c < |r.calls|)
  {
    hide R.Restore, R.FramesOrdered, R.LossHonest, R.UnknownEarned;
    R.RestoreKeeps(r, requests);
    R.RestoreUntouched(r, requests);
  }

  // ---------------------------------------------------------------------------
  // The steps of the client
  // ---------------------------------------------------------------------------

  /** The step did to call `c` what was said of it. */
  ghost predicate CallBy(r: R.Reqs, r': R.Reqs, c: R.CallId, wait: Option<R.Outcome>, send: R.Send)
    requires c < |r.calls|
  {
    && c < |r'.calls|
    && (c in r.waiters ==> r'.calls[c].wait == wait) && (c in r.queue ==> r'.calls[c].send == send)
  }

  /** And to the frames. */
  ghost predicate Told(s: State, e: Event, c: R.CallId, r': R.Reqs) {
    && r'.frames == s.reqs.frames + Handed(s, e)
    && (c < |s.reqs.calls| ==> CallBy(s.reqs, r', c, WaiterTold(s, e, c), HeldBecomes(s, e, c)))
  }

  lemma NothingTold(r: R.Reqs, c: R.CallId)
    requires R.Inv(r)
    ensures r.frames + [] == r.frames == R.Lose(r).frames
    ensures c < |r.calls| ==>
      && CallBy(r, r, c, None, R.Pending)
      && CallBy(r, R.Lose(r), c, Some(R.Lost(r.calls[c].submitted)), R.Refused(R.Lost(false)))
  {
    hide R.Lose, R.FramesOrdered, R.LossHonest, R.UnknownEarned;
    LoseTells(r, c);
  }

  lemma ProceedReqs(s: State, token: nat, build: Build, draw: L.Draw)
    requires s.link.attempt == Some(token)
    ensures Proceed(s, token, build, draw).reqs == if build == Built then s.reqs else R.Lose(s.reqs)
  {
    hide R.Lose, L.Lose, L.Dispose, L.Install, V.StopBeat, V.SettleProbe;
  }

  lemma AttemptReqs(s: State, auth: Auth, draw: L.Draw)
    requires s.link.shouldReconnect && s.link.status != L.Disposed
    requires s.link.status != L.Connecting && s.link.attempt.None?
    ensures AttemptConnect(s, auth, draw).reqs ==
            if auth.Later? || auth.build == Built then s.reqs else R.Lose(s.reqs)
  {
    hide Proceed, R.Lose, Timers.ClearRetry;
    if auth.Now? { ProceedReqs(s.(link := L.BeginAttempt(s.link)), s.link.tokens, auth.build, draw); }
  }

  lemma AskReqs(s: State, e: Event)
    requires Inv(s) && (e.Connect? || e.EnsureConnected?) && Enabled(s, e)
    ensures Step(s, e).reqs == if Fails(Verdict(s, e)) then R.Lose(s.reqs) else s.reqs
  {
    hide Inv, AttemptConnect, R.Lose;
    if Begins(s, e) {
      AttemptReqs(s.(link := s.link.(shouldReconnect := true)), e.auth, e.draw);
      AttemptReqs(s.(link := s.link.(shouldReconnect := true, pending := true)), e.auth, e.draw);
    } else if s.link.status == L.Connecting || s.link.attempt.Some? {
      JoinReqs(s, e.auth, e.draw);
    }
  }

  lemma JoinReqs(s: State, auth: Auth, draw: L.Draw)
    requires s.link.status == L.Connecting || s.link.attempt.Some?
    ensures AttemptConnect(s.(link := s.link.(shouldReconnect := true)), auth, draw).reqs == s.reqs
    ensures AttemptConnect(s.(link := s.link.(shouldReconnect := true, pending := true)), auth, draw).reqs == s.reqs
  {
    hide Proceed;
  }

  lemma AttemptStepReqs(s: State, e: Event)
    requires Inv(s) && (e.CredentialsSettle? || e.RetryFires?) && Enabled(s, e)
    ensures Step(s, e).reqs == if Fails(Verdict(s, e)) then R.Lose(s.reqs) else s.reqs
  {
    hide Inv, AttemptConnect, FailAttempt, DisposeTransport, L.Install, R.Lose, Kept, Timers.Fired;
    HeldFrom(s);
    if e.RetryFires? {
      RetryHeld(s, e.id);
      AttemptReqs(TimerFired(s, e.id), e.auth, e.draw);
    } else if s.link.attempt == Some(e.token) {
      ProceedReqs(s.(link := s.link.(outstanding := s.link.outstanding - {e.token})), e.token, e.build, e.draw);
    }
  }

  lemma PingReqs(s: State, e: Event)
    requires Inv(s) && (e.HeartbeatFires? || e.PingTimesOut?) && Enabled(s, e)
    ensures Step(s, e).reqs == if Drops(s, e) then R.Lose(s.reqs) else s.reqs
  {
    hide Inv, R.Lose, L.Lose, L.Dispose, V.SettleProbe, V.ScheduleBeat;
    FailuresOf(s);
  }

  lemma LossReqs(s: State, e: Event)
    requires Enabled(s, e)
    requires e.DeadlineFires? || e.ErrorDelayFires? || e.TransportOpens? || e.TransportCloses? || e.TransportFails?
      || e.SessionDropped?
    ensures Step(s, e).reqs == if Loses(s, e) then R.Lose(s.reqs) else s.reqs
  {
    hide R.Lose, L.Lose, L.Dispose, L.GenericError, L.Unwatch, L.SetReconnectEnabled, V.SettleProbe, V.StopBeat,
         Timers.Fired, Timers.ClearErrorDelay;
  }

  predicate Linked(e: Event) {
    || e.Connect? || e.EnsureConnected? || e.CredentialsSettle? || e.RetryFires? || e.HeartbeatFires?
    || e.PingTimesOut? || e.DeadlineFires? || e.ErrorDelayFires? || e.TransportOpens? || e.TransportCloses?
    || e.TransportFails? || e.SessionDropped?
  }

  /** Events of the connection lose all requests or none. */
  lemma LinkedReqs(s: State, e: Event)
    requires Inv(s) && Enabled(s, e) && Linked(e)
    ensures Step(s, e).reqs == if GivesUp(s, e) then R.Lose(s.reqs) else s.reqs
  {
    hide Inv, Step, Enabled, Begins;
    if e.Connect? || e.EnsureConnected? {
      AskReqs(s, e);
    } else if e.CredentialsSettle? || e.RetryFires? {
      AttemptStepReqs(s, e);
    } else if e.HeartbeatFires? || e.PingTimesOut? {
      PingReqs(s, e);
    } else {
      LossReqs(s, e);
    }
  }

  lemma LinkedTold(s: State, e: Event, c: R.CallId)
    requires Inv(s) && Enabled(s, e) && Linked(e)
    ensures Told(s, e, c, Step(s, e).reqs)
  {
    hide Inv, Step, Enabled, GivesUp, CallBy, R.Inv, R.Lose;
    RequestsOf(s);
    LinkedReqs(s, e);
    NothingTold(s.reqs, c);
  }

  lemma MessageTold(s: State, message: Inbound, draw: L.Draw, c: R.CallId)
    requires R.Inv(s.reqs)
    ensures Told(s, MessageArrives(message, draw), c, Deliver(s, message, draw).reqs)
  {
    hide R.Inv, R.Lose, R.Settle, R.Flush, R.Restore, L.Lose, L.Dispose, L.Establish, V.Heard, V.SettleProbe,
         V.StartBeat, V.StopBeat;
    assert s.reqs.frames + [] == s.reqs.frames;
    NothingTold(s.reqs, c);
    UnsettledNow(s.reqs, c);
    match message
    case Invalid(requestId) =>
      if requestId.Some? { SettleTells(s.reqs, R.Owners(s.reqs, requestId.value), c); }
    case Answer(reply) => SettleTells(s.reqs, R.Readings(s.reqs, reply), c);
    case FileFrame(effect) =>
      if effect.Broken? { SettleTells(s.reqs, R.Owners(s.reqs, effect.requestId), c); }
      if effect.Complete? { SettleTells(s.reqs, R.Readings(s.reqs, effect.reply), c); }
    case ServerInfo(requests, rejected, failing) => EstablishTells(s.reqs, requests, rejected, failing, c);
    case _ =>
  }

  lemma UnsettledNow(r: R.Reqs, c: R.CallId)
    requires R.Inv(r)
    ensures c in r.waiters ==> c < |r.calls| && r.calls[c].wait.None?
    ensures c in r.queue ==> c < |r.calls| && r.calls[c].send.Pending?
  {
  }

  lemma RequestTold(s: State, e: Event, c: R.CallId)
    requires R.Inv(s.reqs) && Enabled(s, e)
    requires e.SendRequest? || e.AbortRequest? || e.WaiterTimesOut? || e.QueueTimesOut?
    ensures Told(s, e, c, Step(s, e).reqs)
  {
    hide R.Inv, R.Settle, R.Refuse, R.Continue, R.Abort, Send;
    assert s.reqs.frames + [] == s.reqs.frames;
    UnsettledNow(s.reqs, c);
    NothingTold(s.reqs, c);
    match e
    case SendRequest(request, aborted) => if !aborted { SendTold(s, request, c); }
    case AbortRequest(d) => AbortTells(s.reqs, d, c);
    case WaiterTimesOut(d) => SettleTells(s.reqs, map[d := R.TimedOut], c);
    case QueueTimesOut(d) => RefuseTells(s.reqs, map[d := R.TimedOut], c);
  }

  lemma SendTold(s: State, request: R.Request, c: R.CallId)
    requires R.Inv(s.reqs)
    ensures Told(s, SendRequest(request, false), c, Send(s, request).reqs)
  {
    hide R.Inv, R.SendNow, R.Hold, R.SendUnavailable;
    assert s.reqs.frames + [] == s.reqs.frames;
    UnsettledNow(s.reqs, c);
    SendNowHands(s.reqs, request, false);
    SendTells(s.reqs, request, c);
  }

  /** A new call leaves the promises of the others alone. */
  lemma SendTells(r: R.Reqs, request: R.Request, c: R.CallId)
    requires R.Inv(r)
    ensures R.Untouched(r, R.SendNow(r, request, false)) && R.Untouched(r, R.SendUnavailable(r, request))
    ensures R.Untouched(r, R.Hold(r, request.requestId, request.responseType, false))
    ensures R.SendUnavailable(r, request).frames == r.frames
    ensures R.Hold(r, request.requestId, request.responseType, false).frames == r.frames
  {
    hide R.Inv;
    R.SendNowUntouched(r, request, false);
    R.SendUnavailableUntouched(r, request);
    R.HoldUntouched(r, request.requestId, request.responseType);
  }

  lemma QuietTold(s: State, e: Event, c: R.CallId)
    requires R.Inv(s.reqs) && Enabled(s, e) && !Linked(e) && !e.MessageArrives?
    requires !e.SendRequest? && !e.AbortRequest? && !e.WaiterTimesOut? && !e.QueueTimesOut?
    requires e.CloseEnds? || s.link.status == L.Disposed ==> s.reqs.waiters == {}
    ensures Told(s, e, c, Step(s, e).reqs)
  {
    hide R.Inv, R.CloseQueue, R.CloseWaiters, L.Close, L.SetReconnectEnabled, V.StopBeat, V.DropProbe, V.OpenProbe;
    assert s.reqs.frames + [] == s.reqs.frames;
    UnsettledNow(s.reqs, c);
    CloseTells(s.reqs, c);
  }

  lemma StepTold(s: State, e: Event, c: R.CallId)
    requires Inv(s) && Enabled(s, e)
    requires e.CloseEnds? || s.link.status == L.Disposed ==> s.reqs.waiters == {}
    ensures Told(s, e, c, Step(s, e).reqs)
  {
    hide Inv, R.Inv, Told, Deliver;
    RequestsOf(s);
    if e.MessageArrives? {
      MessageTold(s, e.message, e.draw, c);
    } else if Linked(e) {
      LinkedTold(s, e, c);
    } else if e.SendRequest? || e.AbortRequest? || e.WaiterTimesOut? || e.QueueTimesOut? {
      RequestTold(s, e, c);
    } else {
      QuietTold(s, e, c);
    }
  }

  // ---------------------------------------------------------------------------
  // Every run
  // ---------------------------------------------------------------------------

  lemma RunTold(tr: seq<State>, es: seq<Event>, i: nat, c: R.CallId)
    requires Run(tr, es) && i < |es|
    ensures Told(tr[i], es[i], c, tr[i + 1].reqs)
  {
    hide Inv, Step, Told;
    RunInv(tr, es, i);
    assert StepAt(tr, es, i);
    ClosedAlone(tr, es, i);
    StepTold(tr[i], es[i], c);
  }

  lemma ClosedAlone(tr: seq<State>, es: seq<Event>, i: nat)
    requires Run(tr, es) && i < |es| && Enabled(tr[i], es[i])
    ensures es[i].CloseEnds? || tr[i].link.status == L.Disposed ==> tr[i].reqs.waiters == {}
  {
    hide R.Inv, L.Inv, V.Inv, Step;
    RunInv(tr, es, i);
    if es[i].CloseEnds? || tr[i].link.status == L.Disposed { NothingOutlivesSession(tr, es, i); }
  }

  /**
   * What each waiter is told, and when: in every run and for every event, a waiter settles in that
   * step with exactly this outcome or stays in the table. A response of its own id and type answers
   * it, unless its selector throws or declines; an error with its id, a broken reply with its id, its
   * timeouts, its abort, the failure of its held send, a loss and `close` reject it; nothing else does.
   */
  lemma WaiterExactly(tr: seq<State>, es: seq<Event>, i: nat, c: R.CallId)
    requires Run(tr, es) && i < |es| && c in tr[i].reqs.waiters
    ensures c < |tr[i].reqs.calls| && c < |tr[i + 1].reqs.calls|
    ensures tr[i + 1].reqs.calls[c].wait == WaiterTold(tr[i], es[i], c)
    ensures c in tr[i + 1].reqs.waiters <==> WaiterTold(tr[i], es[i], c).None?
  {
    hide WaiterTold, HeldBecomes, Handed;
    WaiterHeld(tr, es, i, c);
    RunTold(tr, es, i, c);
    TablesExact(tr, es, i + 1, c);
  }

  lemma WaiterHeld(tr: seq<State>, es: seq<Event>, i: nat, c: R.CallId)
    requires Run(tr, es) && i < |es| && (c in tr[i].reqs.waiters || c in tr[i].reqs.queue)
    ensures c < |tr[i].reqs.calls|
  {
    hide L.Inv, V.Inv;
    RunInv(tr, es, i);
  }

  /**
   * A waiting call is answered exactly by a response that carries its id and its type and that its
   * selector takes; a selector that throws rejects it; and an error with its id does, of any type.
   */
  lemma ReplyExactly(tr: seq<State>, es: seq<Event>, i: nat, c: R.CallId)
    requires Run(tr, es) && i < |es| && c in tr[i].reqs.waiters && ReplyOf(es[i]).Some?
    ensures c < |tr[i].reqs.calls| && c < |tr[i + 1].reqs.calls|
    ensures var reply, call, wait := ReplyOf(es[i]).value, tr[i].reqs.calls[c], tr[i + 1].reqs.calls[c].wait;
      match reply
      case Response(responseType, requestId, skipped, throwing) =>
        var own := requestId == call.requestId && responseType == call.responseType;
        && (wait == Some(R.Answered) <==> own && c !in skipped && c !in throwing)
        && (wait == Some(R.SelectorThrew) <==> own && c in throwing)
        && (c in tr[i + 1].reqs.waiters <==> !own || (c in skipped && c !in throwing))
      case ErrorReply(requestId) =>
        && (wait == Some(R.RemoteError) <==> requestId == call.requestId)
        && (c in tr[i + 1].reqs.waiters <==> requestId != call.requestId)
  {
    hide Run;
    WaiterExactly(tr, es, i, c);
  }

  /** What becomes of each held send, and when: it is sent, refused, or still held, exactly so. */
  lemma HeldExactly(tr: seq<State>, es: seq<Event>, i: nat, c: R.CallId)
    requires Run(tr, es) && i < |es| && c in tr[i].reqs.queue
    ensures c < |tr[i + 1].reqs.calls| && tr[i + 1].reqs.calls[c].send == HeldBecomes(tr[i], es[i], c)
  {
    hide WaiterTold, HeldBecomes, Handed;
    WaiterHeld(tr, es, i, c);
    RunTold(tr, es, i, c);
  }

  /**
   * Which frames each step hands over: a new request's while connected, and when a session is
   * established those of the restored requests and then of the held ones, in order; no others.
   */
  lemma HandedExactly(tr: seq<State>, es: seq<Event>, i: nat)
    requires Run(tr, es) && i < |es|
    ensures tr[i + 1].reqs.frames == tr[i].reqs.frames + Handed(tr[i], es[i])
  {
    hide WaiterTold, HeldBecomes, Handed;
    RunTold(tr, es, i, 0);
  }

  // ---------------------------------------------------------------------------
  // New calls
  // ---------------------------------------------------------------------------

  predicate Named(call: R.Call, request: R.Request) {
    call.requestId == request.requestId && call.responseType == request.responseType
  }

  lemma SendNames(r: R.Reqs, request: R.Request, restored: bool)
    ensures var r', c := R.SendNow(r, request, restored), |r.calls|;
      && |r'.calls| == c + 1 && Named(r'.calls[c], request) && !r'.calls[c].send.Pending?
      && r'.restored == if restored then r.restored + {c} else r.restored
    ensures var r', c := R.SendUnavailable(r, request), |r.calls|;
      && |r'.calls| == c + 1 && Named(r'.calls[c], request) && !r'.calls[c].send.Pending? && r'.restored == r.restored
    ensures var r', c := R.Hold(r, request.requestId, request.responseType, false), |r.calls|;
      && |r'.calls| == c + 1 && Named(r'.calls[c], request) && r'.calls[c].send.Pending? && r'.restored == r.restored
  {
    hide R.SharesId, Without;
  }

  /** Each restored request makes the call that is next in order. */
  lemma {:induction false} RestoreNames(r: R.Reqs, requests: seq<R.Request>, k: nat)
    requires R.Inv(r) && k < |requests|
    ensures var r', c := R.Restore(r, requests), |r.calls| + k;
      && c < |r'.calls| && Named(r'.calls[c], requests[k]) && !r'.calls[c].send.Pending? && c in r'.restored
    decreases |requests|
  {
    hide R.Inv, R.SendNow;
    var sent, rest := R.SendNow(r, requests[0], true), requests[1..];
    SendNames(r, requests[0], true);
    R.SendNowKeeps(r, requests[0], true);
    if k == 0 { R.RestoreKeeps(sent, rest); } else { RestoreNames(sent, rest, k - 1); }
  }

  lemma EstablishNames(
    r: R.Reqs, requests: seq<R.Request>, rejected: set<R.CallId>, failing: set<R.CallId>, k: nat)
    requires R.Inv(r) && k < |requests|
    ensures var r', c := R.Flush(R.Restore(r, requests), rejected, failing), |r.calls| + k;
      && |r'.calls| == |r.calls| + |requests|
      && Named(r'.calls[c], requests[k]) && !r'.calls[c].send.Pending? && c in r'.restored
  {
    hide R.Inv, R.Restore, R.Flush;
    RestoreNames(r, requests, k);
    RestoreHands(r, requests);
    R.RestoreKeeps(r, requests);
    var reopened := R.Restore(r, requests);
    R.FlushKeeps(reopened, rejected, failing);
    FlushGrows(reopened, rejected, failing);
  }

  lemma FlushGrows(r: R.Reqs, rejected: set<R.CallId>, failing: set<R.CallId>)
    ensures |R.Flush(r, rejected, failing).calls| == |r.calls|
  {
    hide R.SharesId;
  }

  /** The request that call `c` is made for: the caller's, or the restored one whose turn it is. */
  predicate MadeFor(s: State, e: Event, c: R.CallId, call: R.Call) {
    match e
    case SendRequest(request, aborted) => !aborted && Named(call, request)
    case MessageArrives(message, _) =>
      && message.ServerInfo? && |s.reqs.calls| <= c < |s.reqs.calls| + |message.restored|
      && Named(call, message.restored[c - |s.reqs.calls|])
    case _ => false
  }

  /**
   * A new call carries the id and the type of the request it is made for; only one made while
   * connecting is held, and only those of a new session count as restored.
   */
  lemma NewCallExactly(tr: seq<State>, es: seq<Event>, i: nat, c: R.CallId)
    requires Run(tr, es) && i < |es| && |tr[i].reqs.calls| <= c < |tr[i + 1].reqs.calls|
    ensures MadeFor(tr[i], es[i], c, tr[i + 1].reqs.calls[c])
    ensures c in tr[i + 1].reqs.queue <==> es[i].SendRequest? && tr[i].link.status == L.Connecting
    ensures es[i].MessageArrives? ==> c in tr[i + 1].reqs.restored
  {
    hide Inv, R.Inv, Deliver, R.SendNow, R.Hold, R.SendUnavailable, R.QueueExact, MadeFor;
    RunInv(tr, es, i);
    RequestsOf(tr[i]);
    assert StepAt(tr, es, i);
    TablesExact(tr, es, i + 1, c);
    NewCallOutcome(tr, es, i, c);
    NewCallStep(tr[i], es[i], c);
  }

  lemma NewCallStep(s: State, e: Event, c: R.CallId)
    requires R.Inv(s.reqs) && Enabled(s, e) && |s.reqs.calls| <= c < |Step(s, e).reqs.calls|
    requires Opened(s, e, c, R.CallOutcome(Step(s, e).reqs.calls[c]))
    ensures MadeFor(s, e, c, Step(s, e).reqs.calls[c])
    ensures Step(s, e).reqs.calls[c].send.Pending? <==> e.SendRequest? && s.link.status == L.Connecting
    ensures e.MessageArrives? ==> c in Step(s, e).reqs.restored
  {
    hide R.Inv, R.SendNow, R.Hold, R.SendUnavailable, R.Flush, R.Restore, V.Heard, V.StartBeat, L.Establish;
    if e.SendRequest? {
      SendNames(s.reqs, e.request, false);
    } else {
      EstablishNames(s.reqs, e.message.restored, e.message.rejected, e.message.failing, c - |s.reqs.calls|);
    }
  }
}
