/** New calls: which step makes them, and what they are told in that same step. */
module SessionCalls {
  import opened Prelude
  import opened Session
  import opened SessionSafety
  import opened SessionRuns
  import opened SessionSends
  import L = Link
  import R = Requests
  import V = Liveness

  /** What a frame sent at once leaves its call with: an answer to wait for, or the failure of the send. */
  function SentOutcome(request: R.Request): Option<R.Outcome> {
    if request.rejected || request.failing then Some(R.SendFailed) else None
  }

  /** What a caller learns at once: nothing while connected or connecting, unless the send fails; else the loss. */
  function ImmediateOutcome(s: State, request: R.Request): Option<R.Outcome> {
    if s.link.transport.Some? && s.link.status == L.Connected then SentOutcome(request)
    else if s.link.status == L.Connecting then None
    else Some(R.Lost(false))
  }

  /** Call `c` is new with event `e`, and this is what it is told in that step. */
  predicate Opened(s: State, e: Event, c: R.CallId, told: Option<R.Outcome>) {
    var first := |s.reqs.calls|;
    if e.SendRequest? then !e.aborted && c == first && told == ImmediateOutcome(s, e.request)
    else
      && e.MessageArrives? && e.message.ServerInfo? && s.link.status == L.Connecting
      && first <= c < first + |e.message.restored| && told == SentOutcome(e.message.restored[c - first])
  }

  // ---------------------------------------------------------------------------
  // One request
  // ---------------------------------------------------------------------------

  lemma SendNowTells(r: R.Reqs, request: R.Request, restored: bool)
    ensures var r' := R.SendNow(r, request, restored);
      && |r'.calls| == |r.calls| + 1
      && R.CallOutcome(r'.calls[|r.calls|]) == SentOutcome(request)
      && !r'.calls[|r.calls|].send.Pending?
      && r'.calls[|r.calls|].wait == SentOutcome(request)
  {
    hide R.SharesId, Without;
    assert R.Hold(r, request.requestId, request.responseType, restored).calls[|r.calls|].wait.None?;
  }

  lemma HoldTells(r: R.Reqs, request: R.Request)
    ensures var r' := R.Hold(r, request.requestId, request.responseType, false);
      |r'.calls| == |r.calls| + 1 && R.CallOutcome(r'.calls[|r.calls|]).None?
  {
  }

  lemma UnavailableTells(r: R.Reqs, request: R.Request)
    ensures var r' := R.SendUnavailable(r, request);
      |r'.calls| == |r.calls| + 1 && R.CallOutcome(r'.calls[|r.calls|]) == Some(R.Lost(false))
  {
    hide Without;
  }

  // ---------------------------------------------------------------------------
  // The requests of a new session
  // ---------------------------------------------------------------------------

  /** A call that has been sent keeps both promises as they are through later sends. */
  lemma {:induction false} RestoreTells(r: R.Reqs, requests: seq<R.Request>, k: nat)
    requires R.Inv(r) && k < |requests|
    ensures var r' := R.Restore(r, requests);
      && |r'.calls| == |r.calls| + |requests|
      && !r'.calls[|r.calls| + k].send.Pending?
      && R.CallOutcome(r'.calls[|r.calls| + k]) == SentOutcome(requests[k])
    decreases |requests|
  {
    hide R.Inv, R.SendNow;
    var sent, rest := R.SendNow(r, requests[0], true), requests[1..];
    SendNowTells(r, requests[0], true);
    R.SendNowKeeps(r, requests[0], true);
    if k == 0 {
      R.RestoreUntouched(sent, rest);
      RestoreSize(sent, rest);
    } else {
      RestoreTells(sent, rest, k - 1);
      assert rest[k - 1] == requests[k];
    }
  }

  lemma {:induction false} RestoreSize(r: R.Reqs, requests: seq<R.Request>)
    ensures |R.Restore(r, requests).calls| == |r.calls| + |requests|
    decreases |requests|
  {
    hide R.SendNow;
    if requests != [] {
      SendNowTells(r, requests[0], true);
      RestoreSize(R.SendNow(r, requests[0], true), requests[1..]);
    }
  }

  lemma EstablishTells(
    r: R.Reqs, requests: seq<R.Request>, rejected: set<R.CallId>, failing: set<R.CallId>, k: nat)
    requires R.Inv(r) && k < |requests|
    ensures var r' := R.Flush(R.Restore(r, requests), rejected, failing);
      && |r'.calls| == |r.calls| + |requests|
      && R.CallOutcome(r'.calls[|r.calls| + k]) == SentOutcome(requests[k])
  {
    hide R.Restore, R.Flush, R.Inv;
    var reopened := R.Restore(r, requests);
    R.RestoreKeeps(r, requests);
    RestoreTells(r, requests, k);
    FlushSpares(reopened, rejected, failing, |r.calls| + k);
  }

  /** The flush settles nothing but the sends that were held. */
  lemma FlushSpares(r: R.Reqs, rejected: set<R.CallId>, failing: set<R.CallId>, c: R.CallId)
    requires R.Inv(r) && c < |r.calls| && !r.calls[c].send.Pending?
    ensures var r' := R.Flush(r, rejected, failing);
      |r'.calls| == |r.calls| && R.CallOutcome(r'.calls[c]) == R.CallOutcome(r.calls[c])
  {
    hide R.SharesId, R.UnknownEarned, R.LossHonest, R.FramesOrdered;
  }

  // ---------------------------------------------------------------------------
  // Every step
  // ---------------------------------------------------------------------------

  lemma MessageCalls(s: State, message: Inbound, draw: L.Draw, c: R.CallId)
    requires R.Inv(s.reqs) && |s.reqs.calls| <= c < |Deliver(s, message, draw).reqs.calls|
    ensures Opened(s, MessageArrives(message, draw), c, R.CallOutcome(Deliver(s, message, draw).reqs.calls[c]))
  {
    hide R.Inv, R.Flush, R.Restore, L.Lose, L.Dispose, L.Establish, V.Heard, V.SettleProbe, V.StartBeat;
    if message.ServerInfo? && s.link.status == L.Connecting {
      RestoreSize(s.reqs, message.restored);
      FlushSize(R.Restore(s.reqs, message.restored), message.rejected, message.failing);
      EstablishTells(s.reqs, message.restored, message.rejected, message.failing, c - |s.reqs.calls|);
    }
  }

  lemma FlushSize(r: R.Reqs, rejected: set<R.CallId>, failing: set<R.CallId>)
    ensures |R.Flush(r, rejected, failing).calls| == |r.calls|
  {
  }

  lemma OldRequests(s: State, e: Event)
    requires Enabled(s, e) && !e.MessageArrives? && !e.SendRequest?
    ensures |Step(s, e).reqs.calls| == |s.reqs.calls|
  {
    hide R.Lose, L.Close, V.StopBeat, V.DropProbe;
    LoseSize(s.reqs);
    if e.AbortRequest? || e.WaiterTimesOut? || e.QueueTimesOut? || e.CloseBegins? || e.CloseEnds? {
    } else {
      LossOrNothing(s, e);
    }
  }

  lemma LoseSize(r: R.Reqs)
    ensures |R.Lose(r).calls| == |r.calls|
  {
  }

  lemma NewCalls(s: State, e: Event, c: R.CallId)
    requires R.Inv(s.reqs) && Enabled(s, e) && |s.reqs.calls| <= c < |Step(s, e).reqs.calls|
    ensures Opened(s, e, c, R.CallOutcome(Step(s, e).reqs.calls[c]))
  {
    hide R.Inv, Deliver, R.SendNow, R.Hold, R.SendUnavailable;
    if e.MessageArrives? {
      MessageCalls(s, e.message, e.draw, c);
    } else if e.SendRequest? {
      SendNowTells(s.reqs, e.request, false);
      HoldTells(s.reqs, e.request);
      UnavailableTells(s.reqs, e.request);
    } else {
      OldRequests(s, e);
    }
  }

  /**
   * A call appears only when it is made, or asked for again on a new session, and what it may be
   * told in that very step is a failed send or, without a connection, the loss: nothing else.
   */
  lemma NewCallOutcome(tr: seq<State>, es: seq<Event>, i: nat, c: R.CallId)
    requires Run(tr, es) && i < |es| && |tr[i].reqs.calls| <= c < |tr[i + 1].reqs.calls|
    ensures Opened(tr[i], es[i], c, R.CallOutcome(tr[i + 1].reqs.calls[c]))
  {
    hide Step, Enabled, Opened;
    RunInv(tr, es, i);
    assert StepAt(tr, es, i);
    NewCalls(tr[i], es[i], c);
  }

  /** A request makes exactly one call, and one whose signal has already fired makes none. */
  lemma RequestOpensCall(tr: seq<State>, es: seq<Event>, i: nat)
    requires Run(tr, es) && i < |es| && es[i].SendRequest?
    ensures |tr[i + 1].reqs.calls| == |tr[i].reqs.calls| + if es[i].aborted then 0 else 1
  {
    hide R.SendNow, R.Hold, R.SendUnavailable;
    assert StepAt(tr, es, i);
    SendNowTells(tr[i].reqs, es[i].request, false);
    HoldTells(tr[i].reqs, es[i].request);
    UnavailableTells(tr[i].reqs, es[i].request);
  }
}
