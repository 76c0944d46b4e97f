/**
 * The waiter table and the send queue as the client keeps them: fields updated in place, with a
 * loop wherever the client loops over waiters or held sends.
 */
module RequestTables {
  import opened Prelude
  import opened Requests
  import opened RequestLoops

  class RequestTable {
    var calls: seq<Call>
    var waiters: set<CallId>
    var pendingSendQueue: seq<CallId>
    ghost var frames: seq<CallId>
    ghost var restored: set<CallId>

    ghost function View(): Reqs
      reads this
    {
      Reqs(calls, waiters, pendingSendQueue, frames, restored)
    }

    constructor ()
      ensures View() == EMPTY
    {
      calls, waiters, pendingSendQueue, frames, restored := [], {}, [], [], {};
    }

    /** Rejects every waiter; a submitted one learns that its outcome is unknown. */
    method ClearWaitersAfterLoss()
      modifies this
      ensures View() == Settle(old(View()), LossVerdict(old(View())))
    {
      ghost var r := View();
      var todo := waiters;
      while todo != {}
        invariant View() == r.(calls := calls) && todo <= r.waiters && |calls| == |r.calls|
        invariant forall c: CallId :: c < |calls| ==>
          calls[c] == (if c in r.waiters && c !in todo
                       then r.calls[c].(wait := Some(Lost(r.calls[c].submitted))) else r.calls[c])
        decreases todo
      {
        var c :| c in todo;
        todo := todo - {c};
        if c < |calls| { calls := calls[c := calls[c].(wait := Some(Lost(calls[c].submitted)))]; }
      }
      waiters := {};
      assert calls == Settle(r, LossVerdict(r)).calls;
    }

    method ClearWaitersOnClose()
      modifies this
      ensures View() == CloseWaiters(old(View()))
    {
      ghost var r := View();
      var todo := waiters;
      while todo != {}
        invariant View() == r.(calls := calls) && todo <= r.waiters && |calls| == |r.calls|
        invariant forall c: CallId :: c < |calls| ==>
          calls[c] == (if c in r.waiters && c !in todo then r.calls[c].(wait := Some(Closed)) else r.calls[c])
        decreases todo
      {
        var c :| c in todo;
        todo := todo - {c};
        if c < |calls| { calls := calls[c := calls[c].(wait := Some(Closed))]; }
      }
      waiters := {};
      assert calls == CloseWaiters(r).calls;
    }

    /** The sends are taken off the queue first and then rejected one by one. */
    method RejectPendingSendQueue(error: Outcome)
      modifies this
      ensures View() == Refuse(old(View()), All(old(View()), error))
    {
      ghost var r := View();
      var queue := pendingSendQueue;
      pendingSendQueue := [];
      for i := 0 to |queue|
        invariant View() == r.(calls := calls, queue := []) && |calls| == |r.calls|
        invariant forall c: CallId :: c < |calls| ==>
          calls[c] == (if c in queue[..i] && r.calls[c].send.Pending?
                       then r.calls[c].(send := Refused(error)) else r.calls[c])
      {
        var c := queue[i];
        assert queue[..i + 1] == queue[..i] + [c];
        if c < |calls| && calls[c].send.Pending? { calls := calls[c := calls[c].(send := Refused(error))]; }
      }
      assert queue[..|queue|] == queue;
      assert calls == Refuse(r, All(r, error)).calls;
      assert Refuse(r, All(r, error)).queue == [];
    }

    /** Continuations of refused sends: each such call still in the waiter table cancels itself. */
    method RunContinuations()
      modifies this
      ensures View() == Continue(old(View()))
    {
      ghost var r := View();
      var todo := waiters;
      while todo != {}
        invariant View() == r.(calls := calls, waiters := waiters) && todo <= r.waiters && |calls| == |r.calls|
        invariant forall c: CallId :: c < |calls| ==>
          calls[c] == (if c in r.waiters && c !in todo && r.calls[c].send.Refused?
                       then r.calls[c].(wait := Some(r.calls[c].send.error)) else r.calls[c])
        invariant forall c: CallId :: c in waiters <==>
          c in r.waiters && (c in todo || !(c < |r.calls| && r.calls[c].send.Refused?))
        decreases todo
      {
        var c :| c in todo;
        todo := todo - {c};
        if c < |calls| && calls[c].send.Refused? {
          calls := calls[c := calls[c].(wait := Some(calls[c].send.error))];
          waiters := waiters - {c};
        }
      }
      assert calls == Continue(r).calls;
      assert waiters == Continue(r).waiters;
    }

    /** Rejects what a lost connection leaves behind. */
    method LoseAll()
      modifies this
      ensures View() == Lose(old(View()))
    {
      ClearWaitersAfterLoss();
      RejectPendingSendQueue(Lost(false));
      RunContinuations();
    }

    method FinishClose()
      modifies this
      ensures View() == CloseQueue(old(View()))
    {
      RejectPendingSendQueue(Closed);
      RunContinuations();
    }

    // -------------------------------------------------------------------------
    // Sending
    // -------------------------------------------------------------------------

    /** Hands the frame of call `c` to the transport, after marking every waiter of its request id. */
    method HandOver(c: CallId)
      requires c < |calls|
      modifies this
      ensures View() == old(View()).(calls := calls, frames := old(frames) + [c]) && |calls| == |old(calls)|
      ensures forall d: CallId :: d < |calls| ==> calls[d] == old(calls)[d].(
        submitted := old(calls)[d].submitted || (d in waiters && old(calls)[d].requestId == old(calls)[c].requestId))
    {
      ghost var before := calls;
      var todo := waiters;
      while todo != {}
        invariant View() == old(View()).(calls := calls) && todo <= waiters && |calls| == |before|
        invariant forall d: CallId :: d < |calls| ==> calls[d] == before[d].(
          submitted := before[d].submitted ||
                       (d in waiters && d !in todo && before[d].requestId == before[c].requestId))
        decreases todo
      {
        var d :| d in todo;
        todo := todo - {d};
        if d < |calls| && calls[d].requestId == calls[c].requestId {
          calls := calls[d := calls[d].(submitted := true)];
        }
      }
      frames := frames + [c];
    }

    /** One send: refused before the transport, or handed over, where the transport may still throw. */
    method SendFrame(c: CallId, rejected: bool, failing: bool)
      requires c < |calls|
      modifies this
      ensures View() == old(View()).(calls := calls, frames := if rejected then old(frames) else old(frames) + [c])
      ensures calls == Sent(old(calls), old(waiters), c, rejected, failing)
    {
      if rejected {
        calls := calls[c := calls[c].(send := Refused(SendFailed))];
      } else {
        HandOver(c);
        calls := calls[c := calls[c].(send := if failing then Refused(SendFailed) else Resolved)];
      }
      assert calls == Sent(old(calls), old(waiters), c, rejected, failing);
    }

    /** Sends everything that was held back while connecting, in order. */
    method TransmitPendingSendQueue(rejected: set<CallId>, failing: set<CallId>)
      requires QueueExact(View())
      modifies this
      ensures View() == Transmit(old(View()), old(View()).queue, rejected, failing)
    {
      hide Transmit, Sent;
      ghost var r := View();
      var queue := pendingSendQueue;
      pendingSendQueue := [];
      NothingTransmitted(r, rejected, failing);
      for i := 0 to |queue|
        invariant View() == r.(calls := calls, frames := frames, queue := []) && |calls| == |r.calls|
        invariant calls == Transmit(r, queue[..i], rejected, failing).calls
        invariant frames == Transmit(r, queue[..i], rejected, failing).frames
      {
        var c := queue[i];
        assert queue[..i + 1] == queue[..i] + [c];
        QueuedAt(r, i);
        TransmitAppend(r, queue[..i], c, rejected, failing);
        TransmitSize(r, queue[..i + 1], rejected, failing);
        SendFrame(c, c in rejected, c in failing);
      }
      assert queue[..|queue|] == queue;
      TransmitRest(r, rejected, failing);
    }

    method FlushPendingSendQueue(rejected: set<CallId>, failing: set<CallId>)
      requires QueueExact(View())
      modifies this
      ensures View() == Flush(old(View()), rejected, failing)
    {
      TransmitPendingSendQueue(rejected, failing);
      RunContinuations();
    }

    /** Registers a call as a waiter; its send is then queued, made or refused. */
    method AddCall(request: Request, isRestored: bool) returns (c: CallId)
      modifies this
      ensures c == |old(calls)| && pendingSendQueue == old(pendingSendQueue)
      ensures View() ==
        Hold(old(View()), request.requestId, request.responseType, isRestored).(queue := pendingSendQueue)
    {
      c := |calls|;
      calls := calls + [Call(request.requestId, request.responseType, Pending, None, false)];
      waiters := waiters + {c};
      if isRestored { restored := restored + {c}; }
    }

    method HoldCall(request: Request)
      modifies this
      ensures View() == Hold(old(View()), request.requestId, request.responseType, false)
    {
      var c := AddCall(request, false);
      pendingSendQueue := pendingSendQueue + [c];
    }

    method SendCall(request: Request, isRestored: bool)
      requires QueueExact(View())
      modifies this
      ensures View() == SendNow(old(View()), request, isRestored)
    {
      hide SharesId, Sent;
      ghost var r := View();
      var c := AddCall(request, isRestored);
      ghost var held := Hold(r, request.requestId, request.responseType, isRestored);
      ghost var rejected, failing := if request.rejected then {c} else {}, if request.failing then {c} else {};
      SendFrame(c, request.rejected, request.failing);
      SendOfNewest(held, c, rejected, failing);
      NewestSendQueue(r.queue, c);
      RunContinuations();
    }

    method RefuseCall(request: Request)
      requires QueueExact(View())
      modifies this
      ensures View() == SendUnavailable(old(View()), request)
    {
      ghost var r := View();
      var c := AddCall(request, false);
      calls := calls[c := calls[c].(send := Refused(Lost(false)))];
      ghost var verdict := map[c := Lost(false)];
      ghost var refused := Refuse(Hold(r, request.requestId, request.responseType, false), verdict);
      assert calls == refused.calls;
      assert refused.queue == r.queue by {
        assert verdict.Keys == {c};
        WithoutLast(r.queue, c);
      }
      RunContinuations();
    }

    method RestoreSubscriptions(requests: seq<Request>)
      requires Inv(View())
      modifies this
      ensures View() == Restore(old(View()), requests)
      decreases |requests|
    {
      hide SendNow, QueueExact;
      QueueOfInv(View());
      if requests != [] {
        SendNowKeeps(View(), requests[0], true);
        SendCall(requests[0], true);
        RestoreSubscriptions(requests[1..]);
      }
    }

    // -------------------------------------------------------------------------
    // Settling
    // -------------------------------------------------------------------------

    /** Takes the send of `c` out of the queue, if it is still there, and rejects it. */
    method DropQueuedSend(c: CallId, error: Outcome)
      requires QueueExact(View())
      modifies this
      ensures View() == Refuse(old(View()), map[c := error])
    {
      hide Without;
      ghost var r := View();
      assert (map[c := error]).Keys == {c};
      if c in pendingSendQueue {
        calls := calls[c := calls[c].(send := Refused(error))];
        pendingSendQueue := Without(pendingSendQueue, {c});
      } else {
        WithoutNothing(pendingSendQueue, {c});
      }
      assert calls == Refuse(r, map[c := error]).calls;
    }

    /** Settles the waiter of `c`, unless that has already happened. */
    method CancelWaiter(c: CallId, error: Outcome)
      modifies this
      ensures View() == Settle(old(View()), map[c := error])
    {
      ghost var r := View();
      if c in waiters {
        waiters := waiters - {c};
        if c < |calls| { calls := calls[c := calls[c].(wait := Some(error))]; }
      }
      assert calls == Settle(r, map[c := error]).calls;
      assert waiters == Settle(r, map[c := error]).waiters;
    }

    method AbortCall(c: CallId)
      requires QueueExact(View())
      modifies this
      ensures View() == Abort(old(View()), c)
    {
      CancelWaiter(c, Canceled);
      DropQueuedSend(c, Canceled);
      RunContinuations();
    }

    method TimeOutQueuedSend(c: CallId)
      requires QueueExact(View())
      modifies this
      ensures View() == QueueTimeout(old(View()), c)
    {
      DropQueuedSend(c, TimedOut);
      RunContinuations();
    }

    /** Offers a reply to every waiter in the table at that moment. */
    method ResolveWaiters(reply: Reply)
      modifies this
      ensures View() == Resolve(old(View()), reply)
    {
      hide Reading;
      ghost var r := View();
      var todo := waiters;
      while todo != {}
        invariant View() == r.(calls := calls, waiters := waiters) && todo <= r.waiters && |calls| == |r.calls|
        invariant forall c: CallId :: c < |calls| ==>
          calls[c] == (if c in r.waiters && c !in todo && Reading(r.calls[c], c, reply).Some?
                       then r.calls[c].(wait := Reading(r.calls[c], c, reply)) else r.calls[c])
        invariant forall c: CallId :: c in waiters <==>
          c in r.waiters && (c in todo || !(c < |r.calls| && Reading(r.calls[c], c, reply).Some?))
        decreases todo
      {
        var c :| c in todo;
        todo := todo - {c};
        if c < |calls| {
          var result := Reading(calls[c], c, reply);
          if result.Some? {
            waiters := waiters - {c};
            calls := calls[c := calls[c].(wait := result)];
          }
        }
      }
      assert calls == Resolve(r, reply).calls;
      assert waiters == Resolve(r, reply).waiters;
    }

    method RejectWaitersForRequestId(requestId: string)
      modifies this
      ensures View() == RejectOwners(old(View()), requestId)
    {
      ghost var r := View();
      var todo := waiters;
      while todo != {}
        invariant View() == r.(calls := calls, waiters := waiters) && todo <= r.waiters && |calls| == |r.calls|
        invariant forall c: CallId :: c < |calls| ==>
          calls[c] == (if c in r.waiters && c !in todo && r.calls[c].requestId == requestId
                       then r.calls[c].(wait := Some(InvalidResponse)) else r.calls[c])
        invariant forall c: CallId :: c in waiters <==>
          c in r.waiters && (c in todo || !(c < |r.calls| && r.calls[c].requestId == requestId))
        decreases todo
      {
        var c :| c in todo;
        todo := todo - {c};
        if c < |calls| && calls[c].requestId == requestId {
          waiters := waiters - {c};
          calls := calls[c := calls[c].(wait := Some(InvalidResponse))];
        }
      }
      assert calls == RejectOwners(r, requestId).calls;
      assert waiters == RejectOwners(r, requestId).waiters;
    }
  }
}
