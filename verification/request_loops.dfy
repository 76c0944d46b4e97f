/** Each turn of a loop over sends, against the function of the whole batch. */
module RequestLoops {
  import opened Prelude
  import opened Requests

  lemma SharesIdAppend(calls: seq<Call>, d: CallId, batch: seq<CallId>, c: CallId)
    requires d < |calls| && c < |calls|
    ensures SharesId(calls, d, batch + [c]) <==>
            SharesId(calls, d, batch) || calls[d].requestId == calls[c].requestId
  {
    assert c in batch + [c];
    if SharesId(calls, d, batch) { SharesIdGrows(calls, calls, d, batch, batch + [c]); }
  }

  /** The calls after one send: refused before the transport, or handed over and perhaps thrown back. */
  function Sent(calls: seq<Call>, waiters: set<CallId>, c: CallId, rejected: bool, failing: bool): seq<Call>
    requires c < |calls|
  {
    seq(|calls|, d requires 0 <= d < |calls| =>
      calls[d].(
        send := if d != c then calls[d].send else if rejected || failing then Refused(SendFailed) else Resolved,
        submitted := calls[d].submitted || (!rejected && d in waiters && calls[d].requestId == calls[c].requestId)))
  }

  lemma TransmitAppendAt(r: Reqs, batch: seq<CallId>, c: CallId, rejected: set<CallId>, failing: set<CallId>, d: CallId)
    requires c !in batch && c < |r.calls| && d < |r.calls|
    ensures var before, after := Transmit(r, batch, rejected, failing), Transmit(r, batch + [c], rejected, failing);
      after.calls[d] == Sent(before.calls, r.waiters, c, c in rejected, c in failing)[d]
  {
    hide SharesId;
    WithoutAppend(batch, c, rejected);
    SharesIdAppend(r.calls, d, Without(batch, rejected), c);
    assert d in batch + [c] <==> d in batch || d == c;
  }

  /** Transmitting one more send after `batch` is one more turn of the flush loop. */
  lemma TransmitAppend(r: Reqs, batch: seq<CallId>, c: CallId, rejected: set<CallId>, failing: set<CallId>)
    requires c !in batch && c < |r.calls|
    ensures var before, after := Transmit(r, batch, rejected, failing), Transmit(r, batch + [c], rejected, failing);
      && after.frames == (if c in rejected then before.frames else before.frames + [c])
      && after.calls == Sent(before.calls, r.waiters, c, c in rejected, c in failing)
  {
    hide SharesId;
    WithoutAppend(batch, c, rejected);
    forall d: CallId | d < |r.calls|
      ensures Transmit(r, batch + [c], rejected, failing).calls[d]
           == Sent(Transmit(r, batch, rejected, failing).calls, r.waiters, c, c in rejected, c in failing)[d]
    {
      TransmitAppendAt(r, batch, c, rejected, failing, d);
    }
  }

  lemma NothingTransmitted(r: Reqs, rejected: set<CallId>, failing: set<CallId>)
    ensures Transmit(r, [], rejected, failing).calls == r.calls && Transmit(r, [], rejected, failing).frames == r.frames
  {
    assert Without([], rejected) == [];
  }

  lemma NewestSendQueue(queue: seq<CallId>, c: CallId)
    requires c !in queue
    ensures Without(queue + [c], Elements([c])) == queue
  {
    assert Elements([c]) == {c};
    WithoutLast(queue, c);
  }

  lemma QueueOfInv(r: Reqs)
    requires Inv(r)
    ensures QueueExact(r)
  {
  }

  lemma SendOfNewest(r: Reqs, c: CallId, rejected: set<CallId>, failing: set<CallId>)
    requires c < |r.calls|
    ensures var r' := Transmit(r, [c], rejected, failing);
      && r'.calls == Sent(r.calls, r.waiters, c, c in rejected, c in failing)
      && r'.frames == if c in rejected then r.frames else r.frames + [c]
  {
    hide Sent, SharesId;
    NothingTransmitted(r, rejected, failing);
    TransmitAppend(r, [], c, rejected, failing);
    assert [] + [c] == [c];
  }

  /** The queue names each call once. */
  lemma QueuedAt(r: Reqs, i: nat)
    requires QueueExact(r) && i < |r.queue|
    ensures r.queue[i] < |r.calls| && r.queue[i] !in r.queue[..i]
  {
    assert r.queue[i] in r.queue;
  }

  lemma TransmitSize(r: Reqs, batch: seq<CallId>, rejected: set<CallId>, failing: set<CallId>)
    ensures |Transmit(r, batch, rejected, failing).calls| == |r.calls|
  {
  }

  lemma TransmitRest(r: Reqs, rejected: set<CallId>, failing: set<CallId>)
    ensures var r' := Transmit(r, r.queue, rejected, failing);
      r'.queue == [] && r'.waiters == r.waiters && r'.restored == r.restored
  {
    assert forall c :: c in r.queue ==> c in Elements(r.queue);
  }
}
