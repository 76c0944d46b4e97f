/**
 * Requests of one client: the calls made through `sendRequest`, the waiter table, the queue of
 * sends held back while connecting, and the frames handed to a transport.
 *
 * A call owns two write-once promises. `send` settles when its frame has been handed over or
 * refused; `wait` settles when the waiter is answered, rejected, timed out, aborted or lost.
 * `frames` is the history of calls whose frame reached `transport.send`, in order.
 */
module Requests {
  import opened Prelude

  type CallId = nat

  datatype Outcome =
    | Answered
    | RemoteError
    | SelectorThrew
    | InvalidResponse
    | TimedOut
    | Canceled
    | Lost(unknown: bool)
    | Closed
    | SendFailed

  datatype Send = Pending | Resolved | Refused(error: Outcome)

  datatype Call = Call(requestId: string, responseType: string, send: Send, wait: Option<Outcome>, submitted: bool)

  /** `restored` calls re-open subscriptions when a session is established, ahead of the held sends. */
  datatype Reqs = Reqs(
    calls: seq<Call>,
    waiters: set<CallId>,
    queue: seq<CallId>,
    frames: seq<CallId>,
    restored: set<CallId>)

  const EMPTY := Reqs([], {}, [], [], {})

  /** What the caller of `sendRequest` sees: the send's error, otherwise whatever the waiter says. */
  function CallOutcome(call: Call): Option<Outcome> {
    match call.send
    case Pending => None
    case Refused(error) => Some(error)
    case Resolved => call.wait
  }

  // ---------------------------------------------------------------------------
  // Steps
  // ---------------------------------------------------------------------------

  /** Settles exactly the waiters `verdict` names; the others stay. */
  function Settle(r: Reqs, verdict: map<CallId, Outcome>): Reqs {
    r.(calls := seq(|r.calls|, c requires 0 <= c < |r.calls| =>
                    if c in r.waiters && c in verdict then r.calls[c].(wait := Some(verdict[c])) else r.calls[c]),
       waiters := r.waiters - verdict.Keys)
  }

  /** Drops the sends `verdict` names from the queue and rejects their send promises. */
  function Refuse(r: Reqs, verdict: map<CallId, Outcome>): Reqs {
    r.(calls := seq(|r.calls|, c requires 0 <= c < |r.calls| =>
                    if c in verdict && r.calls[c].send.Pending?
                    then r.calls[c].(send := Refused(verdict[c])) else r.calls[c]),
       queue := Without(r.queue, verdict.Keys))
  }

  /** Promise continuation of a refused send: the call cancels its own waiter with the same error. */
  function Continuations(r: Reqs): map<CallId, Outcome> {
    map c | c in r.waiters && c < |r.calls| && r.calls[c].send.Refused? :: r.calls[c].send.error
  }

  function Continue(r: Reqs): Reqs {
    Settle(r, Continuations(r))
  }

  /** A new call, registered as a waiter with its send still to be made. */
  function Hold(r: Reqs, requestId: string, responseType: string, restored: bool): Reqs {
    Reqs(r.calls + [Call(requestId, responseType, Pending, None, false)],
         r.waiters + {|r.calls|}, r.queue + [|r.calls|], r.frames,
         if restored then r.restored + {|r.calls|} else r.restored)
  }

  predicate SharesId(calls: seq<Call>, c: CallId, batch: seq<CallId>) {
    c < |calls| && exists d: CallId :: d in batch && d < |calls| && calls[d].requestId == calls[c].requestId
  }

  /**
   * Makes the sends of `batch`. A `rejected` frame never reaches the transport; a `failing` one
   * does, and then `transport.send` throws. Every handed frame marks the waiters of its request id.
   */
  function Transmit(r: Reqs, batch: seq<CallId>, rejected: set<CallId>, failing: set<CallId>): Reqs {
    var handed := Without(batch, rejected);
    r.(calls := seq(|r.calls|, c requires 0 <= c < |r.calls| =>
                    r.calls[c].(
                      send := if c !in batch then r.calls[c].send
                              else if c in rejected || c in failing then Refused(SendFailed) else Resolved,
                      submitted := r.calls[c].submitted || (c in r.waiters && SharesId(r.calls, c, handed)))),
       queue := Without(r.queue, Elements(batch)),
       frames := r.frames + handed)
  }

  function All(r: Reqs, error: Outcome): map<CallId, Outcome> {
    map c | c in r.queue :: error
  }

  function LossVerdict(r: Reqs): map<CallId, Outcome> {
    map c | c in r.waiters :: Lost(c < |r.calls| && r.calls[c].submitted)
  }

  /** Connection loss: every waiter and every queued send is rejected. */
  function Lose(r: Reqs): Reqs {
    var cleared := Settle(r, LossVerdict(r));
    Continue(Refuse(cleared, All(cleared, Lost(false))))
  }

  /** `close` rejects the waiters at once and the queued sends after its owned subscriptions ended. */
  function CloseWaiters(r: Reqs): Reqs {
    Settle(r, map c | c in r.waiters :: Closed)
  }

  function CloseQueue(r: Reqs): Reqs {
    Continue(Refuse(r, All(r, Closed)))
  }

  function Flush(r: Reqs, rejected: set<CallId>, failing: set<CallId>): Reqs {
    Continue(Transmit(r, r.queue, rejected, failing))
  }

  /** What a caller asks for, and what becomes of its frame if it is sent at once. */
  datatype Request = Request(requestId: string, responseType: string, rejected: bool, failing: bool)

  function SendNow(r: Reqs, request: Request, restored: bool): Reqs {
    var c := |r.calls|;
    Continue(Transmit(Hold(r, request.requestId, request.responseType, restored), [c],
                      if request.rejected then {c} else {}, if request.failing then {c} else {}))
  }

  function SendUnavailable(r: Reqs, request: Request): Reqs {
    Continue(Refuse(Hold(r, request.requestId, request.responseType, false), map[|r.calls| := Lost(false)]))
  }

  /** The subscriptions of the previous session are asked for again, in order. */
  function Restore(r: Reqs, requests: seq<Request>): Reqs
    decreases |requests|
  {
    if requests == [] then r else Restore(SendNow(r, requests[0], true), requests[1..])
  }

  function Abort(r: Reqs, c: CallId): Reqs {
    Continue(Refuse(Settle(r, map[c := Canceled]), map[c := Canceled]))
  }

  function QueueTimeout(r: Reqs, c: CallId): Reqs {
    Continue(Refuse(r, map[c := TimedOut]))
  }

  function WaiterTimeout(r: Reqs, c: CallId): Reqs {
    Settle(r, map[c := TimedOut])
  }

  /**
   * An inbound message as the waiters see it. `skipped` and `throwing` are the calls whose own
   * payload selector declines or throws on a response that already matches their id and type.
   */
  datatype Reply =
    | ErrorReply(requestId: string)
    | Response(responseType: string, requestId: string, skipped: set<CallId>, throwing: set<CallId>)

  function Reading(call: Call, c: CallId, reply: Reply): Option<Outcome> {
    if reply.requestId != call.requestId then None
    else match reply
      case ErrorReply(_) => Some(RemoteError)
      case Response(responseType, _, skipped, throwing) =>
        if responseType != call.responseType then None
        else if c in throwing then Some(SelectorThrew)
        else if c in skipped then None
        else Some(Answered)
  }

  function Readings(r: Reqs, reply: Reply): map<CallId, Outcome> {
    map c | c in r.waiters && c < |r.calls| && Reading(r.calls[c], c, reply).Some? ::
      Reading(r.calls[c], c, reply).value
  }

  function Resolve(r: Reqs, reply: Reply): Reqs {
    Settle(r, Readings(r, reply))
  }

  function Owners(r: Reqs, requestId: string): map<CallId, Outcome> {
    map c | c in r.waiters && c < |r.calls| && r.calls[c].requestId == requestId :: InvalidResponse
  }

  /** A response that fails validation, or a broken file transfer, rejects the waiters of its id. */
  function RejectOwners(r: Reqs, requestId: string): Reqs {
    Settle(r, Owners(r, requestId))
  }

  // ---------------------------------------------------------------------------
  // What every step keeps
  // ---------------------------------------------------------------------------

  /** A waiter is in the table exactly while its promise is unsettled. */
  ghost predicate WaitersExact(r: Reqs) {
    forall c: CallId :: c in r.waiters <==> c < |r.calls| && r.calls[c].wait.None?
  }

  /** A send is queued exactly while its promise is unsettled, and the queue is in call order. */
  ghost predicate QueueExact(r: Reqs) {
    && Increasing(r.queue)
    && (forall c: CallId :: c in r.queue <==> c < |r.calls| && r.calls[c].send.Pending?)
  }

  /** `c` went out before `d`: they differ, and unless one was restored they are in call order. */
  predicate InOrder(restored: set<CallId>, c: CallId, d: CallId) {
    c != d && (c !in restored && d !in restored ==> c < d)
  }

  /** No frame went out twice, and all but restored ones went out in call order, ahead of the queue. */
  ghost predicate FramesOrdered(r: Reqs) {
    && (forall i, j :: 0 <= i < j < |r.frames| ==> InOrder(r.restored, r.frames[i], r.frames[j]))
    && (forall c: CallId :: c in r.frames ==> c < |r.calls| && !r.calls[c].send.Pending?)
    && (forall c: CallId, d: CallId :: c in r.frames && d in r.queue ==> InOrder(r.restored, c, d))
  }

  /** No promise that says "lost, and not sent" belongs to a call whose frame was handed over. */
  ghost predicate LossHonest(r: Reqs) {
    && (forall c: CallId :: c < |r.calls| && c in r.frames && r.calls[c].wait.None? ==> r.calls[c].submitted)
    && (forall c: CallId :: c < |r.calls| && r.calls[c].wait == Some(Lost(false)) ==> c !in r.frames)
    && (forall c: CallId :: c < |r.calls| && r.calls[c].send.Refused? && r.calls[c].send.error.Lost? ==>
          !r.calls[c].send.error.unknown && c !in r.frames)
  }

  /** "Unknown" is only said of a request id that really was handed to a transport. */
  ghost predicate UnknownEarned(r: Reqs) {
    forall c: CallId :: c < |r.calls| && (r.calls[c].submitted || r.calls[c].wait == Some(Lost(true))) ==>
      SharesId(r.calls, c, r.frames)
  }

  ghost predicate Core(r: Reqs) {
    WaitersExact(r) && QueueExact(r) && FramesOrdered(r) && LossHonest(r) && UnknownEarned(r)
  }

  /** Between steps no continuation is outstanding and no queued call has already been lost. */
  ghost predicate Inv(r: Reqs) {
    && Core(r)
    && (forall c: CallId :: c < |r.calls| && r.calls[c].send.Refused? ==> r.calls[c].wait.Some?)
    && (forall c: CallId :: c < |r.calls| && r.calls[c].send.Pending? ==> r.calls[c].wait != Some(Lost(false)))
  }

  /** Nothing settled is ever revised, nothing handed over is taken back, and no settled send goes out. */
  ghost predicate Extends(r: Reqs, r': Reqs) {
    && |r.calls| <= |r'.calls|
    && r.frames <= r'.frames
    && r.restored <= r'.restored
    && (forall c :: c in r'.restored && c !in r.restored ==> |r.calls| <= c < |r'.calls|)
    && (forall c: CallId :: c in r'.frames && c < |r.calls| && !r.calls[c].send.Pending? ==> c in r.frames)
    && forall c: CallId :: c < |r.calls| ==>
         && r'.calls[c].requestId == r.calls[c].requestId
         && r'.calls[c].responseType == r.calls[c].responseType
         && (r.calls[c].wait.Some? ==> r'.calls[c].wait == r.calls[c].wait)
         && (!r.calls[c].send.Pending? ==> r'.calls[c].send == r.calls[c].send)
  }

  /** Sharing a request id with a member of `batch` survives growth of the table and of the batch. */
  lemma SharesIdGrows(calls: seq<Call>, calls': seq<Call>, c: CallId, batch: seq<CallId>, batch': seq<CallId>)
    requires SharesId(calls, c, batch) && |calls| <= |calls'|
    requires forall d: CallId :: d < |calls| ==> calls'[d].requestId == calls[d].requestId
    requires forall d: CallId :: d in batch ==> d in batch'
    ensures SharesId(calls', c, batch')
  {
    var d: CallId :| d in batch && d < |calls| && calls[d].requestId == calls[c].requestId;
    assert d in batch';
  }

  /** Requests that are left alone extend themselves and bring no news. */
  lemma ExtendsSelf(r: Reqs)
    ensures Extends(r, r) && forall c, o :: !News(r, r, c, o)
  {
  }

  lemma ExtendsTransitive(a: Reqs, b: Reqs, c: Reqs)
    requires Extends(a, b) && Extends(b, c)
    ensures Extends(a, c)
  {
  }

  lemma SettleKeeps(r: Reqs, verdict: map<CallId, Outcome>)
    requires Core(r)
    requires forall c: CallId :: c in verdict && c in r.waiters && verdict[c] == Lost(false) ==> c !in r.frames
    requires forall c: CallId :: c in verdict && c in r.waiters && verdict[c] == Lost(true) ==> r.calls[c].submitted
    ensures Core(Settle(r, verdict)) && Extends(r, Settle(r, verdict))
  {
    var r' := Settle(r, verdict);
    forall c: CallId | c < |r'.calls| && (r'.calls[c].submitted || r'.calls[c].wait == Some(Lost(true)))
      ensures SharesId(r'.calls, c, r'.frames)
    {
      SharesIdGrows(r.calls, r'.calls, c, r.frames, r'.frames);
    }
  }

  lemma RefuseKeeps(r: Reqs, verdict: map<CallId, Outcome>)
    requires Core(r)
    requires forall c: CallId :: c in verdict ==> verdict[c] != Lost(true)
    ensures Core(Refuse(r, verdict)) && Extends(r, Refuse(r, verdict))
  {
    var r' := Refuse(r, verdict);
    forall c: CallId | c < |r'.calls| && (r'.calls[c].submitted || r'.calls[c].wait == Some(Lost(true)))
      ensures SharesId(r'.calls, c, r'.frames)
    {
      SharesIdGrows(r.calls, r'.calls, c, r.frames, r'.frames);
    }
  }

  lemma ContinueKeeps(r: Reqs)
    requires Core(r)
    requires forall c: CallId :: c < |r.calls| && r.calls[c].send.Pending? ==> r.calls[c].wait != Some(Lost(false))
    ensures Inv(Continue(r)) && Extends(r, Continue(r))
  {
    SettleKeeps(r, Continuations(r));
  }

  lemma HoldOrdered(r: Reqs, requestId: string, responseType: string, restored: bool)
    requires Core(r)
    ensures var r' := Hold(r, requestId, responseType, restored);
      QueueExact(r') && FramesOrdered(r')
  {
    IncreasingConcat(r.queue, [|r.calls|]);
    assert forall i :: 0 <= i < |r.frames| ==> r.frames[i] in r.frames;
  }

  lemma HoldKeeps(r: Reqs, requestId: string, responseType: string, restored: bool)
    requires Inv(r)
    ensures var r' := Hold(r, requestId, responseType, restored);
      Inv(r') && Extends(r, r')
  {
    var r' := Hold(r, requestId, responseType, restored);
    HoldOrdered(r, requestId, responseType, restored);
    forall c: CallId | c < |r'.calls| && (r'.calls[c].submitted || r'.calls[c].wait == Some(Lost(true)))
      ensures SharesId(r'.calls, c, r'.frames)
    {
      SharesIdGrows(r.calls, r'.calls, c, r.frames, r'.frames);
    }
  }

  /** Sends that may go out now: queued, in order, and not overtaking unless restored. */
  ghost predicate Ready(r: Reqs, batch: seq<CallId>) {
    && Increasing(batch)
    && (forall c :: c in batch ==> c in r.queue)
    && (forall c: CallId, d: CallId :: c in batch && d in r.queue && d !in batch ==> InOrder(r.restored, c, d))
  }

  lemma TransmitEarned(r: Reqs, batch: seq<CallId>, rejected: set<CallId>, failing: set<CallId>)
    requires Core(r)
    ensures UnknownEarned(Transmit(r, batch, rejected, failing))
  {
    var r' := Transmit(r, batch, rejected, failing);
    var handed := Without(batch, rejected);
    forall c: CallId | c < |r'.calls| && (r'.calls[c].submitted || r'.calls[c].wait == Some(Lost(true)))
      ensures SharesId(r'.calls, c, r'.frames)
    {
      SharesIdGrows(r.calls, r'.calls, c, if SharesId(r.calls, c, handed) then handed else r.frames, r'.frames);
    }
  }

  lemma TransmitHonest(r: Reqs, batch: seq<CallId>, rejected: set<CallId>, failing: set<CallId>)
    requires Inv(r) && Ready(r, batch)
    ensures LossHonest(Transmit(r, batch, rejected, failing))
  {
    var r' := Transmit(r, batch, rejected, failing);
    var handed := Without(batch, rejected);
    forall c: CallId | c in handed && r'.calls[c].wait.None?
      ensures r'.calls[c].submitted
    {
      assert SharesId(r.calls, c, handed);
    }
  }

  lemma TransmitOrdered(r: Reqs, batch: seq<CallId>, rejected: set<CallId>, failing: set<CallId>)
    requires Inv(r) && Ready(r, batch)
    ensures FramesOrdered(Transmit(r, batch, rejected, failing))
  {
    var r' := Transmit(r, batch, rejected, failing);
    var handed := Without(batch, rejected);
    assert forall i :: 0 <= i < |handed| ==> handed[i] in handed;
    assert forall i :: 0 <= i < |r.frames| ==> r.frames[i] in r.frames;
    forall i, j | 0 <= i < j < |r'.frames|
      ensures InOrder(r'.restored, r'.frames[i], r'.frames[j])
    {
      if j < |r.frames| { assert InOrder(r.restored, r.frames[i], r.frames[j]); }
      else if i < |r.frames| { assert InOrder(r.restored, r.frames[i], handed[j - |r.frames|]); }
      else { assert handed[i - |r.frames|] < handed[j - |r.frames|]; }
    }
    forall c: CallId, d: CallId | c in r'.frames && d in r'.queue
      ensures InOrder(r'.restored, c, d)
    {
      assert InOrder(r.restored, c, d);
    }
  }

  lemma TransmitExtends(r: Reqs, batch: seq<CallId>, rejected: set<CallId>, failing: set<CallId>)
    requires Inv(r) && Ready(r, batch)
    ensures Extends(r, Transmit(r, batch, rejected, failing))
  {
    hide SharesId, FramesOrdered, LossHonest, UnknownEarned, InOrder, Increasing;
  }

  /** The tables stay exact, and what is still pending was pending before and not sent now. */
  lemma TransmitTables(r: Reqs, batch: seq<CallId>, rejected: set<CallId>, failing: set<CallId>)
    requires Inv(r) && Ready(r, batch)
    ensures var r' := Transmit(r, batch, rejected, failing);
      && WaitersExact(r') && QueueExact(r')
      && forall c: CallId :: c < |r'.calls| && r'.calls[c].send.Pending? ==> r.calls[c].send.Pending? && c !in batch
  {
    hide SharesId, FramesOrdered, LossHonest, UnknownEarned, InOrder, Increasing;
    assert forall c: CallId :: c in batch ==> c in Elements(batch);
  }

  lemma TransmitKeeps(r: Reqs, batch: seq<CallId>, rejected: set<CallId>, failing: set<CallId>)
    requires Inv(r) && Ready(r, batch)
    ensures var r' := Transmit(r, batch, rejected, failing);
      && Core(r') && Extends(r, r')
      && forall c: CallId :: c < |r'.calls| && r'.calls[c].send.Pending? ==> r.calls[c].send.Pending? && c !in batch
  {
    hide SharesId, Transmit, Ready, WaitersExact, QueueExact, FramesOrdered, LossHonest, UnknownEarned, Extends;
    TransmitTables(r, batch, rejected, failing);
    TransmitEarned(r, batch, rejected, failing);
    TransmitHonest(r, batch, rejected, failing);
    TransmitOrdered(r, batch, rejected, failing);
    TransmitExtends(r, batch, rejected, failing);
  }

  lemma FlushKeeps(r: Reqs, rejected: set<CallId>, failing: set<CallId>)
    requires Inv(r)
    ensures Inv(Flush(r, rejected, failing)) && Extends(r, Flush(r, rejected, failing))
    ensures Flush(r, rejected, failing).queue == []
    ensures Flush(r, rejected, failing).frames == r.frames + Without(r.queue, rejected)
  {
    assert forall c: CallId :: c in r.queue ==> c in Elements(r.queue);
    TransmitKeeps(r, r.queue, rejected, failing);
    ContinueKeeps(Transmit(r, r.queue, rejected, failing));
  }

  lemma NewestReady(r: Reqs, requestId: string, responseType: string, restored: bool)
    requires QueueExact(r) && (restored || r.queue == [])
    ensures Ready(Hold(r, requestId, responseType, restored), [|r.calls|])
  {
  }

  lemma SendNowQueue(r: Reqs, request: Request, restored: bool)
    requires QueueExact(r)
    ensures SendNow(r, request, restored).queue == r.queue
  {
    assert Elements([|r.calls|]) == {|r.calls|};
    WithoutLast(r.queue, |r.calls|);
  }

  lemma SendNowKeeps(r: Reqs, request: Request, restored: bool)
    requires Inv(r) && (restored || r.queue == [])
    ensures var r' := SendNow(r, request, restored);
      Inv(r') && Extends(r, r') && r'.queue == r.queue
  {
    SendNowQueue(r, request, restored);
    var held := Hold(r, request.requestId, request.responseType, restored);
    var c := |r.calls|;
    HoldKeeps(r, request.requestId, request.responseType, restored);
    NewestReady(r, request.requestId, request.responseType, restored);
    SendContinues(held, c, if request.rejected then {c} else {}, if request.failing then {c} else {});
    ExtendsTransitive(r, held, SendNow(r, request, restored));
  }

  lemma SendContinues(r: Reqs, c: CallId, rejected: set<CallId>, failing: set<CallId>)
    requires Inv(r) && Ready(r, [c])
    ensures var sent := Transmit(r, [c], rejected, failing);
      Inv(Continue(sent)) && Extends(r, Continue(sent))
  {
    var sent := Transmit(r, [c], rejected, failing);
    TransmitKeeps(r, [c], rejected, failing);
    ContinueKeeps(sent);
    ExtendsTransitive(r, sent, Continue(sent));
  }

  lemma {:induction false} RestoreKeeps(r: Reqs, requests: seq<Request>)
    requires Inv(r)
    ensures var r' := Restore(r, requests);
      Inv(r') && Extends(r, r') && r'.queue == r.queue
    decreases |requests|
  {
    if requests != [] {
      var sent := SendNow(r, requests[0], true);
      SendNowKeeps(r, requests[0], true);
      RestoreKeeps(sent, requests[1..]);
      ExtendsTransitive(r, sent, Restore(sent, requests[1..]));
    }
  }

  lemma RefuseContinueKeeps(r: Reqs, verdict: map<CallId, Outcome>)
    requires Inv(r)
    requires forall c: CallId :: c in verdict ==> verdict[c] != Lost(true)
    ensures var r' := Continue(Refuse(r, verdict));
      Inv(r') && Extends(r, r') && r'.queue == Without(r.queue, verdict.Keys)
  {
    RefuseKeeps(r, verdict);
    ContinueKeeps(Refuse(r, verdict));
  }

  lemma SendUnavailableKeeps(r: Reqs, request: Request)
    requires Inv(r)
    ensures var r' := SendUnavailable(r, request);
      Inv(r') && Extends(r, r') && r'.queue == r.queue
  {
    var held, verdict := Hold(r, request.requestId, request.responseType, false), map[|r.calls| := Lost(false)];
    HoldKeeps(r, request.requestId, request.responseType, false);
    assert Without(held.queue, verdict.Keys) == r.queue by {
      assert verdict.Keys == {|r.calls|};
      WithoutLast(r.queue, |r.calls|);
    }
    RefuseContinueKeeps(held, verdict);
    ExtendsTransitive(r, held, Continue(Refuse(held, verdict)));
  }

  lemma LoseKeeps(r: Reqs)
    requires Inv(r)
    ensures Inv(Lose(r)) && Extends(r, Lose(r))
    ensures Lose(r).waiters == {} && Lose(r).queue == []
  {
    var cleared := Settle(r, LossVerdict(r));
    SettleKeeps(r, LossVerdict(r));
    assert cleared.waiters == {};
    var refused := Refuse(cleared, All(cleared, Lost(false)));
    RefuseKeeps(cleared, All(cleared, Lost(false)));
    assert refused.queue == [];
    ExtendsTransitive(r, cleared, refused);
    ContinueKeeps(refused);
    ExtendsTransitive(r, refused, Continue(refused));
  }

  lemma CloseWaitersKeeps(r: Reqs)
    requires Inv(r)
    ensures Inv(CloseWaiters(r)) && Extends(r, CloseWaiters(r)) && CloseWaiters(r).waiters == {}
  {
    SettleKeeps(r, map c | c in r.waiters :: Closed);
  }

  lemma CloseQueueKeeps(r: Reqs)
    requires Inv(r)
    ensures Inv(CloseQueue(r)) && Extends(r, CloseQueue(r)) && CloseQueue(r).queue == []
  {
    RefuseContinueKeeps(r, All(r, Closed));
  }

  lemma AbortKeeps(r: Reqs, c: CallId)
    requires Inv(r)
    ensures Inv(Abort(r, c)) && Extends(r, Abort(r, c))
    ensures r.queue == [] ==> Abort(r, c).queue == []
  {
    SettleKeeps(r, map[c := Canceled]);
    var settled := Settle(r, map[c := Canceled]);
    RefuseContinueKeeps(settled, map[c := Canceled]);
  }

  lemma QueueTimeoutKeeps(r: Reqs, c: CallId)
    requires Inv(r)
    ensures Inv(QueueTimeout(r, c)) && Extends(r, QueueTimeout(r, c))
    ensures r.queue == [] ==> QueueTimeout(r, c).queue == []
  {
    RefuseContinueKeeps(r, map[c := TimedOut]);
  }

  /** Settling with anything but a loss keeps every boundary invariant. */
  lemma AnswerKeeps(r: Reqs, verdict: map<CallId, Outcome>)
    requires Inv(r)
    requires forall c: CallId :: c in verdict ==> !verdict[c].Lost?
    ensures Inv(Settle(r, verdict)) && Extends(r, Settle(r, verdict))
  {
    SettleKeeps(r, verdict);
  }

  // ---------------------------------------------------------------------------
  // Why a call settles
  // ---------------------------------------------------------------------------

  /** Between `r` and `r'` one of the promises of call `c` settles with `o`. */
  ghost predicate News(r: Reqs, r': Reqs, c: CallId, o: Outcome) {
    && c < |r.calls| && c < |r'.calls|
    && ((r.calls[c].wait.None? && r'.calls[c].wait == Some(o))
        || (r.calls[c].send.Pending? && r'.calls[c].send == Refused(o)))
  }

  lemma SettleNews(r: Reqs, verdict: map<CallId, Outcome>)
    ensures forall c, o :: News(r, Settle(r, verdict), c, o) ==> c in r.waiters && c in verdict && verdict[c] == o
  {
  }

  lemma ContinueNews(r: Reqs)
    ensures forall c: CallId, o :: News(r, Continue(r), c, o) ==> r.calls[c].send == Refused(o)
  {
  }

  lemma AbortNews(r: Reqs, call: CallId)
    requires Inv(r)
    ensures forall c, o :: News(r, Abort(r, call), c, o) ==> c == call && o == Canceled
  {
    var settled := Settle(r, map[call := Canceled]);
    ContinueNews(Refuse(settled, map[call := Canceled]));
  }

  lemma QueueTimeoutNews(r: Reqs, call: CallId)
    requires Inv(r)
    ensures forall c, o :: News(r, QueueTimeout(r, call), c, o) ==> c == call && o == TimedOut
  {
    ContinueNews(Refuse(r, map[call := TimedOut]));
  }

  lemma CloseNews(r: Reqs)
    requires Inv(r)
    ensures forall c, o :: News(r, CloseWaiters(r), c, o) || News(r, CloseQueue(r), c, o) ==> o == Closed
  {
    ContinueNews(Refuse(r, All(r, Closed)));
  }

  lemma FlushNews(r: Reqs, rejected: set<CallId>, failing: set<CallId>)
    requires Inv(r)
    ensures forall c, o :: News(r, Flush(r, rejected, failing), c, o) ==>
      c in r.queue && o == SendFailed && (c in rejected || c in failing)
  {
    ContinueNews(Transmit(r, r.queue, rejected, failing));
  }

  lemma LoseNews(r: Reqs)
    requires Inv(r)
    ensures forall c, o :: News(r, Lose(r), c, o) ==> o.Lost?
  {
    var cleared := Settle(r, LossVerdict(r));
    ContinueNews(Refuse(cleared, All(cleared, Lost(false))));
  }

  /** The promises of every call of `r` are as they were. */
  ghost predicate Untouched(r: Reqs, r': Reqs) {
    && |r.calls| <= |r'.calls|
    && forall c: CallId :: c < |r.calls| ==>
         r'.calls[c].wait == r.calls[c].wait && r'.calls[c].send == r.calls[c].send
  }

  lemma NewestUntouched(r: Reqs, request: Request, restored: bool)
    requires Inv(r)
    ensures var held := Hold(r, request.requestId, request.responseType, restored);
      var rejected := if request.rejected then {|r.calls|} else {};
      var failing := if request.failing then {|r.calls|} else {};
      Untouched(r, Transmit(held, [|r.calls|], rejected, failing))
  {
    hide SharesId, Without, FramesOrdered, LossHonest, UnknownEarned;
  }

  lemma SendNowUntouched(r: Reqs, request: Request, restored: bool)
    requires Inv(r)
    ensures Untouched(r, SendNow(r, request, restored))
  {
    hide SharesId, Without, FramesOrdered, LossHonest, UnknownEarned, QueueExact;
    var held := Hold(r, request.requestId, request.responseType, restored);
    var c := |r.calls|;
    var sent := Transmit(held, [c], if request.rejected then {c} else {}, if request.failing then {c} else {});
    NewestUntouched(r, request, restored);
    assert forall d: CallId :: d in Continuations(sent) ==> d == c;
  }

  lemma HoldUntouched(r: Reqs, requestId: string, responseType: string)
    ensures Untouched(r, Hold(r, requestId, responseType, false))
  {
  }

  lemma UntouchedNews(r: Reqs, r': Reqs)
    requires Untouched(r, r')
    ensures forall c, o :: !News(r, r', c, o)
  {
  }

  lemma SendUnavailableUntouched(r: Reqs, request: Request)
    requires Inv(r)
    ensures Untouched(r, SendUnavailable(r, request))
  {
  }

  lemma UntouchedTransitive(a: Reqs, b: Reqs, c: Reqs)
    requires Untouched(a, b) && Untouched(b, c)
    ensures Untouched(a, c)
  {
  }

  lemma {:induction false} RestoreUntouched(r: Reqs, requests: seq<Request>)
    requires Inv(r)
    ensures Untouched(r, Restore(r, requests))
    decreases |requests|
  {
    if requests != [] {
      var sent := SendNow(r, requests[0], true);
      SendNowKeeps(r, requests[0], true);
      SendNowUntouched(r, requests[0], true);
      RestoreUntouched(sent, requests[1..]);
      UntouchedTransitive(r, sent, Restore(r, requests));
    }
  }
}
