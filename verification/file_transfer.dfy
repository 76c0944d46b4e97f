/** Reading files over binary frames: reassembly per request, and the upload loop that splits a file. */
module FileTransfer {
  import opened Prelude

  type Byte = x: int | 0 <= x < 256

  type Bytes = seq<Byte>

  type RequestId = string

  /** `maxBytes` is 0 when the caller set no limit. */
  datatype Pending = Pending(place: string, maxBytes: nat)

  datatype Frame =
    | Begin(id: RequestId, size: nat, meta: string)
    | Chunk(id: RequestId, payload: Bytes)
    | End(id: RequestId)

  datatype Transfer = Transfer(pending: Pending, size: nat, meta: string, chunks: seq<Bytes>)

  datatype File = File(bytes: Bytes, place: string, meta: string)

  /** What the request is told: its file is there, too large, or did not arrive whole. */
  datatype Reply =
    | Delivered(id: RequestId, place: string)
    | TooLarge(id: RequestId, place: string)
    | Incomplete(id: RequestId, expected: nat, received: nat)

  datatype State = State(
    pending: map<RequestId, Pending>,
    active: map<RequestId, Transfer>,
    completed: map<RequestId, File>,
    replies: seq<Reply>)

  const INITIAL := State(map[], map[], map[], [])

  /** `Takes` is a read that ends with its file, `Drops` one that ends otherwise. */
  datatype Event =
    | Reads(reader: RequestId, pending: Pending)
    | Arrives(frame: Frame)
    | Takes(reader: RequestId)
    | Drops(reader: RequestId)

  // ---------------------------------------------------------------------------
  // Bytes
  // ---------------------------------------------------------------------------

  function Flatten(chunks: seq<Bytes>): Bytes {
    if chunks == [] then [] else Flatten(chunks[..|chunks| - 1]) + chunks[|chunks| - 1]
  }

  lemma FlattenSnoc(chunks: seq<Bytes>, c: Bytes)
    ensures Flatten(chunks + [c]) == Flatten(chunks) + c
  {
    assert (chunks + [c])[..|chunks|] == chunks;
  }

  lemma {:induction false} FlattenConcat(a: seq<Bytes>, b: seq<Bytes>)
    ensures Flatten(a + b) == Flatten(a) + Flatten(b)
  {
    if b == [] {
      assert a + b == a;
    } else {
      var n := |b| - 1;
      assert a + b == (a + b[..n]) + [b[n]];
      FlattenSnoc(a + b[..n], b[n]);
      FlattenConcat(a, b[..n]);
      assert Flatten(b) == Flatten(b[..n]) + b[n];
      assert Flatten(a) + Flatten(b[..n]) + b[n] == Flatten(a) + (Flatten(b[..n]) + b[n]);
    }
  }

  /** The pieces of the upload loop: `chunkSize` bytes each, the last one shorter. */
  function Split(bytes: Bytes, chunkSize: nat): seq<Bytes>
    requires chunkSize > 0
    decreases |bytes|
  {
    if bytes == [] then []
    else if |bytes| <= chunkSize then [bytes]
    else [bytes[..chunkSize]] + Split(bytes[chunkSize..], chunkSize)
  }

  lemma {:induction false} SplitFlatten(bytes: Bytes, chunkSize: nat)
    requires chunkSize > 0
    ensures Flatten(Split(bytes, chunkSize)) == bytes
    decreases |bytes|
  {
    if bytes == [] {
    } else if |bytes| <= chunkSize {
      FlattenSnoc([], bytes);
      assert [] + [bytes] == [bytes];
    } else {
      SplitFlatten(bytes[chunkSize..], chunkSize);
      FlattenConcat([bytes[..chunkSize]], Split(bytes[chunkSize..], chunkSize));
      FlattenSnoc([], bytes[..chunkSize]);
      assert [] + [bytes[..chunkSize]] == [bytes[..chunkSize]];
    }
  }

  /** Every piece has the chosen size but the last, which is neither empty nor longer. */
  lemma {:induction false} SplitSizes(bytes: Bytes, chunkSize: nat, i: nat)
    requires chunkSize > 0 && i < |Split(bytes, chunkSize)|
    ensures var pieces := Split(bytes, chunkSize);
            if i < |pieces| - 1 then |pieces[i]| == chunkSize else 0 < |pieces[i]| <= chunkSize
    decreases |bytes|
  {
    if chunkSize < |bytes| && i > 0 { SplitSizes(bytes[chunkSize..], chunkSize, i - 1); }
  }

  lemma SplitStep(bytes: Bytes, chunkSize: nat, offset: nat)
    requires chunkSize > 0 && offset < |bytes|
    ensures var next := if offset + chunkSize < |bytes| then offset + chunkSize else |bytes|;
            Split(bytes[offset..], chunkSize) == [bytes[offset..next]] + Split(bytes[next..], chunkSize)
  {
    var next := if offset + chunkSize < |bytes| then offset + chunkSize else |bytes|;
    assert bytes[offset..][next - offset..] == bytes[next..];
    assert bytes[offset..][..next - offset] == bytes[offset..next];
    assert next == |bytes| ==> bytes[next..] == [] && bytes[offset..next] == bytes[offset..];
  }

  /**
   * The upload loop. Before each piece it looks whether the upload has been answered or the
   * connection has changed; `interrupted` is the piece at which it does, if at all.
   */
  method UploadChunks(bytes: Bytes, chunkSize: nat, interrupted: Option<nat>) returns (sent: seq<Bytes>)
    requires chunkSize > 0
    ensures sent <= Split(bytes, chunkSize)
    ensures |sent| == if interrupted.Some? && interrupted.value < |Split(bytes, chunkSize)|
                      then interrupted.value else |Split(bytes, chunkSize)|
  {
    sent := [];
    var offset := 0;
    while offset < |bytes|
      invariant offset <= |bytes|
      invariant sent + Split(bytes[offset..], chunkSize) == Split(bytes, chunkSize)
      invariant interrupted.Some? ==> |sent| <= interrupted.value
      decreases |bytes| - offset
    {
      SplitStep(bytes, chunkSize, offset);
      if interrupted == Some(|sent|) { return; }
      var next := if offset + chunkSize < |bytes| then offset + chunkSize else |bytes|;
      assert sent + ([bytes[offset..next]] + Split(bytes[next..], chunkSize))
          == (sent + [bytes[offset..next]]) + Split(bytes[next..], chunkSize);
      sent := sent + [bytes[offset..next]];
      offset := next;
    }
    assert Split(bytes[offset..], chunkSize) == [];
  }

  function Zeros(n: nat): Bytes {
    seq(n, _ => 0)
  }

  lemma FlattenPrefix(chunks: seq<Bytes>, i: nat)
    requires i < |chunks|
    ensures Flatten(chunks[..i + 1]) == Flatten(chunks[..i]) + chunks[i]
    ensures |Flatten(chunks[..i])| + |chunks[i]| <= |Flatten(chunks)|
  {
    assert chunks[..i + 1] == chunks[..i] + [chunks[i]];
    FlattenSnoc(chunks[..i], chunks[i]);
    assert chunks == chunks[..i + 1] + chunks[i + 1..];
    FlattenConcat(chunks[..i + 1], chunks[i + 1..]);
  }

  /** The chunks copied one behind the other into a zeroed buffer that has room for them. */
  method ConcatByteChunks(chunks: seq<Bytes>, size: nat) returns (bytes: array<Byte>)
    requires |Flatten(chunks)| <= size
    ensures fresh(bytes) && bytes[..] == Flatten(chunks) + Zeros(size - |Flatten(chunks)|)
  {
    bytes := new Byte[size](_ => 0);
    var offset := 0;
    for i := 0 to |chunks|
      invariant offset == |Flatten(chunks[..i])| <= size
      invariant bytes[..offset] == Flatten(chunks[..i])
      invariant forall k :: offset <= k < size ==> bytes[k] == 0
    {
      FlattenPrefix(chunks, i);
      CopyInto(bytes, chunks[i], offset);
      offset := offset + |chunks[i]|;
    }
    assert chunks[..|chunks|] == chunks;
  }

  method CopyInto(target: array<Byte>, source: Bytes, offset: nat)
    requires offset + |source| <= target.Length
    modifies target
    ensures target[..offset + |source|] == old(target[..offset]) + source
    ensures forall k :: offset + |source| <= k < target.Length ==> target[k] == old(target[k])
  {
    for j := 0 to |source|
      invariant target[..offset + j] == old(target[..offset]) + source[..j]
      invariant forall k :: offset + j <= k < target.Length ==> target[k] == old(target[k])
    {
      target[offset + j] := source[j];
    }
  }

  // ---------------------------------------------------------------------------
  // Steps
  // ---------------------------------------------------------------------------

  predicate Oversized(t: Transfer) {
    t.pending.maxBytes != 0 && t.size > t.pending.maxBytes
  }

  function Frames(s: State, f: Frame): State {
    match f
    case Begin(id, size, meta) =>
      if id !in s.pending then s
      else s.(active := s.active[id := Transfer(s.pending[id], size, meta, [])])
    case Chunk(id, payload) =>
      if id !in s.active || Oversized(s.active[id]) then s
      else s.(active := s.active[id := s.active[id].(chunks := s.active[id].chunks + [payload])])
    case End(id) => if id !in s.active then s else Finish(s, id, Verdict(id, s.active[id]))
  }

  /** What the end of a transfer makes of it. */
  function Verdict(id: RequestId, t: Transfer): Reply {
    if Oversized(t) then TooLarge(id, t.pending.place)
    else if |Flatten(t.chunks)| != t.size then Incomplete(id, t.size, |Flatten(t.chunks)|)
    else Delivered(id, t.pending.place)
  }

  function Finish(s: State, id: RequestId, r: Reply): State
    requires id in s.active
  {
    var t := s.active[id];
    var file := File(Flatten(t.chunks), t.pending.place, t.meta);
    var completed := if r.Delivered? then s.completed[id := file] else s.completed;
    State(s.pending, s.active - {id}, completed, s.replies + [r])
  }

  function Step(s: State, e: Event): State {
    match e
    case Reads(id, pending) => s.(pending := s.pending[id := pending])
    case Arrives(f) => Frames(s, f)
    case Takes(id) =>
      s.(completed := s.completed - {id}, pending := s.pending - {id}, active := s.active - {id})
    case Drops(id) => s.(pending := s.pending - {id}, active := s.active - {id})
  }

  function After(es: seq<Event>): State {
    if es == [] then INITIAL else Step(After(es[..|es| - 1]), es[|es| - 1])
  }

  // ---------------------------------------------------------------------------
  // One request by itself
  // ---------------------------------------------------------------------------

  function Subject(e: Event): RequestId {
    match e
    case Arrives(f) => f.id
    case _ => e.reader
  }

  /** The events of one request, in order. */
  function Own(es: seq<Event>, id: RequestId): seq<Event> {
    if es == [] then []
    else Own(es[..|es| - 1], id) + if Subject(es[|es| - 1]) == id then [es[|es| - 1]] else []
  }

  function RepliesTo(replies: seq<Reply>, id: RequestId): seq<Reply> {
    if replies == [] then []
    else RepliesTo(replies[..|replies| - 1], id)
         + if replies[|replies| - 1].id == id then [replies[|replies| - 1]] else []
  }

  lemma RepliesToSnoc(replies: seq<Reply>, r: Reply, id: RequestId)
    ensures RepliesTo(replies + [r], id) == RepliesTo(replies, id) + if r.id == id then [r] else []
  {
    assert (replies + [r])[..|replies|] == replies;
  }

  /** Two states that agree on everything about one request. */
  ghost predicate SameFor(s: State, u: State, id: RequestId) {
    && (id in s.pending <==> id in u.pending) && (id in s.pending ==> s.pending[id] == u.pending[id])
    && (id in s.active <==> id in u.active) && (id in s.active ==> s.active[id] == u.active[id])
    && (id in s.completed <==> id in u.completed) && (id in s.completed ==> s.completed[id] == u.completed[id])
    && RepliesTo(s.replies, id) == RepliesTo(u.replies, id)
  }

  lemma OthersLeaveAlone(s: State, e: Event, id: RequestId)
    requires Subject(e) != id
    ensures SameFor(s, Step(s, e), id)
  {
    hide RepliesTo, Verdict, Flatten, Oversized;
    if e.Arrives? && e.frame.End? && e.frame.id in s.active {
      RepliesToSnoc(s.replies, Verdict(e.frame.id, s.active[e.frame.id]), id);
      VerdictNames(e.frame.id, s.active[e.frame.id]);
    }
  }

  lemma VerdictNames(id: RequestId, t: Transfer)
    ensures Verdict(id, t).id == id
  {
  }

  lemma SameStep(s: State, u: State, e: Event)
    requires SameFor(s, u, Subject(e))
    ensures SameFor(Step(s, e), Step(u, e), Subject(e))
  {
    hide RepliesTo, Verdict, Flatten, Oversized;
    var id := Subject(e);
    if e.Arrives? && e.frame.End? && id in s.active {
      RepliesToSnoc(s.replies, Verdict(id, s.active[id]), id);
      RepliesToSnoc(u.replies, Verdict(id, s.active[id]), id);
    }
  }

  /** However the frames of many requests interleave, each request fares as if it were alone. */
  lemma {:induction false} Isolation(es: seq<Event>, id: RequestId)
    ensures SameFor(After(es), After(Own(es, id)), id)
  {
    if es != [] {
      hide SameFor, Step;
      var n := |es| - 1;
      Isolation(es[..n], id);
      var own := Own(es[..n], id);
      if Subject(es[n]) == id {
        SameStep(After(es[..n]), After(own), es[n]);
        assert (own + [es[n]])[..|own|] == own;
      } else {
        OthersLeaveAlone(After(es[..n]), es[n], id);
        SameTransitive(After(es[..n]), Step(After(es[..n]), es[n]), After(own), id);
        assert Own(es, id) == own;
      }
    } else {
      assert Own(es, id) == [];
    }
  }

  /** Two runs in which a request sees the same events in the same order serve it alike. */
  lemma InterleavingIrrelevant(es: seq<Event>, fs: seq<Event>, id: RequestId)
    requires Own(es, id) == Own(fs, id)
    ensures SameFor(After(es), After(fs), id)
  {
    Isolation(es, id);
    Isolation(fs, id);
  }

  lemma SameTransitive(s: State, s': State, u: State, id: RequestId)
    requires SameFor(s, s', id) && SameFor(s, u, id)
    ensures SameFor(s', u, id)
  {
  }

  // ---------------------------------------------------------------------------
  // What a transfer and a completed read hold
  // ---------------------------------------------------------------------------

  /** The payloads of the chunks of one request, in order. */
  function Payloads(es: seq<Event>, id: RequestId): seq<Bytes> {
    if es == [] then []
    else
      var e := es[|es| - 1];
      Payloads(es[..|es| - 1], id)
      + if e.Arrives? && e.frame.Chunk? && e.frame.id == id then [e.frame.payload] else []
  }

  lemma PayloadsSnoc(es: seq<Event>, e: Event, id: RequestId)
    ensures Payloads(es + [e], id)
         == Payloads(es, id) + if e.Arrives? && e.frame.Chunk? && e.frame.id == id then [e.frame.payload] else []
  {
    assert (es + [e])[..|es|] == es;
  }

  /** The event leaves a transfer of this request under way: it is another's, a chunk or a new read. */
  predicate Passes(e: Event, id: RequestId) {
    Subject(e) != id || e.Reads? || (e.Arrives? && e.frame.Chunk?)
  }

  /** From position `i` on, the request receives the file announced there. */
  ghost predicate Receiving(es: seq<Event>, id: RequestId, i: nat) {
    && i < |es|
    && es[i].Arrives? && es[i].frame.Begin? && es[i].frame.id == id
    && id in After(es[..i]).pending
    && forall j :: i < j < |es| ==> Passes(es[j], id)
  }

  /** The transfer announced at `i`, with this request's own chunks since then. */
  function Announced(es: seq<Event>, id: RequestId, i: nat): Transfer
    requires i < |es| && es[i].Arrives? && es[i].frame.Begin? && id in After(es[..i]).pending
  {
    var t := Transfer(After(es[..i]).pending[id], es[i].frame.size, es[i].frame.meta, []);
    if Oversized(t) then t else t.(chunks := Payloads(es[i + 1..], id))
  }

  /** While a file is being received, the transfer holds exactly its own chunks since its begin. */
  lemma {:induction false} ReceivingHolds(es: seq<Event>, id: RequestId, i: nat)
    requires Receiving(es, id, i)
    ensures id in After(es).active && After(es).active[id] == Announced(es, id, i)
    decreases |es|
  {
    hide Verdict, Flatten, Oversized, Payloads;
    var n := |es| - 1;
    var front := es[..n];
    if i == n {
      NoPayloads(id);
      assert es[i + 1..] == [];
    } else {
      assert front[..i] == es[..i];
      ReceivingHolds(front, id, i);
      assert es[i + 1..] == front[i + 1..] + [es[n]];
      PayloadsSnoc(front[i + 1..], es[n], id);
      assert Passes(es[n], id);
      PassingStep(After(front), es[n], id);
      AnnouncedSize(front, id, i);
      AnnouncedSize(es, id, i);
    }
  }

  lemma NoPayloads(id: RequestId)
    ensures Payloads([], id) == []
  {
  }

  lemma AnnouncedSize(es: seq<Event>, id: RequestId, i: nat)
    requires i < |es| && es[i].Arrives? && es[i].frame.Begin? && id in After(es[..i]).pending
    ensures var begun := Transfer(After(es[..i]).pending[id], es[i].frame.size, es[i].frame.meta, []);
            Oversized(Announced(es, id, i)) == Oversized(begun)
  {
  }

  /** A passing event adds this request's own chunk to its transfer, and nothing else. */
  lemma PassingStep(s: State, e: Event, id: RequestId)
    requires Passes(e, id) && id in s.active
    ensures var own := e.Arrives? && e.frame.Chunk? && e.frame.id == id;
            && id in Step(s, e).active
            && Step(s, e).active[id] == if own && !Oversized(s.active[id])
                                        then s.active[id].(chunks := s.active[id].chunks + [e.frame.payload])
                                        else s.active[id]
  {
    hide Verdict, Flatten, Oversized;
  }

  lemma {:induction false} ActiveWasAsked(es: seq<Event>, id: RequestId)
    requires id in After(es).active
    ensures id in After(es).pending
  {
    hide Verdict, Flatten, Oversized;
    var front := es[..|es| - 1];
    if id in After(front).active { ActiveWasAsked(front, id); }
  }

  /** A transfer is under way only while some announced file is being received. */
  lemma {:induction false} ActiveReceives(es: seq<Event>, id: RequestId) returns (i: nat)
    requires id in After(es).active
    ensures Receiving(es, id, i)
    ensures After(es).active[id] == Announced(es, id, i)
  {
    hide Verdict, Flatten, Oversized, Payloads, Announced;
    var n := |es| - 1;
    var front, e := es[..n], es[n];
    if Subject(e) == id && e.Arrives? && e.frame.Begin? && id in After(front).pending {
      i := n;
    } else {
      if id in After(front).active { ActiveWasAsked(front, id); }
      i := ActiveReceives(front, id);
      assert front[..i] == es[..i];
    }
    ReceivingHolds(es, id, i);
  }

  /**
   * A completed read is one that some begin announced and some end closed, with the in-order
   * concatenation of its own chunks in between as its bytes, as many as were declared.
   */
  lemma {:induction false} CompletedExact(es: seq<Event>, id: RequestId) returns (i: nat, j: nat)
    requires id in After(es).completed
    ensures i < j < |es| && Receiving(es[..j], id, i) && es[j] == Arrives(End(id))
    ensures var file, t := After(es).completed[id], Announced(es[..j], id, i);
            && file.bytes == Flatten(Payloads(es[i + 1..j], id)) && |file.bytes| == es[i].frame.size
            && file.place == t.pending.place && file.meta == es[i].frame.meta && !Oversized(t)
  {
    hide Flatten, Payloads, Oversized, Step, Verdict;
    var n := |es| - 1;
    var front, e := es[..n], es[n];
    CompletedStep(After(front), e, id);
    if e == Arrives(End(id)) && id in After(front).active && Verdict(id, After(front).active[id]).Delivered? {
      j := n;
      i := ActiveReceives(front, id);
      AnnouncedSize(front, id, i);
      DeliveredWhole(id, After(front).active[id]);
      assert front[i + 1..] == es[i + 1..j];
    } else {
      i, j := CompletedExact(front, id);
      assert front[..j] == es[..j] && front[i + 1..j] == es[i + 1..j];
    }
  }

  /** A completed read is new only at the end of its own transfer. */
  lemma CompletedStep(s: State, e: Event, id: RequestId)
    requires id in Step(s, e).completed
    ensures if e == Arrives(End(id)) && id in s.active && Verdict(id, s.active[id]).Delivered?
            then
              var t := s.active[id];
              Step(s, e).completed[id] == File(Flatten(t.chunks), t.pending.place, t.meta)
            else id in s.completed && s.completed[id] == Step(s, e).completed[id]
  {
    hide Flatten, Oversized, Verdict;
    if e == Arrives(End(id)) && id in s.active { VerdictNames(id, s.active[id]); }
  }

  lemma DeliveredWhole(id: RequestId, t: Transfer)
    ensures Verdict(id, t).Delivered? <==> !Oversized(t) && |Flatten(t.chunks)| == t.size
  {
  }

  /**
   * What the end of an announced file tells the request, over any interleaving: too large exactly
   * when a limit is set and the declared size is over it, incomplete exactly when the chunks do not
   * add up to that size, and otherwise the file.
   */
  lemma EndExact(es: seq<Event>, id: RequestId, i: nat)
    requires Receiving(es, id, i)
    ensures var s, t := After(es + [Arrives(End(id))]), Announced(es, id, i);
            var bytes := Flatten(Payloads(es[i + 1..], id));
            && id !in s.active
            && s.replies == After(es).replies
               + [if t.pending.maxBytes != 0 && es[i].frame.size > t.pending.maxBytes then TooLarge(id, t.pending.place)
                  else if |bytes| != es[i].frame.size then Incomplete(id, es[i].frame.size, |bytes|)
                  else Delivered(id, t.pending.place)]
            && (s.replies[|s.replies| - 1] == Delivered(id, t.pending.place) ==>
                  s.completed == After(es).completed[id := File(bytes, t.pending.place, es[i].frame.meta)])
            && (s.replies[|s.replies| - 1] != Delivered(id, t.pending.place) ==> s.completed == After(es).completed)
  {
    assert (es + [Arrives(End(id))])[..|es|] == es;
    ReceivingHolds(es, id, i);
  }

  // ---------------------------------------------------------------------------
  // From the read to its file
  // ---------------------------------------------------------------------------

  /** The event begins, ends or drops a read of this request. */
  predicate Turns(e: Event, id: RequestId) {
    (e.Reads? || e.Takes? || e.Drops?) && e.reader == id
  }

  /** The read of `id` asked for at `r` has neither ended nor been asked for again. */
  ghost predicate AskedAt(es: seq<Event>, id: RequestId, p: Pending, r: nat) {
    r < |es| && es[r] == Reads(id, p) && forall j :: r < j < |es| ==> !Turns(es[j], id)
  }

  ghost predicate Asked(es: seq<Event>, id: RequestId, p: Pending) {
    exists r: nat :: AskedAt(es, id, p, r)
  }

  /**
   * A read waits for its file exactly from the moment it is asked for until it ends: it is pending,
   * with what was asked, if and only if its last read came with that and no end of it came since.
   */
  lemma {:induction false} PendingExactly(es: seq<Event>, id: RequestId, p: Pending)
    ensures Asked(es, id, p) <==> id in After(es).pending && After(es).pending[id] == p
  {
    if es != [] {
      hide Step, AskedAt;
      var n := |es| - 1;
      PendingExactly(es[..n], id, p);
      AskedStep(es, id, p);
      PendingStep(After(es[..n]), es[n], id);
    } else {
      assert forall r: nat :: !AskedAt(es, id, p, r);
    }
  }

  lemma AskedStep(es: seq<Event>, id: RequestId, p: Pending)
    requires es != []
    ensures Asked(es, id, p) <==>
            es[|es| - 1] == Reads(id, p) || (Asked(es[..|es| - 1], id, p) && !Turns(es[|es| - 1], id))
  {
    var n := |es| - 1;
    var front := es[..n];
    if es[n] == Reads(id, p) { assert AskedAt(es, id, p, n); }
    if Asked(front, id, p) && !Turns(es[n], id) {
      var r: nat :| AskedAt(front, id, p, r);
      assert AskedAt(es, id, p, r);
    }
    if Asked(es, id, p) && es[n] != Reads(id, p) {
      var r: nat :| AskedAt(es, id, p, r);
      assert AskedAt(front, id, p, r) by {
        forall j | r < j < n ensures !Turns(front[j], id) { assert front[j] == es[j]; }
      }
    }
  }

  lemma PendingStep(s: State, e: Event, id: RequestId)
    ensures var s' := Step(s, e);
            if e.Reads? && e.reader == id then id in s'.pending && s'.pending[id] == e.pending
            else if Turns(e, id) then id !in s'.pending
            else (id in s'.pending <==> id in s.pending) && (id in s.pending ==> s'.pending[id] == s.pending[id])
  {
    hide Verdict, Flatten, Oversized;
  }

  /** A file is being received exactly while some begin of a pending read has announced it. */
  lemma ActiveExactly(es: seq<Event>, id: RequestId)
    ensures id in After(es).active <==> exists i: nat :: Receiving(es, id, i)
  {
    hide Receiving, Announced;
    if id in After(es).active {
      var i := ActiveReceives(es, id);
    }
    if i: nat :| Receiving(es, id, i) { ReceivingHolds(es, id, i); }
  }

  /** A completed file stays until its read takes it, whatever happens to others; then nothing of it is left. */
  lemma CompletedStays(es: seq<Event>, e: Event, id: RequestId)
    requires id in After(es).completed
    ensures var s := After(es + [e]);
            && (e == Takes(id) ==> id !in s.completed && id !in s.pending && id !in s.active)
            && (e != Takes(id) && e != Arrives(End(id)) ==>
                  id in s.completed && s.completed[id] == After(es).completed[id])
  {
    hide Verdict, Flatten, Oversized;
    assert (es + [e])[..|es|] == es;
    if e.Arrives? && e.frame.End? && e.frame.id in After(es).active {
      VerdictNames(e.frame.id, After(es).active[e.frame.id]);
    }
  }

  /**
   * From the read to its file. A read is asked for; its file is announced with its size, within the
   * limit if one was set, and sent in pieces of any positive size, among whatever other requests do;
   * with the end of the transfer the read has exactly that file, and is told so.
   */
  lemma RoundTrip(es: seq<Event>, id: RequestId, p: Pending, i: nat, bytes: Bytes, chunkSize: nat)
    requires i < |es| && es[i].Arrives? && es[i].frame.Begin? && es[i].frame.id == id
    requires Asked(es[..i], id, p) && es[i].frame.size == |bytes| && (p.maxBytes == 0 || |bytes| <= p.maxBytes)
    requires forall j :: i < j < |es| ==> Passes(es[j], id)
    requires chunkSize > 0 && Payloads(es[i + 1..], id) == Split(bytes, chunkSize)
    ensures var s := After(es + [Arrives(End(id))]);
            && id in s.completed && s.completed[id] == File(bytes, p.place, es[i].frame.meta)
            && s.replies == After(es).replies + [Delivered(id, p.place)] && id !in s.active
  {
    PendingExactly(es[..i], id, p);
    SplitFlatten(bytes, chunkSize);
    EndExact(es, id, i);
  }

  /** A read of three bytes that come in one piece. */
  lemma ReadExample()
    ensures var es := [Reads("r", Pending("/a", 0)), Arrives(Begin("r", 3, "text")), Arrives(Chunk("r", [1, 2, 3]))];
            var s := After(es + [Arrives(End("r"))]);
            && "r" in s.completed && s.completed["r"] == File([1, 2, 3], "/a", "text")
            && s.replies == [Delivered("r", "/a")]
  {
    var p := Pending("/a", 0);
    var es := [Reads("r", p), Arrives(Begin("r", 3, "text")), Arrives(Chunk("r", [1, 2, 3]))];
    assert AskedAt(es[..1], "r", p, 0);
    assert es[2..] == [] + [es[2]] && [] + [[1, 2, 3]] == [[1, 2, 3]];
    PayloadsSnoc([], es[2], "r");
    RoundTrip(es, "r", p, 1, [1, 2, 3], 3);
    NothingSaid(es);
  }

  lemma NothingSaid(es: seq<Event>)
    requires forall i :: 0 <= i < |es| ==> !(es[i].Arrives? && es[i].frame.End?)
    ensures After(es).replies == []
  {
    if es != [] { NothingSaid(es[..|es| - 1]); }
  }
}
