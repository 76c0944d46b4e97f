/** The rolling runtime metrics of the client: six maps for the open bucket and the sealed buckets. */
module MetricsRecorders {
  import opened Prelude
  import opened RuntimeMetrics

  datatype Bucket = Bucket(tally: Tally, endedAt: real)

  const DEFAULT_WINDOW_MS := 60_000.0

  /** The buckets are the recounts of the batches. */
  ghost predicate Matches(buckets: seq<Bucket>, batches: seq<Batch>) {
    && |buckets| == |batches|
    && forall i :: 0 <= i < |buckets| ==> MatchesAt(buckets[i], batches[i])
  }

  ghost predicate MatchesAt(bucket: Bucket, batch: Batch) {
    bucket.endedAt == batch.endedAt && Recounts(bucket.tally, batch.events)
  }

  class MetricsRecorder {
    const windowMs: real
    var inboundMessageCounts: map<string, nat>
    var inboundMessageBytes: map<string, nat>
    var inboundMessageHandlerMs: map<string, Timing>
    var inboundAgentStreamCounts: map<string, nat>
    var inboundAgentStreamByAgentCounts: map<string, nat>
    var inboundBinaryFrameCounts: map<string, nat>
    var buckets: seq<Bucket>
    ghost var ops: seq<Op>

    function Current(): Tally
      reads this
    {
      Tally(inboundMessageCounts, inboundMessageBytes, inboundMessageHandlerMs,
            inboundAgentStreamCounts, inboundAgentStreamByAgentCounts, inboundBinaryFrameCounts)
    }

    ghost predicate Valid()
      reads this
    {
      Recounts(Current(), Open(ops)) && Matches(buckets, Kept(ops, windowMs))
    }

    constructor (window: Option<real>)
      ensures Valid() && ops == []
      ensures windowMs == if window.Some? && window.value > 0.0 then window.value else 60_000.0
    {
      windowMs := if window.Some? && window.value > 0.0 then window.value else DEFAULT_WINDOW_MS;
      inboundMessageCounts, inboundMessageBytes, inboundMessageHandlerMs := map[], map[], map[];
      inboundAgentStreamCounts, inboundAgentStreamByAgentCounts, inboundBinaryFrameCounts := map[], map[], map[];
      buckets, ops := [], [];
      new;
      EmptyRecounts();
    }

    method RecordMessage(kind: string, bytes: nat, handlerMs: real)
      requires Valid()
      modifies this
      ensures Valid() && ops == old(ops) + [Recorded(Message(kind, bytes, handlerMs))]
      ensures buckets == old(buckets)
      ensures inboundMessageCounts == old(inboundMessageCounts)[kind := old(Amount(inboundMessageCounts, kind)) + 1]
      ensures inboundMessageBytes == old(inboundMessageBytes)[kind := old(Amount(inboundMessageBytes, kind)) + bytes]
    {
      hide Recounts, Matches;
      RecordRecounts(Current(), Message(kind, bytes, handlerMs), Open(ops));
      RecordedKeeps(ops, Message(kind, bytes, handlerMs), windowMs);
      inboundMessageCounts := Increment(inboundMessageCounts, kind, 1);
      inboundMessageBytes := Increment(inboundMessageBytes, kind, bytes);
      inboundMessageHandlerMs := IncrementTiming(inboundMessageHandlerMs, kind, handlerMs);
      ops := ops + [Recorded(Message(kind, bytes, handlerMs))];
    }

    method RecordAgentStream(variety: string, agent: string)
      requires Valid()
      modifies this
      ensures Valid() && ops == old(ops) + [Recorded(Stream(variety, agent))]
      ensures buckets == old(buckets)
    {
      hide Recounts, Matches;
      RecordRecounts(Current(), Stream(variety, agent), Open(ops));
      RecordedKeeps(ops, Stream(variety, agent), windowMs);
      inboundAgentStreamCounts := Increment(inboundAgentStreamCounts, variety, 1);
      inboundAgentStreamByAgentCounts := Increment(inboundAgentStreamByAgentCounts, agent, 1);
      ops := ops + [Recorded(Stream(variety, agent))];
    }

    method RecordBinaryFrame(kind: string, bytes: nat, handlerMs: real)
      requires Valid()
      modifies this
      ensures Valid() && ops == old(ops) + [Recorded(Frame(kind, bytes, handlerMs))]
      ensures buckets == old(buckets)
      ensures inboundBinaryFrameCounts ==
              old(inboundBinaryFrameCounts)[kind := old(Amount(inboundBinaryFrameCounts, kind)) + 1]
      ensures var prefixed := "binary:" + kind;
        && inboundMessageBytes ==
             old(inboundMessageBytes)[prefixed := old(Amount(inboundMessageBytes, prefixed)) + bytes]
        && inboundMessageHandlerMs.Keys == old(inboundMessageHandlerMs).Keys + {prefixed}
    {
      hide Recounts, Matches;
      RecordRecounts(Current(), Frame(kind, bytes, handlerMs), Open(ops));
      RecordedKeeps(ops, Frame(kind, bytes, handlerMs), windowMs);
      inboundBinaryFrameCounts := Increment(inboundBinaryFrameCounts, kind, 1);
      inboundMessageBytes := Increment(inboundMessageBytes, FrameLabel(kind), bytes);
      inboundMessageHandlerMs := IncrementTiming(inboundMessageHandlerMs, FrameLabel(kind), handlerMs);
      ops := ops + [Recorded(Frame(kind, bytes, handlerMs))];
    }

    /**
     * Seals the open bucket, drops the expired ones and reports the aggregate. With a clock that
     * does not run backwards the report is the recount of every event whose bucket ended within
     * the window; it is withheld when that holds no message and no frame, unless it is the last.
     */
    method Flush(now: real, final: bool) returns (report: Option<Tally>)
      requires Valid()
      modifies this
      ensures Valid() && ops == old(ops) + [Flushed(now)]
      ensures report.Some? <==> final || Active(Concat(Kept(ops, windowMs)))
      ensures report.Some? ==> Recounts(report.value, Concat(Kept(ops, windowMs)))
      ensures Monotone(ops) ==> Kept(ops, windowMs) == Within(Batches(ops), now - windowMs)
    {
      hide Recounts, Matches, Active, Monotone, Within, Batches, Concat;
      ghost var flushed := ops + [Flushed(now)];
      FlushedKeeps(ops, now, windowMs);
      if Monotone(flushed) { KeptExact(flushed, windowMs); }
      var bucket := ConsumeCurrentBucket(now);
      if bucket.Some? {
        MatchesSnoc(buckets, Kept(ops, windowMs), bucket.value, Batch(Open(ops), now));
        buckets := buckets + [bucket.value];
      } else {
        assert Kept(ops, windowMs) + Sealed(flushed) == Kept(ops, windowMs);
      }
      PruneBuckets(now, Kept(ops, windowMs) + Sealed(flushed));
      ops := flushed;
      var aggregate := AggregateBuckets(Kept(ops, windowMs));
      ActivityShows(aggregate, Concat(Kept(ops, windowMs)));
      var hasActivity := |aggregate.messages| > 0 || |aggregate.frames| > 0;
      report := if !hasActivity && !final then None else Some(aggregate);
    }

    /** The open maps become a bucket and start anew, unless only stream events wait in them. */
    method ConsumeCurrentBucket(now: real) returns (bucket: Option<Bucket>)
      requires Valid()
      modifies this
      ensures ops == old(ops) && buckets == old(buckets)
      ensures bucket.Some? <==> Active(Open(ops))
      ensures bucket.Some? ==> MatchesAt(bucket.value, Batch(Open(ops), now)) && Recounts(Current(), [])
      ensures bucket.None? ==> Current() == old(Current())
    {
      hide Recounts, Matches, Active;
      ActivityShows(Current(), Open(ops));
      var hasActivity := |inboundMessageCounts| > 0 || |inboundBinaryFrameCounts| > 0;
      if !hasActivity { return None; }
      bucket := Some(Bucket(Current(), now));
      inboundMessageCounts, inboundMessageBytes, inboundMessageHandlerMs := map[], map[], map[];
      inboundAgentStreamCounts, inboundAgentStreamByAgentCounts, inboundBinaryFrameCounts := map[], map[], map[];
      EmptyRecounts();
    }

    method PruneBuckets(now: real, ghost batches: seq<Batch>)
      requires Matches(buckets, batches)
      modifies this`buckets
      ensures Matches(buckets, DropExpired(batches, now - windowMs))
    {
      hide Recounts;
      var cutoff := now - windowMs;
      ghost var left := batches;
      while |buckets| > 0 && buckets[0].endedAt < cutoff
        invariant Matches(buckets, left)
        invariant DropExpired(left, cutoff) == DropExpired(batches, cutoff)
        decreases |buckets|
      {
        assert MatchesAt(buckets[0], left[0]);
        left := left[1..];
        buckets := buckets[1..];
      }
      assert left != [] ==> MatchesAt(buckets[0], left[0]);
    }

    method AggregateBuckets(ghost batches: seq<Batch>) returns (aggregate: Tally)
      requires Matches(buckets, batches)
      ensures Recounts(aggregate, Concat(batches))
    {
      hide Recounts;
      aggregate := EMPTY;
      EmptyRecounts();
      for i := 0 to |buckets|
        invariant Recounts(aggregate, Concat(batches[..i]))
      {
        assert batches[..i + 1] == batches[..i] + [batches[i]];
        ConcatSnoc(batches[..i], batches[i]);
        assert MatchesAt(buckets[i], batches[i]);
        var merged := MergeTally(aggregate, buckets[i].tally);
        MergedRecounts(merged, aggregate, buckets[i].tally, Concat(batches[..i]), batches[i].events);
        aggregate := merged;
      }
      assert batches[..|buckets|] == batches;
    }
  }

  method MergeTally(target: Tally, source: Tally) returns (merged: Tally)
    ensures MergedTally(merged, target, source)
  {
    var messages := MergeCountMap(target.messages, source.messages);
    var bytes := MergeCountMap(target.bytes, source.bytes);
    var handlers := MergeHandlerTimingMap(target.handlers, source.handlers);
    var streams := MergeCountMap(target.streams, source.streams);
    var agents := MergeCountMap(target.agents, source.agents);
    var frames := MergeCountMap(target.frames, source.frames);
    merged := Tally(messages, bytes, handlers, streams, agents, frames);
  }

  method MergeCountMap(target: map<string, nat>, source: map<string, nat>) returns (merged: map<string, nat>)
    ensures MergedCounts(merged, target, source)
  {
    merged := target;
    var todo := source.Keys;
    while todo != {}
      invariant todo <= source.Keys
      invariant merged.Keys == target.Keys + (source.Keys - todo)
      invariant forall k :: k in merged ==>
        merged[k] == Amount(target, k) + if k in todo then 0 else Amount(source, k)
    {
      var key :| key in todo;
      merged := Increment(merged, key, source[key]);
      todo := todo - {key};
    }
  }

  method MergeHandlerTimingMap(target: map<string, Timing>, source: map<string, Timing>)
    returns (merged: map<string, Timing>)
    ensures MergedTimings(merged, target, source)
  {
    merged := target;
    var todo := source.Keys;
    while todo != {}
      invariant todo <= source.Keys
      invariant merged.Keys == target.Keys + (source.Keys - todo)
      invariant forall k :: k in merged ==>
        merged[k] == if k !in source || k in todo then target[k]
                     else if k !in target then source[k] else Joined(target[k], source[k])
    {
      var key :| key in todo;
      merged := Join(merged, key, source[key]);
      todo := todo - {key};
    }
  }

  lemma MatchesSnoc(buckets: seq<Bucket>, batches: seq<Batch>, bucket: Bucket, batch: Batch)
    requires Matches(buckets, batches) && MatchesAt(bucket, batch)
    ensures Matches(buckets + [bucket], batches + [batch])
  {
  }

  lemma RecordedKeeps(ops: seq<Op>, e: Event, windowMs: real)
    ensures Open(ops + [Recorded(e)]) == Open(ops) + [e]
    ensures Kept(ops + [Recorded(e)], windowMs) == Kept(ops, windowMs)
  {
    assert (ops + [Recorded(e)])[..|ops|] == ops;
  }

  lemma FlushedKeeps(ops: seq<Op>, now: real, windowMs: real)
    ensures var flushed := ops + [Flushed(now)];
            && Sealed(flushed) == (if Active(Open(ops)) then [Batch(Open(ops), now)] else [])
            && Open(flushed) == (if Active(Open(ops)) then [] else Open(ops))
            && Kept(flushed, windowMs) == DropExpired(Kept(ops, windowMs) + Sealed(flushed), now - windowMs)
            && LastFlush(flushed) == Some(now)
  {
    assert (ops + [Flushed(now)])[..|ops|] == ops;
  }
}
