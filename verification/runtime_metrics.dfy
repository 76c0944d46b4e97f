/** What the rolling runtime metrics must report: a recount of the recorded events. Times are in ms. */
module RuntimeMetrics {
  import opened Prelude

  /** An inbound message, an agent stream event (its variety and its agent) or a binary frame. */
  datatype Event =
    | Message(kind: string, bytes: nat, handlerMs: real)
    | Stream(variety: string, agent: string)
    | Frame(kind: string, bytes: nat, handlerMs: real)

  datatype Op = Recorded(event: Event) | Flushed(now: real)

  datatype Sample<T> = Sample(key: string, amount: T)

  datatype Timing = Timing(count: nat, totalMs: real, maxMs: real)

  datatype Tally = Tally(
    messages: map<string, nat>,
    bytes: map<string, nat>,
    handlers: map<string, Timing>,
    streams: map<string, nat>,
    agents: map<string, nat>,
    frames: map<string, nat>)

  const EMPTY := Tally(map[], map[], map[], map[], map[], map[])

  function FrameLabel(kind: string): string {
    "binary:" + kind
  }

  // ---------------------------------------------------------------------------
  // The recount
  // ---------------------------------------------------------------------------

  datatype Series = MessageCounts | MessageBytes | StreamCounts | AgentCounts | FrameCounts

  /** What one event adds to one of the counting series. */
  function Counted(series: Series, e: Event): seq<Sample<nat>> {
    match (series, e)
    case (MessageCounts, Message(kind, _, _)) => [Sample(kind, 1)]
    case (MessageBytes, Message(kind, bytes, _)) => [Sample(kind, bytes)]
    case (MessageBytes, Frame(kind, bytes, _)) => [Sample(FrameLabel(kind), bytes)]
    case (StreamCounts, Stream(variety, _)) => [Sample(variety, 1)]
    case (AgentCounts, Stream(_, agent)) => [Sample(agent, 1)]
    case (FrameCounts, Frame(kind, _, _)) => [Sample(kind, 1)]
    case _ => []
  }

  function Timed(e: Event): seq<Sample<real>> {
    match e
    case Message(kind, _, ms) => [Sample(kind, ms)]
    case Frame(kind, _, ms) => [Sample(FrameLabel(kind), ms)]
    case Stream(_, _) => []
  }

  function Counts(series: Series, es: seq<Event>): seq<Sample<nat>> {
    if es == [] then [] else Counts(series, es[..|es| - 1]) + Counted(series, es[|es| - 1])
  }

  function Timings(es: seq<Event>): seq<Sample<real>> {
    if es == [] then [] else Timings(es[..|es| - 1]) + Timed(es[|es| - 1])
  }

  function Keys<T>(samples: seq<Sample<T>>): set<string> {
    set i | 0 <= i < |samples| :: samples[i].key
  }

  function Total(samples: seq<Sample<nat>>, key: string): nat {
    if samples == [] then 0
    else
      var last := samples[|samples| - 1];
      Total(samples[..|samples| - 1], key) + if last.key == key then last.amount else 0
  }

  function Sum(samples: seq<Sample<real>>, key: string): real {
    if samples == [] then 0.0
    else
      var last := samples[|samples| - 1];
      Sum(samples[..|samples| - 1], key) + if last.key == key then last.amount else 0.0
  }

  function Occurrences(samples: seq<Sample<real>>, key: string): nat {
    if samples == [] then 0
    else Occurrences(samples[..|samples| - 1], key) + if samples[|samples| - 1].key == key then 1 else 0
  }

  /** `x` is the largest amount under `key`. */
  predicate IsMax(samples: seq<Sample<real>>, key: string, x: real) {
    && Sample(key, x) in samples
    && forall i :: 0 <= i < |samples| && samples[i].key == key ==> samples[i].amount <= x
  }

  /** The map has the keys of the samples, each with the sum of its amounts. */
  ghost predicate Sums(m: map<string, nat>, samples: seq<Sample<nat>>) {
    m.Keys == Keys(samples) && forall k :: k in m ==> m[k] == Total(samples, k)
  }

  /** The map has the keys of the samples, each with its count, sum and maximum. */
  ghost predicate Times(m: map<string, Timing>, samples: seq<Sample<real>>) {
    && m.Keys == Keys(samples)
    && forall k :: k in m ==>
         && m[k].count == Occurrences(samples, k) && m[k].totalMs == Sum(samples, k)
         && IsMax(samples, k, m[k].maxMs)
  }

  /** The tally is the recount of the events. */
  ghost predicate Recounts(t: Tally, es: seq<Event>) {
    && Sums(t.messages, Counts(MessageCounts, es))
    && Sums(t.bytes, Counts(MessageBytes, es))
    && Times(t.handlers, Timings(es))
    && Sums(t.streams, Counts(StreamCounts, es))
    && Sums(t.agents, Counts(AgentCounts, es))
    && Sums(t.frames, Counts(FrameCounts, es))
  }

  // ---------------------------------------------------------------------------
  // Adding and merging
  // ---------------------------------------------------------------------------

  function Amount(m: map<string, nat>, key: string): nat {
    if key in m then m[key] else 0
  }

  function Increment(m: map<string, nat>, key: string, amount: nat): map<string, nat> {
    m[key := Amount(m, key) + amount]
  }

  function Larger(x: real, y: real): real {
    if x < y then y else x
  }

  function Joined(a: Timing, b: Timing): Timing {
    Timing(a.count + b.count, a.totalMs + b.totalMs, Larger(a.maxMs, b.maxMs))
  }

  /** The timings of one key merged in; a key that is new takes them as they are. */
  function Join(m: map<string, Timing>, key: string, t: Timing): map<string, Timing> {
    m[key := if key in m then Joined(m[key], t) else t]
  }

  function IncrementTiming(m: map<string, Timing>, key: string, ms: real): map<string, Timing> {
    Join(m, key, Timing(1, ms, ms))
  }

  ghost predicate MergedCounts(merged: map<string, nat>, a: map<string, nat>, b: map<string, nat>) {
    && merged.Keys == a.Keys + b.Keys
    && forall k :: k in merged ==> merged[k] == Amount(a, k) + Amount(b, k)
  }

  ghost predicate MergedTimings(merged: map<string, Timing>, a: map<string, Timing>, b: map<string, Timing>) {
    && merged.Keys == a.Keys + b.Keys
    && forall k :: k in merged ==>
         merged[k] == if k !in a then b[k] else if k !in b then a[k] else Joined(a[k], b[k])
  }

  lemma KeysConcat<T>(a: seq<Sample<T>>, b: seq<Sample<T>>)
    ensures Keys(a + b) == Keys(a) + Keys(b)
  {
    forall k
      ensures k in Keys(a + b) <==> k in Keys(a) || k in Keys(b)
    {
      if k in Keys(a) {
        var i :| 0 <= i < |a| && a[i].key == k;
        assert (a + b)[i].key == k;
      }
      if k in Keys(b) {
        var i :| 0 <= i < |b| && b[i].key == k;
        assert (a + b)[|a| + i].key == k;
      }
    }
  }

  lemma {:induction false} TotalConcat(a: seq<Sample<nat>>, b: seq<Sample<nat>>, key: string)
    ensures Total(a + b, key) == Total(a, key) + Total(b, key)
  {
    if b == [] {
      assert a + b == a;
    } else {
      assert (a + b)[..|a + b| - 1] == a + b[..|b| - 1];
      TotalConcat(a, b[..|b| - 1], key);
    }
  }

  lemma {:induction false} SumConcat(a: seq<Sample<real>>, b: seq<Sample<real>>, key: string)
    ensures Sum(a + b, key) == Sum(a, key) + Sum(b, key)
    ensures Occurrences(a + b, key) == Occurrences(a, key) + Occurrences(b, key)
  {
    if b == [] {
      assert a + b == a;
    } else {
      assert (a + b)[..|a + b| - 1] == a + b[..|b| - 1];
      SumConcat(a, b[..|b| - 1], key);
    }
  }

  lemma {:induction false} AbsentTotal(a: seq<Sample<nat>>, key: string)
    requires key !in Keys(a)
    ensures Total(a, key) == 0
  {
    if a != [] {
      assert a[|a| - 1].key in Keys(a);
      assert Keys(a[..|a| - 1]) <= Keys(a);
      AbsentTotal(a[..|a| - 1], key);
    }
  }

  lemma {:induction false} AbsentSum(a: seq<Sample<real>>, key: string)
    requires key !in Keys(a)
    ensures Sum(a, key) == 0.0 && Occurrences(a, key) == 0
  {
    if a != [] {
      assert a[|a| - 1].key in Keys(a);
      assert Keys(a[..|a| - 1]) <= Keys(a);
      AbsentSum(a[..|a| - 1], key);
    }
  }

  /** Merging two recounted maps recounts the samples of both. */
  lemma MergedSums(merged: map<string, nat>, a: map<string, nat>, b: map<string, nat>,
                   sa: seq<Sample<nat>>, sb: seq<Sample<nat>>)
    requires Sums(a, sa) && Sums(b, sb) && MergedCounts(merged, a, b)
    ensures Sums(merged, sa + sb)
  {
    KeysConcat(sa, sb);
    forall k | k in merged
      ensures merged[k] == Total(sa + sb, k)
    {
      TotalConcat(sa, sb, k);
      if k !in a { AbsentTotal(sa, k); }
      if k !in b { AbsentTotal(sb, k); }
    }
  }

  lemma MaxConcat(a: seq<Sample<real>>, b: seq<Sample<real>>, key: string, x: real)
    requires if key !in Keys(a) then IsMax(b, key, x)
             else if key !in Keys(b) then IsMax(a, key, x)
             else exists u, v :: IsMax(a, key, u) && IsMax(b, key, v) && x == Larger(u, v)
    ensures IsMax(a + b, key, x)
  {
    forall i | 0 <= i < |a + b| && (a + b)[i].key == key
      ensures (a + b)[i].amount <= x
    {
      if i < |a| {
        assert a[i].key in Keys(a) && a[i].key == key;
      } else {
        assert b[i - |a|].key in Keys(b) && b[i - |a|].key == key;
      }
    }
  }

  lemma MergedTimes(merged: map<string, Timing>, a: map<string, Timing>, b: map<string, Timing>,
                    sa: seq<Sample<real>>, sb: seq<Sample<real>>)
    requires Times(a, sa) && Times(b, sb) && MergedTimings(merged, a, b)
    ensures Times(merged, sa + sb)
  {
    KeysConcat(sa, sb);
    forall k | k in merged
      ensures merged[k].count == Occurrences(sa + sb, k) && merged[k].totalMs == Sum(sa + sb, k)
      ensures IsMax(sa + sb, k, merged[k].maxMs)
    {
      SumConcat(sa, sb, k);
      if k !in a { AbsentSum(sa, k); }
      if k !in b { AbsentSum(sb, k); }
      MaxConcat(sa, sb, k, merged[k].maxMs);
    }
  }

  lemma {:induction false} CountsConcat(series: Series, a: seq<Event>, b: seq<Event>)
    ensures Counts(series, a + b) == Counts(series, a) + Counts(series, b)
  {
    if b == [] {
      assert a + b == a;
    } else {
      var n := |b| - 1;
      assert (a + b)[..|a + b| - 1] == a + b[..n];
      CountsConcat(series, a, b[..n]);
    }
  }

  lemma {:induction false} TimingsConcat(a: seq<Event>, b: seq<Event>)
    ensures Timings(a + b) == Timings(a) + Timings(b)
  {
    if b == [] {
      assert a + b == a;
    } else {
      assert (a + b)[..|a + b| - 1] == a + b[..|b| - 1];
      TimingsConcat(a, b[..|b| - 1]);
    }
  }

  ghost predicate MergedTally(merged: Tally, a: Tally, b: Tally) {
    && MergedCounts(merged.messages, a.messages, b.messages)
    && MergedCounts(merged.bytes, a.bytes, b.bytes)
    && MergedTimings(merged.handlers, a.handlers, b.handlers)
    && MergedCounts(merged.streams, a.streams, b.streams)
    && MergedCounts(merged.agents, a.agents, b.agents)
    && MergedCounts(merged.frames, a.frames, b.frames)
  }

  /** Merging two recounts is the recount of both lists of events. */
  lemma MergedRecounts(merged: Tally, a: Tally, b: Tally, ea: seq<Event>, eb: seq<Event>)
    requires Recounts(a, ea) && Recounts(b, eb) && MergedTally(merged, a, b)
    ensures Recounts(merged, ea + eb)
  {
    hide Sums, Times, MergedCounts, MergedTimings, Counts, Timings;
    MergedSums(merged.messages, a.messages, b.messages, Counts(MessageCounts, ea), Counts(MessageCounts, eb));
    MergedSums(merged.bytes, a.bytes, b.bytes, Counts(MessageBytes, ea), Counts(MessageBytes, eb));
    MergedTimes(merged.handlers, a.handlers, b.handlers, Timings(ea), Timings(eb));
    MergedSums(merged.streams, a.streams, b.streams, Counts(StreamCounts, ea), Counts(StreamCounts, eb));
    MergedSums(merged.agents, a.agents, b.agents, Counts(AgentCounts, ea), Counts(AgentCounts, eb));
    MergedSums(merged.frames, a.frames, b.frames, Counts(FrameCounts, ea), Counts(FrameCounts, eb));
    CountsConcat(MessageCounts, ea, eb);
    CountsConcat(MessageBytes, ea, eb);
    TimingsConcat(ea, eb);
    CountsConcat(StreamCounts, ea, eb);
    CountsConcat(AgentCounts, ea, eb);
    CountsConcat(FrameCounts, ea, eb);
  }

  /** The tally after one more event. */
  function Record(t: Tally, e: Event): Tally {
    match e
    case Message(kind, bytes, ms) =>
      t.(messages := Increment(t.messages, kind, 1),
         bytes := Increment(t.bytes, kind, bytes),
         handlers := IncrementTiming(t.handlers, kind, ms))
    case Stream(variety, agent) =>
      t.(streams := Increment(t.streams, variety, 1), agents := Increment(t.agents, agent, 1))
    case Frame(kind, bytes, ms) =>
      t.(frames := Increment(t.frames, kind, 1),
         bytes := Increment(t.bytes, FrameLabel(kind), bytes),
         handlers := IncrementTiming(t.handlers, FrameLabel(kind), ms))
  }

  lemma KeysOne<T>(key: string, amount: T)
    ensures Keys([Sample(key, amount)]) == {key}
  {
    assert [Sample(key, amount)][0].key == key;
  }

  lemma IncrementSums(m: map<string, nat>, key: string, amount: nat, samples: seq<Sample<nat>>)
    requires Sums(m, samples)
    ensures Sums(Increment(m, key, amount), samples + [Sample(key, amount)])
  {
    var one := [Sample(key, amount)];
    assert one[0].key == key && one[..0] == [];
    KeysOne(key, amount);
    assert Total(one, key) == amount;
    assert Sums(map[key := amount], one);
    MergedSums(Increment(m, key, amount), m, map[key := amount], samples, one);
  }

  lemma IncrementTimes(m: map<string, Timing>, key: string, ms: real, samples: seq<Sample<real>>)
    requires Times(m, samples)
    ensures Times(IncrementTiming(m, key, ms), samples + [Sample(key, ms)])
  {
    var one := [Sample(key, ms)];
    assert one[0].key == key && one[..0] == [];
    assert IsMax(one, key, ms);
    assert one[..|one| - 1] == [] && Sum([], key) == 0.0;
    assert Occurrences(one, key) == 1;
    assert Sum(one, key) == ms;
    KeysOne(key, ms);
    assert Times(map[key := Timing(1, ms, ms)], one);
    MergedTimes(IncrementTiming(m, key, ms), m, map[key := Timing(1, ms, ms)], samples, one);
  }

  lemma CountsSnoc(series: Series, es: seq<Event>, e: Event)
    ensures Counts(series, es + [e]) == Counts(series, es) + Counted(series, e)
    ensures Counted(series, e) == [] ==> Counts(series, es + [e]) == Counts(series, es)
    ensures Timings(es + [e]) == Timings(es) + Timed(e)
    ensures Timed(e) == [] ==> Timings(es + [e]) == Timings(es)
  {
    assert (es + [e])[..|es|] == es;
  }

  /** Recording an event keeps the tally the recount. */
  lemma RecordRecounts(t: Tally, e: Event, es: seq<Event>)
    requires Recounts(t, es)
    ensures Recounts(Record(t, e), es + [e])
  {
    hide Sums, Times, Counts, Timings, Increment, IncrementTiming;
    CountsSnoc(MessageCounts, es, e);
    CountsSnoc(MessageBytes, es, e);
    CountsSnoc(StreamCounts, es, e);
    CountsSnoc(AgentCounts, es, e);
    CountsSnoc(FrameCounts, es, e);
    match e
    case Message(kind, bytes, ms) =>
      IncrementSums(t.messages, kind, 1, Counts(MessageCounts, es));
      IncrementSums(t.bytes, kind, bytes, Counts(MessageBytes, es));
      IncrementTimes(t.handlers, kind, ms, Timings(es));
    case Stream(variety, agent) =>
      IncrementSums(t.streams, variety, 1, Counts(StreamCounts, es));
      IncrementSums(t.agents, agent, 1, Counts(AgentCounts, es));
    case Frame(kind, bytes, ms) =>
      IncrementSums(t.frames, kind, 1, Counts(FrameCounts, es));
      IncrementSums(t.bytes, FrameLabel(kind), bytes, Counts(MessageBytes, es));
      IncrementTimes(t.handlers, FrameLabel(kind), ms, Timings(es));
  }

  lemma EmptyRecounts()
    ensures Recounts(EMPTY, [])
  {
  }

  /** There is a message or a frame among the events exactly when the tally shows one. */
  predicate Active(es: seq<Event>) {
    exists i :: 0 <= i < |es| && !es[i].Stream?
  }

  lemma {:induction false} ActivityShows(t: Tally, es: seq<Event>)
    requires Recounts(t, es)
    ensures |t.messages| > 0 || |t.frames| > 0 <==> Active(es)
  {
    assert |t.messages| > 0 <==> t.messages.Keys != {};
    assert |t.frames| > 0 <==> t.frames.Keys != {};
    KeysShow(es);
  }

  lemma {:induction false} KeysShow(es: seq<Event>)
    ensures Keys(Counts(MessageCounts, es)) != {} || Keys(Counts(FrameCounts, es)) != {} <==> Active(es)
  {
    if es != [] {
      var n := |es| - 1;
      KeysShow(es[..n]);
      KeysConcat(Counts(MessageCounts, es[..n]), Counted(MessageCounts, es[n]));
      KeysConcat(Counts(FrameCounts, es[..n]), Counted(FrameCounts, es[n]));
      KeysSingle(Counted(MessageCounts, es[n]));
      KeysSingle(Counted(FrameCounts, es[n]));
      assert Active(es) <==> Active(es[..n]) || !es[n].Stream? by {
        if Active(es[..n]) {
          var i :| 0 <= i < n && !es[..n][i].Stream?;
          assert !es[i].Stream?;
        }
        if Active(es) {
          var i :| 0 <= i < |es| && !es[i].Stream?;
          assert i < n ==> !es[..n][i].Stream?;
        }
      }
    }
  }

  lemma KeysSingle<T>(samples: seq<Sample<T>>)
    ensures Keys(samples) == {} <==> samples == []
  {
    if samples != [] { assert samples[0].key in Keys(samples); }
  }

  // ---------------------------------------------------------------------------
  // Buckets and the window
  // ---------------------------------------------------------------------------

  /** The events between two flushes that sealed something, and when they were sealed. */
  datatype Batch = Batch(events: seq<Event>, endedAt: real)

  function Events(ops: seq<Op>): seq<Event> {
    if ops == [] then []
    else
      var last := ops[|ops| - 1];
      Events(ops[..|ops| - 1]) + if last.Recorded? then [last.event] else []
  }

  /** The events no flush has sealed yet; a flush seals nothing while only stream events wait. */
  function Open(ops: seq<Op>): seq<Event> {
    if ops == [] then []
    else
      var open := Open(ops[..|ops| - 1]);
      match ops[|ops| - 1]
      case Recorded(e) => open + [e]
      case Flushed(_) => if Active(open) then [] else open
  }

  /** Every batch ever sealed. */
  function Batches(ops: seq<Op>): seq<Batch> {
    if ops == [] then []
    else Batches(ops[..|ops| - 1]) + Sealed(ops)
  }

  /** What the last step sealed. */
  function Sealed(ops: seq<Op>): (sealed: seq<Batch>)
    requires ops != []
    ensures |sealed| <= 1
  {
    var open, last := Open(ops[..|ops| - 1]), ops[|ops| - 1];
    if last.Flushed? && Active(open) then [Batch(open, last.now)] else []
  }

  function DropExpired(batches: seq<Batch>, cutoff: real): seq<Batch> {
    if batches == [] || batches[0].endedAt >= cutoff then batches else DropExpired(batches[1..], cutoff)
  }

  /** The batches that survive: at each flush the expired ones at the front go. */
  function Kept(ops: seq<Op>, windowMs: real): seq<Batch> {
    if ops == [] then []
    else
      var kept, last := Kept(ops[..|ops| - 1], windowMs) + Sealed(ops), ops[|ops| - 1];
      if last.Flushed? then DropExpired(kept, last.now - windowMs) else kept
  }

  /** The batches that ended at or after the cutoff, wherever they stand. */
  function Within(batches: seq<Batch>, cutoff: real): seq<Batch> {
    if batches == [] then []
    else
      var last := batches[|batches| - 1];
      Within(batches[..|batches| - 1], cutoff) + if last.endedAt >= cutoff then [last] else []
  }

  function Concat(batches: seq<Batch>): seq<Event> {
    if batches == [] then [] else Concat(batches[..|batches| - 1]) + batches[|batches| - 1].events
  }

  /** The latest flush, if there has been one. */
  function LastFlush(ops: seq<Op>): Option<real> {
    if ops == [] then None
    else if ops[|ops| - 1].Flushed? then Some(ops[|ops| - 1].now)
    else LastFlush(ops[..|ops| - 1])
  }

  /** The clock of the flushes does not run backwards. */
  predicate Monotone(ops: seq<Op>) {
    ops == [] ||
    (var front, last := ops[..|ops| - 1], ops[|ops| - 1];
     Monotone(front) && (last.Flushed? && LastFlush(front).Some? ==> LastFlush(front).value <= last.now))
  }

  lemma ConcatSnoc(batches: seq<Batch>, b: Batch)
    ensures Concat(batches + [b]) == Concat(batches) + b.events
  {
    assert (batches + [b])[..|batches|] == batches;
  }

  /** Every event is in exactly one place: in one sealed batch, in order, or still open. */
  lemma {:induction false} Partition(ops: seq<Op>)
    ensures Events(ops) == Concat(Batches(ops)) + Open(ops)
  {
    if ops != [] {
      var front, last := ops[..|ops| - 1], ops[|ops| - 1];
      Partition(front);
      if last.Flushed? && Active(Open(front)) {
        ConcatSnoc(Batches(front), Batch(Open(front), last.now));
      } else {
        assert Batches(ops) == Batches(front);
      }
    }
  }

  predicate Sorted(batches: seq<Batch>) {
    forall i, j :: 0 <= i < j < |batches| ==> batches[i].endedAt <= batches[j].endedAt
  }

  predicate EndedBy(batches: seq<Batch>, now: real) {
    forall i :: 0 <= i < |batches| ==> batches[i].endedAt <= now
  }

  lemma {:induction false} WithinConcat(a: seq<Batch>, b: seq<Batch>, cutoff: real)
    ensures Within(a + b, cutoff) == Within(a, cutoff) + Within(b, cutoff)
  {
    if b == [] {
      assert a + b == a;
    } else {
      assert (a + b)[..|a + b| - 1] == a + b[..|b| - 1];
      WithinConcat(a, b[..|b| - 1], cutoff);
    }
  }

  /** On sorted batches dropping from the front is filtering. */
  lemma {:induction false} DropIsFilter(batches: seq<Batch>, cutoff: real)
    requires Sorted(batches)
    ensures DropExpired(batches, cutoff) == Within(batches, cutoff)
    decreases |batches|
  {
    if batches != [] {
      assert batches == [batches[0]] + batches[1..];
      WithinConcat([batches[0]], batches[1..], cutoff);
      assert [batches[0]][..0] == [];
      if batches[0].endedAt >= cutoff {
        AllWithin(batches, cutoff);
      } else {
        DropIsFilter(batches[1..], cutoff);
      }
    }
  }

  lemma {:induction false} AllWithin(batches: seq<Batch>, cutoff: real)
    requires forall i :: 0 <= i < |batches| ==> batches[i].endedAt >= cutoff
    ensures Within(batches, cutoff) == batches
  {
    if batches != [] {
      AllWithin(batches[..|batches| - 1], cutoff);
      assert batches == batches[..|batches| - 1] + [batches[|batches| - 1]];
    }
  }

  /** Filtering again with a later cutoff is filtering once. */
  lemma {:induction false} WithinTwice(batches: seq<Batch>, earlier: real, later: real)
    requires earlier <= later
    ensures Within(Within(batches, earlier), later) == Within(batches, later)
  {
    if batches != [] {
      var front, last := batches[..|batches| - 1], batches[|batches| - 1];
      WithinTwice(front, earlier, later);
      WithinConcat(Within(front, earlier), if last.endedAt >= earlier then [last] else [], later);
      assert [last][..0] == [];
      if last.endedAt >= earlier { assert Within([last], later) == if last.endedAt >= later then [last] else []; }
    }
  }

  lemma SortedSnoc(batches: seq<Batch>, last: Batch)
    requires Sorted(batches) && EndedBy(batches, last.endedAt)
    ensures Sorted(batches + [last]) && EndedBy(batches + [last], last.endedAt)
  {
  }

  lemma {:induction false} WithinSorted(batches: seq<Batch>, cutoff: real)
    requires Sorted(batches)
    ensures Sorted(Within(batches, cutoff))
    ensures forall now :: EndedBy(batches, now) ==> EndedBy(Within(batches, cutoff), now)
  {
    if batches != [] {
      var front, last := batches[..|batches| - 1], batches[|batches| - 1];
      WithinSorted(front, cutoff);
      assert EndedBy(front, last.endedAt);
      SortedSnoc(Within(front, cutoff), last);
      forall now | EndedBy(batches, now)
        ensures EndedBy(Within(batches, cutoff), now)
      {
        assert EndedBy(front, now);
      }
    }
  }

  /** The batches are in the order of their ends, none of them after the latest flush. */
  lemma {:induction false} BatchesSorted(ops: seq<Op>)
    requires Monotone(ops)
    ensures Sorted(Batches(ops))
    ensures LastFlush(ops).None? ==> Batches(ops) == []
    ensures LastFlush(ops).Some? ==> EndedBy(Batches(ops), LastFlush(ops).value)
  {
    hide Open, Active, Sorted;
    if ops == [] {
      assert Sorted([]) by { SortedNothing(); }
    } else {
      var front, last := ops[..|ops| - 1], ops[|ops| - 1];
      BatchesSorted(front);
      if Sealed(ops) == [] {
        assert Batches(ops) == Batches(front);
      } else {
        SortedSnoc(Batches(front), Sealed(ops)[0]);
      }
    }
  }

  lemma SortedNothing()
    ensures Sorted([])
  {
  }

  /**
   * With a clock that does not run backwards, what survives a flush is exactly every batch that
   * ended within the window, counted back from that flush.
   */
  lemma {:induction false} KeptExact(ops: seq<Op>, windowMs: real)
    requires Monotone(ops)
    ensures Kept(ops, windowMs) ==
            if LastFlush(ops).None? then [] else Within(Batches(ops), LastFlush(ops).value - windowMs)
  {
    hide Sealed, Sorted, Within, DropExpired, Open, EndedBy;
    if ops != [] {
      var front, last := ops[..|ops| - 1], ops[|ops| - 1];
      KeptExact(front, windowMs);
      BatchesSorted(ops);
      BatchesSorted(front);
      if last.Flushed? {
        var before := if LastFlush(front).None? then None else Some(LastFlush(front).value - windowMs);
        WindowMoves(Batches(front), Sealed(ops), before, last.now - windowMs);
      } else {
        SealedByFlush(ops);
        assert Kept(front, windowMs) + [] == Kept(front, windowMs);
        assert Batches(front) + [] == Batches(front);
      }
    }
  }

  lemma SealedByFlush(ops: seq<Op>)
    requires ops != [] && ops[|ops| - 1].Recorded?
    ensures Sealed(ops) == []
  {
  }

  /** One flush: the surviving window moves on to its cutoff, with what was sealed at its end. */
  lemma WindowMoves(batches: seq<Batch>, sealed: seq<Batch>, before: Option<real>, cutoff: real)
    requires Sorted(batches + sealed) && |sealed| <= 1
    requires if before.None? then batches == [] else before.value <= cutoff
    ensures var window := if before.None? then [] else Within(batches, before.value);
            DropExpired(window + sealed, cutoff) == Within(batches + sealed, cutoff)
  {
    hide Within, DropExpired, Sorted;
    if before.Some? {
      var window := Within(batches, before.value);
      WithinTwice(batches, before.value, cutoff);
      WithinConcat(batches, sealed, cutoff);
      WithinConcat(window, sealed, cutoff);
      SurvivorsSorted(batches, sealed, before.value);
      DropIsFilter(window + sealed, cutoff);
    } else {
      DropIsFilter(batches + sealed, cutoff);
    }
  }

  lemma SurvivorsSorted(batches: seq<Batch>, sealed: seq<Batch>, cutoff: real)
    requires Sorted(batches + sealed) && |sealed| <= 1
    ensures Sorted(Within(batches, cutoff) + sealed)
  {
    assert batches == (batches + sealed)[..|batches|];
    WithinSorted(batches, cutoff);
    if sealed != [] {
      assert (batches + sealed)[|batches|] == sealed[0];
      assert EndedBy(batches, sealed[0].endedAt) by {
        forall i | 0 <= i < |batches|
          ensures batches[i].endedAt <= sealed[0].endedAt
        {
          assert (batches + sealed)[i] == batches[i];
        }
      }
      SortedSnoc(Within(batches, cutoff), sealed[0]);
      assert Within(batches, cutoff) + sealed == Within(batches, cutoff) + [sealed[0]];
    } else {
      assert Within(batches, cutoff) + sealed == Within(batches, cutoff);
    }
  }

  /** What the window holds: exactly the batches that ended at its start or later. */
  lemma {:induction false} WithinExactly(batches: seq<Batch>, cutoff: real, b: Batch)
    ensures b in Within(batches, cutoff) <==> b in batches && cutoff <= b.endedAt
  {
    if batches != [] {
      var n := |batches| - 1;
      WithinExactly(batches[..n], cutoff, b);
      assert batches == batches[..n] + [batches[n]];
    }
  }

  /**
   * What each kind of event counts for: a message under its kind, with its bytes and its time; a
   * stream event under its variety and under its agent; a frame under its kind, and with its bytes
   * and its time under that kind with "binary:" before it.
   */
  lemma SamplesExactly(series: Series, e: Event)
    ensures Counted(series, e) ==
            if e.Message? && series == MessageCounts then [Sample(e.kind, 1)]
            else if e.Message? && series == MessageBytes then [Sample(e.kind, e.bytes)]
            else if e.Frame? && series == FrameCounts then [Sample(e.kind, 1)]
            else if e.Frame? && series == MessageBytes then [Sample("binary:" + e.kind, e.bytes)]
            else if e.Stream? && series == StreamCounts then [Sample(e.variety, 1)]
            else if e.Stream? && series == AgentCounts then [Sample(e.agent, 1)]
            else []
    ensures Timed(e) ==
            if e.Stream? then [] else [Sample(if e.Frame? then "binary:" + e.kind else e.kind, e.handlerMs)]
  {
  }
}
