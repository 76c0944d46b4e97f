/** Waiting until no provider is loading: an update may come before, with or after the snapshot. */
module ProviderWait {
  import opened Prelude

  datatype Entry = Entry(provider: string, loading: bool)

  /** The working directory a snapshot or update is about; updates may name none. */
  type Cwd = Option<string>

  datatype Event =
    | Update(cwd: Cwd, entries: seq<Entry>)
    | Response(requestId: string, place: Cwd, snapshot: seq<Entry>)
    | Fails
    | Aborts
    | TimesOut

  datatype Outcome =
    | Resolved(requestId: string, cwd: Cwd, entries: seq<Entry>)
    | Failed
    | Aborted
    | TimedOut(loading: seq<string>)

  datatype State = State(
    settled: Option<Outcome>,
    requestId: Option<string>,
    cwd: Cwd,
    pending: map<Cwd, seq<Entry>>,
    latest: seq<Entry>)

  const INITIAL := State(None, None, None, map[], [])

  predicate Ready(entries: seq<Entry>) {
    forall i :: 0 <= i < |entries| ==> !entries[i].loading
  }

  function Loading(entries: seq<Entry>): seq<string> {
    if entries == [] then []
    else (if entries[0].loading then [entries[0].provider] else []) + Loading(entries[1..])
  }

  /** The request id is known; the empty string counts as not known. */
  predicate Known(requestId: Option<string>) {
    requestId.Some? && requestId.value != ""
  }

  function Finish(s: State, o: Outcome): State {
    if s.settled.Some? then s else s.(settled := Some(o))
  }

  /** A settled wait has cleaned up: only the answer to its request can still come, without effect. */
  function Step(s: State, e: Event): State {
    match e
    case Update(cwd, entries) =>
      if s.settled.Some? then s
      else if !Known(s.requestId) then s.(pending := s.pending[cwd := entries])
      else if cwd != s.cwd then s
      else
        var s1 := s.(latest := entries);
        if Ready(entries) then Finish(s1, Resolved(s.requestId.value, cwd, entries)) else s1
    case Response(id, cwd, entries) =>
      var s1 := s.(requestId := Some(id), cwd := cwd, latest := entries);
      if Ready(entries) then Finish(s1, Resolved(id, cwd, entries))
      else if cwd in s.pending && Ready(s.pending[cwd]) then Finish(s1, Resolved(id, cwd, s.pending[cwd]))
      else s1
    case Fails => Finish(s, Failed)
    case Aborts => Finish(s, Aborted)
    case TimesOut => Finish(s, TimedOut(Loading(s.latest)))
  }

  function After(es: seq<Event>): State {
    if es == [] then INITIAL else Step(After(es[..|es| - 1]), es[|es| - 1])
  }

  // ---------------------------------------------------------------------------
  // When the wait must settle
  // ---------------------------------------------------------------------------

  /** The answer among the events, if it has come. */
  function Answer(es: seq<Event>): Option<Event> {
    if es == [] then None
    else if es[|es| - 1].Response? || es[|es| - 1].Fails? then Some(es[|es| - 1])
    else Answer(es[..|es| - 1])
  }

  /** The request is answered at most once, and a response names it. */
  predicate Answered(es: seq<Event>) {
    es == [] ||
    (var front, last := es[..|es| - 1], es[|es| - 1];
     && Answered(front)
     && (last.Response? || last.Fails? ==> Answer(front).None?)
     && (last.Response? ==> last.requestId != ""))
  }

  /** The latest update for a directory. */
  function LatestUpdate(es: seq<Event>, cwd: Cwd): Option<seq<Entry>> {
    if es == [] then None
    else
      var last := es[|es| - 1];
      if last.Update? && last.cwd == cwd then Some(last.entries) else LatestUpdate(es[..|es| - 1], cwd)
  }

  /** What the wait knows of its own directory: the snapshot or a later update, whichever is last. */
  function Seen(es: seq<Event>): seq<Entry> {
    if es == [] then []
    else
      var front, last := es[..|es| - 1], es[|es| - 1];
      if last.Response? then last.snapshot
      else if last.Update? && Concerns(front, last.cwd) then last.entries
      else Seen(front)
  }

  /** The response has come and was about this directory. */
  predicate Concerns(es: seq<Event>, cwd: Cwd) {
    Answer(es).Some? && Answer(es).value.Response? && Answer(es).value.place == cwd
  }

  /**
   * What the last event settles the wait with, if the wait is still open: a snapshot without a
   * loading entry, the latest earlier update for its directory if that has none, a later update
   * for it that has none, or a failure, an abort or the timeout.
   */
  function Verdict(es: seq<Event>): Option<Outcome>
    requires es != []
  {
    var front, last := es[..|es| - 1], es[|es| - 1];
    match last
    case Update(cwd, entries) =>
      if Concerns(front, cwd) && Ready(entries)
      then Some(Resolved(Answer(front).value.requestId, cwd, entries)) else None
    case Response(id, cwd, entries) =>
      var earlier := LatestUpdate(front, cwd);
      if Ready(entries) then Some(Resolved(id, cwd, entries))
      else if earlier.Some? && Ready(earlier.value) then Some(Resolved(id, cwd, earlier.value))
      else None
    case Fails => Some(Failed)
    case Aborts => Some(Aborted)
    case TimesOut => Some(TimedOut(Loading(Seen(front))))
  }

  function VerdictAt(es: seq<Event>, i: nat): Option<Outcome>
    requires i < |es|
  {
    Verdict(es[..i + 1])
  }

  /** `i` is the first moment at which something settles the wait. */
  ghost predicate FirstVerdict(es: seq<Event>, i: nat) {
    && i < |es|
    && VerdictAt(es, i).Some?
    && forall j: nat :: j < i ==> VerdictAt(es, j).None?
  }

  // ---------------------------------------------------------------------------
  // Proofs
  // ---------------------------------------------------------------------------

  /** The open wait has remembered what it needs. */
  ghost predicate Remembers(s: State, es: seq<Event>) {
    && s.settled.None?
    && (Answer(es).None? ==>
          && s.requestId.None? && s.latest == []
          && forall cwd :: if LatestUpdate(es, cwd).None? then cwd !in s.pending
                           else cwd in s.pending && s.pending[cwd] == LatestUpdate(es, cwd).value)
    && (Answer(es).Some? ==>
          && Answer(es).value.Response? && s.requestId == Some(Answer(es).value.requestId)
          && Known(s.requestId) && s.cwd == Answer(es).value.place)
    && s.latest == Seen(es)
  }

  lemma {:induction false} OpenRemembers(es: seq<Event>)
    requires Answered(es)
    requires forall j: nat :: j < |es| ==> VerdictAt(es, j).None?
    ensures Remembers(After(es), es)
  {
    if es != [] {
      var n := |es| - 1;
      var front := es[..n];
      forall j: nat | j < n
        ensures VerdictAt(front, j).None?
      {
        assert front[..j + 1] == es[..j + 1];
        assert VerdictAt(es, j).None?;
      }
      assert es[..n + 1] == es && VerdictAt(es, n).None?;
      OpenRemembers(front);
      if Answer(front).None? { UnansweredSeesNothing(front); }
    }
  }

  lemma {:induction false} UnansweredSeesNothing(es: seq<Event>)
    requires Answer(es).None?
    ensures Seen(es) == []
  {
    if es != [] { UnansweredSeesNothing(es[..|es| - 1]); }
  }

  lemma {:induction false} SettledStays(es: seq<Event>, more: seq<Event>)
    requires After(es).settled.Some?
    ensures After(es + more).settled == After(es).settled
  {
    if more == [] {
      assert es + more == es;
    } else {
      SettledStays(es, more[..|more| - 1]);
      assert (es + more)[..|es + more| - 1] == es + more[..|more| - 1];
    }
  }

  /** No wake-up is lost: the wait settles at the first moment it should, as it should, and once. */
  lemma SettlesFirst(es: seq<Event>, i: nat)
    requires Answered(es) && FirstVerdict(es, i)
    ensures After(es).settled == VerdictAt(es, i)
  {
    hide Answered, Remembers, Verdict;
    AnsweredPrefix(es, i);
    forall j: nat | j < |es[..i]|
      ensures VerdictAt(es[..i], j).None?
    {
      assert es[..i][..j + 1] == es[..j + 1];
      assert VerdictAt(es, j).None?;
    }
    OpenRemembers(es[..i]);
    assert es[..i + 1][..i] == es[..i];
    VerdictApplies(es[..i + 1]);
    SettledStays(es[..i + 1], es[i + 1..]);
    assert es == es[..i + 1] + es[i + 1..];
  }

  lemma VerdictApplies(es: seq<Event>)
    requires es != [] && Answered(es) && Remembers(After(es[..|es| - 1]), es[..|es| - 1]) && Verdict(es).Some?
    ensures After(es).settled == Verdict(es)
  {
  }

  lemma {:induction false} AnsweredPrefix(es: seq<Event>, i: nat)
    requires Answered(es) && i < |es|
    ensures Answered(es[..i + 1]) && Answered(es[..i])
    decreases |es|
  {
    if i == |es| - 1 {
      assert es[..i + 1] == es;
    } else {
      AnsweredPrefix(es[..|es| - 1], i);
      assert es[..|es| - 1][..i + 1] == es[..i + 1] && es[..|es| - 1][..i] == es[..i];
    }
  }

  /** And it settles only then. */
  lemma StaysOpen(es: seq<Event>)
    requires Answered(es) && forall i :: !FirstVerdict(es, i)
    ensures After(es).settled.None?
  {
    forall j: nat | j < |es|
      ensures VerdictAt(es, j).None?
    {
      NoVerdict(es, j);
    }
    OpenRemembers(es);
  }

  lemma {:induction false} NoVerdict(es: seq<Event>, j: nat)
    requires j < |es| && forall i :: !FirstVerdict(es, i)
    ensures forall i: nat :: i <= j ==> VerdictAt(es, i).None?
  {
    if j > 0 { NoVerdict(es, j - 1); }
    assert !FirstVerdict(es, j);
  }

  /** Whatever happens, the wait never resolves with a loading entry. */
  lemma {:induction false} NeverResolvesLoading(es: seq<Event>)
    ensures After(es).settled.Some? && After(es).settled.value.Resolved? ==>
      forall e :: e in After(es).settled.value.entries ==> !e.loading
  {
    if es != [] { NeverResolvesLoading(es[..|es| - 1]); }
  }

  /** The names of the entries that still load, as often as they stand there. */
  lemma {:induction false} LoadingExactly(entries: seq<Entry>, name: string)
    ensures name in Loading(entries) <==> Entry(name, true) in entries
    ensures Loading(entries) == [] <==> forall e :: e in entries ==> !e.loading
    decreases |entries|
  {
    if entries != [] {
      LoadingExactly(entries[1..], name);
      assert entries == [entries[0]] + entries[1..];
    }
  }

  /** A wait that times out names exactly the providers that load in what it saw last of its directory. */
  lemma TimeoutNames(es: seq<Event>, name: string)
    requires Answered(es) && forall j: nat :: j < |es| ==> VerdictAt(es, j).None?
    ensures var o := After(es + [TimesOut]).settled;
      o.Some? && o.value.TimedOut? && (name in o.value.loading <==> Entry(name, true) in Seen(es))
  {
    hide Answered, Verdict;
    OpenRemembers(es);
    assert (es + [TimesOut])[..|es|] == es;
    LoadingExactly(Seen(es), name);
  }

  /**
   * A response with an empty request id leaves the wait deaf: an update that should end it does so
   * exactly when the id is not empty.
   */
  lemma WakesExactly(es: seq<Event>, entries: seq<Entry>)
    requires After(es).settled.None? && After(es).requestId.Some? && Ready(entries)
    ensures var s := After(es);
            After(es + [Update(s.cwd, entries)]).settled ==
            if s.requestId.value != "" then Some(Resolved(s.requestId.value, s.cwd, entries)) else None
  {
    assert (es + [Update(After(es).cwd, entries)])[..|es|] == es;
  }

  /** After such a response only a failure, an abort or the timeout ends the wait. */
  lemma {:induction false} DeafForever(es: seq<Event>, more: seq<Event>)
    requires After(es).settled.None? && After(es).requestId == Some("")
    requires forall i :: 0 <= i < |more| ==> !more[i].Response?
    ensures var s := After(es + more);
            (s.settled.None? && s.requestId == Some("")) || (s.settled.Some? && !s.settled.value.Resolved?)
  {
    if more == [] {
      assert es + more == es;
    } else {
      DeafForever(es, more[..|more| - 1]);
      assert (es + more)[..|es + more| - 1] == es + more[..|more| - 1];
    }
  }

  /** Such a wait exists: the wake-up is there and is lost. */
  lemma LostWakeUp() returns (es: seq<Event>)
    ensures After(es).settled.None? && |es| == 2
    ensures es[0].Response? && es[1].Update? && es[1].cwd == es[0].place && Ready(es[1].entries)
  {
    es := [Response("", Some("/"), [Entry("claude", true)]), Update(Some("/"), [Entry("claude", false)])];
    assert es[..1] == [es[0]] && es[..1][..0] == [];
    assert es[0].snapshot[0].loading;
    assert After(es[..1]) == Step(INITIAL, es[0]);
  }

  // ---------------------------------------------------------------------------
  // The program
  // ---------------------------------------------------------------------------

  class Waiter {
    var settled: Option<Outcome>
    var requestId: Option<string>
    var snapshotCwd: Cwd
    var pendingUpdates: map<Cwd, seq<Entry>>
    var latestEntries: seq<Entry>

    ghost function View(): State
      reads this
    {
      State(settled, requestId, snapshotCwd, pendingUpdates, latestEntries)
    }

    constructor ()
      ensures View() == INITIAL
    {
      settled, requestId, snapshotCwd, pendingUpdates, latestEntries := None, None, None, map[], [];
    }

    method Settle(o: Outcome)
      modifies this`settled
      ensures View() == Finish(old(View()), o)
    {
      if settled.Some? { return; }
      settled := Some(o);
    }

    method OnUpdate(cwd: Cwd, entries: seq<Entry>)
      requires settled.None?
      modifies this
      ensures View() == Step(old(View()), Update(cwd, entries))
    {
      if requestId.None? || requestId.value == "" {
        pendingUpdates := pendingUpdates[cwd := entries];
        return;
      }
      if cwd != snapshotCwd { return; }
      latestEntries := entries;
      var loading := AnyLoading(entries);
      if loading { return; }
      Settle(Resolved(requestId.value, cwd, entries));
    }

    method OnSnapshot(id: string, cwd: Cwd, entries: seq<Entry>)
      modifies this
      ensures View() == Step(old(View()), Response(id, cwd, entries))
    {
      requestId, snapshotCwd, latestEntries := Some(id), cwd, entries;
      var loading := AnyLoading(entries);
      if !loading {
        Settle(Resolved(id, cwd, entries));
        return;
      }
      if cwd in pendingUpdates {
        var still := AnyLoading(pendingUpdates[cwd]);
        if !still { Settle(Resolved(id, cwd, pendingUpdates[cwd])); }
      }
    }

    method OnFailure()
      modifies this`settled
      ensures View() == Step(old(View()), Fails)
    {
      Settle(Failed);
    }

    method OnAbort()
      requires settled.None?
      modifies this`settled
      ensures View() == Step(old(View()), Aborts)
    {
      Settle(Aborted);
    }

    method OnTimeout()
      requires settled.None?
      modifies this`settled
      ensures View() == Step(old(View()), TimesOut)
    {
      Settle(TimedOut(Loading(latestEntries)));
    }
  }

  method AnyLoading(entries: seq<Entry>) returns (loading: bool)
    ensures loading <==> !Ready(entries)
  {
    for i := 0 to |entries|
      invariant Ready(entries[..i])
    {
      if entries[i].loading { return true; }
    }
    return false;
  }
}
