/** Theorems about every run of the encrypted transport wrapper, whatever re-enters it and when. */
module EncryptedRuns {
  import opened Prelude
  import opened EncryptedTransport

  function Apply(s: State, e: Event): State {
    if Enabled(s, e) then Step(s, e) else s
  }

  /** The state after a script of events; an event that cannot happen when its turn comes is skipped. */
  function After(s: State, es: seq<Event>): State {
    if es == [] then s else Apply(After(s, es[..|es| - 1]), es[|es| - 1])
  }

  lemma AfterSnoc(s: State, es: seq<Event>, e: Event)
    ensures After(s, es + [e]) == Apply(After(s, es), e)
  {
    assert (es + [e])[..|es|] == es;
  }

  lemma {:induction false} AfterConcat(s: State, es: seq<Event>, more: seq<Event>)
    ensures After(s, es + more) == After(After(s, es), more)
  {
    if more == [] {
      assert es + more == es;
    } else {
      var n := |more| - 1;
      assert es + more == (es + more[..n]) + [more[n]];
      AfterConcat(s, es, more[..n]);
      AfterSnoc(s, es + more[..n], more[n]);
    }
  }

  lemma {:induction false} AfterInv(s: State, es: seq<Event>)
    requires Inv(s)
    ensures Inv(After(s, es)) && After(s, es).minimum == s.minimum
  {
    hide Inv, EmitMessage;
    if es != [] {
      AfterInv(s, es[..|es| - 1]);
      var before := After(s, es[..|es| - 1]);
      var e := es[|es| - 1];
      if Enabled(before, e) {
        StepKeeps(before, e);
        MinimumFixed(before, e);
      }
    }
  }

  lemma MinimumFixed(s: State, e: Event)
    requires Enabled(s, e)
    ensures Step(s, e).minimum == s.minimum
  {
  }

  ghost predicate Reachable(s: State) {
    exists minimum, echoes, es :: s == After(Initial(minimum, echoes), es)
  }

  lemma ReachableInv(s: State)
    requires Reachable(s)
    ensures Inv(s)
  {
    var minimum, echoes, es :| s == After(Initial(minimum, echoes), es);
    assert Inv(Initial(minimum, echoes));
    AfterInv(Initial(minimum, echoes), es);
  }

  lemma ReachableApply(s: State, e: Event)
    requires Reachable(s)
    ensures Reachable(Apply(s, e))
  {
    var minimum, echoes, es :| s == After(Initial(minimum, echoes), es);
    AfterSnoc(Initial(minimum, echoes), es, e);
  }

  // ---------------------------------------------------------------------------
  // Claims
  // ---------------------------------------------------------------------------

  /** Nothing is lost, doubled or reordered; after a close the owner has seen a prefix. */
  lemma InOrder(s: State)
    requires Reachable(s)
    ensures !s.owner.closed ==> Delivered(s.owner.signals) + s.early.msgs == s.received
    ensures Delivered(s.owner.signals) <= s.received
    ensures s.phase == Published && !s.owner.closed ==> Delivered(s.owner.signals) == s.received
  {
    ReachableInv(s);
  }

  /**
   * Open comes before every message and only once, behind the report of a mode that meets the
   * floor and with the channel assigned so that `send` has its owner; nothing follows a close.
   */
  lemma OpenFirstCloseLast(s: State)
    requires Reachable(s)
    ensures Ordered(s.owner.signals, s.minimum)
    ensures s.owner.closed <==> Ended(s.owner.signals)
    ensures Opened in s.owner.signals ==>
      s.channel.held && s.channel.mode.Some? && Meets(s.minimum, s.channel.mode.value)
    ensures Opened in s.owner.signals && s.minimum == Protected ==> s.channel.mode == Some(Protected)
  {
    ReachableInv(s);
  }

  lemma {:induction false} SilentAfterClose(s: State, es: seq<Event>)
    requires Inv(s) && s.owner.closed
    ensures After(s, es).owner.closed && After(s, es).owner.signals == s.owner.signals
  {
    if es != [] {
      SilentAfterClose(s, es[..|es| - 1]);
      var before := After(s, es[..|es| - 1]);
      var e := es[|es| - 1];
      if Enabled(before, e) { ClosedStep(before, e); }
    }
  }

  lemma ClosedStep(s: State, e: Event)
    requires s.owner.closed && Enabled(s, e)
    ensures Step(s, e).owner.closed && Step(s, e).owner.signals == s.owner.signals
  {
  }

  /** The byte counter is the sum of what is buffered, and both limits always hold. */
  lemma BufferBounded(s: State)
    requires Reachable(s)
    ensures |s.early.msgs| <= 64 && s.early.bytes == Bytes(s.early.msgs) <= 1024 * 1024
  {
    ReachableInv(s);
  }

  /**
   * A message that arrives early costs the session exactly when it would break a limit. The one close
   * the owner then sees has code 4002, or the base's own code if the base reports from within its close.
   */
  lemma AdmissionExact(s: State, m: Msg)
    requires Reachable(s) && !s.owner.closed && s.phase != Published && s.channel.mode.Some?
    ensures var s' := Apply(s, Outside(Receives(m)));
            if |s.early.msgs + [m]| <= 64 && Bytes(s.early.msgs + [m]) <= 1024 * 1024
            then !s'.owner.closed && s'.early.msgs == s.early.msgs + [m]
            else
              && s'.owner.signals == s.owner.signals + [Closed(Reported(s, 4002))] && s'.early.msgs == []
              && s'.baseCloses == s.baseCloses + [4002]
  {
    ReachableInv(s);
    BytesAppend(s.early.msgs, m);
  }

  predicate Dropped(s: State, signals: seq<Signal>) {
    s.owner.closed && s.phase == Over && s.channel.held && s.channel.closeCalled && s.owner.signals == signals
  }

  /** A channel that the factory hands over after a close is closed, and is never published. */
  lemma {:induction false} LateChannelClosed(s: State, es: seq<Event>)
    requires Reachable(s) && s.owner.closed && s.phase == Opening
    ensures Dropped(After(Apply(s, FactoryReturns), es), s.owner.signals)
  {
    ReachableInv(s);
    DroppedForever(Apply(s, FactoryReturns), es);
  }

  lemma {:induction false} DroppedForever(s: State, es: seq<Event>)
    requires Dropped(s, s.owner.signals)
    ensures Dropped(After(s, es), s.owner.signals)
  {
    if es != [] {
      DroppedForever(s, es[..|es| - 1]);
      DroppedStays(After(s, es[..|es| - 1]), es[|es| - 1]);
    }
  }

  lemma DroppedStays(s: State, e: Event)
    requires Dropped(s, s.owner.signals)
    ensures Dropped(Apply(s, e), s.owner.signals)
  {
  }

  /**
   * In a legacy session the first `server_info` that comes as text does not reach the owner when it
   * advertises protected support, and nothing behind it does.
   */
  lemma DowngradeRefused(s: State, k: nat)
    requires Reachable(s) && s.channel.mode == Some(Legacy) && k < |s.received|
    requires s.received[k].Text? && Advertises(s.received[k]) && !Introduced(s.received[..k])
    ensures |Delivered(s.owner.signals)| <= k
  {
    ReachableInv(s);
    var delivered := Delivered(s.owner.signals);
    if k < |delivered| { GuardedPrefix(delivered, s.received, k); }
  }

  lemma GuardedPrefix(delivered: seq<Msg>, received: seq<Msg>, k: nat)
    requires Guarded(delivered) && delivered <= received && k < |delivered|
    requires received[k].Text? && Advertises(received[k])
    ensures Introduced(received[..k])
  {
    assert delivered[..k] == received[..k];
  }

  /** `e` is the moment at which the wrapper decides what becomes of `m`. */
  predicate Turn(s: State, e: Event, m: Msg) {
    && Enabled(s, e) && !s.owner.closed
    && ((e == Outside(Receives(m)) && s.phase == Published) || (e == Drains && s.early.msgs[0] == m))
  }

  /**
   * Which advertising `server_info` a legacy session lets through when its turn comes: exactly one
   * that came as bytes, or that a `server_info` delivered as text preceded. The check therefore
   * covers the first one that comes as text.
   */
  lemma DowngradeExact(s: State, e: Event, m: Msg)
    requires Reachable(s) && s.channel.mode == Some(Legacy) && Advertises(m) && Turn(s, e, m)
    ensures var s' := Apply(s, e);
            if m.Binary? || Introduced(Delivered(s.owner.signals))
            then Delivered(s'.owner.signals) == Delivered(s.owner.signals) + [m] && !s'.owner.closed
            else s'.owner.signals == s.owner.signals + [Closed(Reported(s, 4002))]
  {
    hide Introduced, Delivered;
    ReachableInv(s);
    DeliverKeeps(s.owner, m, s.minimum);
  }

  /** A legacy session whose first message is an advertising `server_info` as bytes delivers it. */
  lemma BytesPass() returns (s: State, m: Msg)
    ensures Reachable(s) && s.channel.mode == Some(Legacy)
    ensures Delivered(s.owner.signals) == [m] && Advertises(m)
  {
    hide Inv, Delivered, Apply, Step, Reachable;
    m := Binary(0, 1, Some(true));
    var ready := LegacyPublished();
    InOrder(ready);
    DowngradeExact(ready, Outside(Receives(m)), m);
    ReachableApply(ready, Outside(Receives(m)));
    s := Apply(ready, Outside(Receives(m)));
    ModeStays(ready, Outside(Receives(m)));
  }

  /** A legacy session that is told "no" first and "yes" second delivers both. */
  lemma SecondServerInfoPasses() returns (s: State, m: Msg)
    ensures Reachable(s) && s.channel.mode == Some(Legacy)
    ensures m in Delivered(s.owner.signals) && Advertises(m)
  {
    hide Inv, Delivered, Apply, Step, Reachable;
    m := Text(1, 1, Some(true));
    var told := LegacyTold();
    InOrder(told);
    DowngradeExact(told, Outside(Receives(m)), m);
    ReachableApply(told, Outside(Receives(m)));
    s := Apply(told, Outside(Receives(m)));
    assert Delivered(s.owner.signals)[|told.received|] == m;
    ModeStays(told, Outside(Receives(m)));
  }

  lemma ModeStays(s: State, e: Event)
    requires s.channel.mode.Some?
    ensures Apply(s, e).channel.mode == s.channel.mode
  {
  }

  /** A legacy session whose daemon has said it does not support protected mode. */
  lemma LegacyTold() returns (s: State)
    ensures Reachable(s) && s.phase == Published && !s.owner.closed
    ensures s.channel.mode == Some(Legacy) && Introduced(s.received)
  {
    hide Delivered, Reachable;
    var no := Text(0, 1, Some(false));
    s := LegacyPublished();
    ReachableApply(s, Outside(Receives(no)));
    s := Apply(s, Outside(Receives(no)));
    assert !Advertises(no);
    assert NamesServer(s.received[0]);
  }

  lemma LegacyPublished() returns (s: State)
    ensures Reachable(s) && s.phase == Published && !s.owner.closed && s.received == []
    ensures s.channel.mode == Some(Legacy) && s.channel.held && s.owner.isOpen && s.awaitingServerInfo
  {
    s := Initial(Legacy, map[]);
    assert s == After(s, []);
    ReachableApply(s, BaseOpens);
    s := Apply(s, BaseOpens);
    ReachableApply(s, CodecSelected);
    s := Apply(s, CodecSelected);
    ReachableApply(s, FactoryReturns);
    s := Apply(s, FactoryReturns);
    ReachableApply(s, Outside(ChannelOpens(Legacy)));
    s := Apply(s, Outside(ChannelOpens(Legacy)));
    ReachableApply(s, Finishes);
    s := Apply(s, Finishes);
  }

  // ---------------------------------------------------------------------------
  // The drain loop as one turn
  // ---------------------------------------------------------------------------

  function Outsides(acts: seq<Act>): seq<Event> {
    seq(|acts|, i requires 0 <= i < |acts| => Outside(acts[i]))
  }

  /** What re-enters while one emission is under way. */
  function Acts(s: State, acts: seq<Act>): State {
    After(s, Outsides(acts))
  }

  lemma ActsSnoc(s: State, acts: seq<Act>, a: Act)
    ensures Acts(s, acts + [a]) == Apply(Acts(s, acts), Outside(a))
  {
    assert Outsides(acts + [a]) == Outsides(acts) + [Outside(a)];
    AfterSnoc(s, Outsides(acts), Outside(a));
  }

  lemma {:induction false} ActsKeep(s: State, acts: seq<Act>)
    requires Inv(s)
    ensures Inv(Acts(s, acts)) && Acts(s, acts).phase == s.phase
  {
    hide Inv;
    if acts == [] {
      assert Outsides(acts) == [];
    } else {
      var n := |acts| - 1;
      ActsKeep(s, acts[..n]);
      assert acts == acts[..n] + [acts[n]];
      ActsSnoc(s, acts[..n], acts[n]);
      var before := Acts(s, acts[..n]);
      if ActEnabled(before, acts[n]) { ActKeeps(before, acts[n]); }
    }
  }

  /** The loop from its current state; `nested[i]` re-enters during its next emission but `i`. */
  function Drain(s: State, nested: seq<seq<Act>>): State
    decreases |nested|, |s.early.msgs|
  {
    if s.owner.closed || s.early.msgs == [] then Finish(s)
    else if nested == [] then Drain(DrainOne(s), [])
    else Drain(Acts(DrainOne(s), nested[0]), nested[1..])
  }

  /** One turn of the loop is a run of the small steps, so every claim about runs holds of it. */
  lemma {:induction false} DrainIsRun(s: State, nested: seq<seq<Act>>) returns (es: seq<Event>)
    requires Inv(s) && s.phase == Draining
    ensures Drain(s, nested) == After(s, es)
    decreases |nested|, |s.early.msgs|
  {
    hide Inv, EmitMessage;
    if s.owner.closed || s.early.msgs == [] {
      es := [Finishes];
      AfterSnoc(s, [], Finishes);
      assert [] + [Finishes] == [Finishes];
    } else {
      DrainKeeps(s);
      AfterSnoc(s, [], Drains);
      assert [] + [Drains] == [Drains];
      if nested == [] {
        var rest := DrainIsRun(DrainOne(s), []);
        es := [Drains] + rest;
        AfterConcat(s, [Drains], rest);
      } else {
        var next := Acts(DrainOne(s), nested[0]);
        ActsKeep(DrainOne(s), nested[0]);
        var rest := DrainIsRun(next, nested[1..]);
        es := [Drains] + Outsides(nested[0]) + rest;
        AfterConcat(s, [Drains], Outsides(nested[0]));
        AfterConcat(s, [Drains] + Outsides(nested[0]), rest);
      }
    }
  }

  /**
   * When the loop is over the wrapper is published, and every message the channel has handed over,
   * those that arrived during the loop included, has been delivered unless it closed on the way.
   */
  lemma DrainEmpties(s: State, nested: seq<seq<Act>>)
    requires Inv(s) && s.phase == Draining
    ensures var s' := Drain(s, nested);
            && Inv(s') && s'.phase == Published && s'.early.msgs == []
            && (!s'.owner.closed ==> Delivered(s'.owner.signals) == s'.received)
  {
    var es := DrainIsRun(s, nested);
    AfterInv(s, es);
    DrainFinishes(s, nested);
  }

  lemma {:induction false} DrainFinishes(s: State, nested: seq<seq<Act>>)
    ensures Drain(s, nested).phase == Published && Drain(s, nested).early.msgs == []
    decreases |nested|, |s.early.msgs|
  {
    if !(s.owner.closed || s.early.msgs == []) {
      if nested == [] {
        DrainFinishes(DrainOne(s), []);
      } else {
        DrainFinishes(Acts(DrainOne(s), nested[0]), nested[1..]);
      }
    }
  }
}
