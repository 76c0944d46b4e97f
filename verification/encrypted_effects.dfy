/** What each event makes the encrypted transport say, close and keep, in every reachable state. */
module EncryptedEffects {
  import opened Prelude
  import opened EncryptedTransport
  import opened EncryptedRuns

  /** The downgrade is exposed: a legacy session's first `server_info` as text, and it says "protected". */
  ghost predicate Exposes(s: State, m: Msg) {
    && m.Text? && m.serverInfo == Some(true) && s.channel.mode == Some(Legacy)
    && forall d :: d in Delivered(s.owner.signals) ==> !(d.Text? && d.serverInfo.Some?)
  }

  /** One more early message would be the 65th, or bring the buffered bytes over 1 MiB. */
  predicate Overflows(s: State, m: Msg) {
    |s.early.msgs| + 1 > 64 || Bytes(s.early.msgs) + m.size > 1_048_576
  }

  /** The close that the owner sees when the base is closed now: the base's own word if it has one. */
  function ClosedAs(s: State, code: nat): seq<Signal> {
    [Closed(if |s.baseCloses| in s.echoes then s.echoes[|s.baseCloses|] else code)]
  }

  /** What the owner is told in this step, as long as it has not been told of a close. */
  ghost function Emitted(s: State, e: Event): seq<Signal>
    requires Enabled(s, e)
  {
    match e
    case Outside(ChannelOpens(mode)) => if s.channel.held then [ModeReported(mode), Opened] else []
    case Outside(Receives(m)) =>
      if s.phase == Published then if Exposes(s, m) then ClosedAs(s, 4002) else [Message(m)]
      else if Overflows(s, m) then ClosedAs(s, 4002) else []
    case Outside(ChannelCloses(code)) => [Closed(code)]
    case Outside(BaseCloses(code)) => [Closed(code)]
    case Outside(BaseErrors) => [Failed]
    case Outside(OwnerCloses(code)) => ClosedAs(s, code)
    case FactoryReturns =>
      if s.channel.mode.Some? then [ModeReported(s.channel.mode.value), Opened] else []
    case Drains =>
      var m := s.early.msgs[0];
      if Exposes(s, m) then ClosedAs(s, 4002) else [Message(m)]
    case CodecFails => Aborted(s)
    case FactoryThrows => Aborted(s)
    case _ => []
  }

  /** A failed handshake is an error, and a close only if the base reports one from within its own. */
  function Aborted(s: State): seq<Signal> {
    [Failed] + if |s.baseCloses| in s.echoes then ClosedAs(s, 4001) else []
  }

  /** The code with which this step closes the base transport, if it does. */
  ghost function BaseClosedWith(s: State, e: Event): seq<nat>
    requires Enabled(s, e)
  {
    match e
    case Outside(OwnerCloses(code)) => [code]
    case Outside(Receives(m)) =>
      if !s.owner.closed && (if s.phase == Published then Exposes(s, m) else Overflows(s, m)) then [4002] else []
    case Drains => if Exposes(s, s.early.msgs[0]) then [4002] else []
    case CodecFails => [4001]
    case FactoryThrows => [4001]
    case FactoryReturns => if s.owner.closed then [1000] else []
    case _ => []
  }

  /** The step calls the channel's own `close`. */
  ghost predicate ClosesChannel(s: State, e: Event)
    requires Enabled(s, e)
  {
    match e
    case Outside(OwnerCloses(_)) => s.channel.held
    case Outside(Receives(m)) => !s.owner.closed && s.phase == Published && Exposes(s, m)
    case Drains => Exposes(s, s.early.msgs[0])
    case FactoryReturns => s.owner.closed
    case _ => false
  }

  function PhaseAfter(s: State, e: Event): Phase {
    match e
    case BaseOpens => Selecting
    case CodecSelected => if s.owner.closed then Over else Opening
    case FactoryReturns => if s.owner.closed then Over else Draining
    case CodecFails => Over
    case FactoryThrows => Over
    case Finishes => Published
    case _ => s.phase
  }

  /** The messages that wait for the channel to be published. */
  function EarlyAfter(s: State, e: Event): seq<Msg>
    requires Enabled(s, e)
  {
    match e
    case Outside(Receives(m)) =>
      if s.owner.closed || s.phase == Published then s.early.msgs
      else if Overflows(s, m) then [] else s.early.msgs + [m]
    case Drains => s.early.msgs[1..]
    case FactoryReturns => if s.owner.closed then [] else s.early.msgs
    case Finishes => []
    case _ => s.early.msgs
  }

  // ---------------------------------------------------------------------------
  // Every reachable state
  // ---------------------------------------------------------------------------

  /** What has been put into the wrapper's words is exactly what its state holds. */
  lemma HoldsOf(s: State)
    requires Reachable(s)
    ensures s.early.bytes == Bytes(s.early.msgs)
    ensures !s.owner.closed ==>
      (s.awaitingServerInfo <==> forall d :: d in Delivered(s.owner.signals) ==> !(d.Text? && d.serverInfo.Some?))
    ensures s.phase == Published ==> s.channel.held
    ensures !s.owner.closed ==> !(s.channel.held && s.phase == Over)
    ensures s.channel.mode.None? ==> !s.owner.isOpen && !s.openPending
    ensures !s.owner.closed && s.phase == Opening ==> !s.owner.isOpen && (s.openPending <==> s.channel.mode.Some?)
  {
    hide Buffered, Spoken, Delivered, Introduced, Guarded;
    ReachableInv(s);
    BufferedBytes(s);
    IntroducedBy(Delivered(s.owner.signals));
  }

  lemma IntroducedBy(delivered: seq<Msg>)
    ensures Introduced(delivered) <==> exists d :: d in delivered && d.Text? && d.serverInfo.Some?
  {
    if d :| d in delivered && d.Text? && d.serverInfo.Some? {
      var i :| 0 <= i < |delivered| && delivered[i] == d;
      assert NamesServer(delivered[i]);
    }
  }

  lemma BufferedBytes(s: State)
    requires Inv(s)
    ensures s.early.bytes == Bytes(s.early.msgs)
  {
  }

  lemma ActEmits(s: State, a: Act)
    requires Reachable(s) && Enabled(s, Outside(a)) && !s.owner.closed
    ensures ActStep(s, a).owner.signals == s.owner.signals + Emitted(s, Outside(a))
  {
    hide Introduced, Delivered, Bytes;
    HoldsOf(s);
  }

  lemma StepEmits(s: State, e: Event)
    requires Reachable(s) && Enabled(s, e) && !s.owner.closed
    ensures Step(s, e).owner.signals == s.owner.signals + Emitted(s, e)
  {
    hide Introduced, Delivered, Bytes, ActStep;
    HoldsOf(s);
    if e.Outside? { ActEmits(s, e.act); }
  }

  /**
   * What the owner is told. In every reachable state that has not seen a close, each event adds
   * exactly these signals: a close of the base or of the channel under its own code, an error, the
   * mode and open, a message or the refusal of a downgrade, the end of a session that overflows, a
   * failed handshake; and after a close nothing more is said.
   */
  lemma SignalsExactly(s: State, e: Event)
    requires Reachable(s) && Enabled(s, e)
    ensures Step(s, e).owner.signals == s.owner.signals + if s.owner.closed then [] else Emitted(s, e)
  {
    hide Emitted, Step, Enabled;
    if s.owner.closed { ClosedStep(s, e); } else { StepEmits(s, e); }
  }

  lemma ActCloses(s: State, a: Act)
    requires Reachable(s) && Enabled(s, Outside(a))
    ensures var s', e := ActStep(s, a), Outside(a);
      && s'.baseCloses == s.baseCloses + BaseClosedWith(s, e)
      && s'.channel == Channel(s.channel.held, if a.ChannelOpens? then Some(a.mode) else s.channel.mode,
                               s.channel.closeCalled || ClosesChannel(s, e))
      && s'.early.msgs == EarlyAfter(s, e) && s'.phase == s.phase
      && s'.received == s.received + if a.Receives? then [a.msg] else []
  {
    hide Introduced, Delivered, Bytes;
    HoldsOf(s);
  }

  /**
   * What the wrapper does to what lies under it, and keeps: the base transport is closed exactly for
   * the owner, for an exposed downgrade or an overflow with 4002, for a failed handshake with 4001,
   * and for a late channel with 1000; the channel's own `close` is called exactly while it is held.
   */
  lemma ClosesExactly(s: State, e: Event)
    requires Reachable(s) && Enabled(s, e)
    ensures var s' := Step(s, e);
      && s'.baseCloses == s.baseCloses + BaseClosedWith(s, e)
      && s'.channel.closeCalled == (s.channel.closeCalled || ClosesChannel(s, e))
      && s'.channel.held == (s.channel.held || e.FactoryReturns?)
      && s'.channel.mode == (if e.Outside? && e.act.ChannelOpens? then Some(e.act.mode) else s.channel.mode)
      && s'.phase == PhaseAfter(s, e) && s'.early.msgs == EarlyAfter(s, e)
      && s'.received == s.received + if e.Outside? && e.act.Receives? then [e.act.msg] else []
  {
    hide Introduced, Delivered, Bytes, ActStep;
    HoldsOf(s);
    if e.Outside? { ActCloses(s, e.act); }
  }

  /** How every wrapper begins, and that its floor never changes. */
  lemma StartExactly(minimum: Mode, echoes: map<nat, nat>, es: seq<Event>)
    ensures var s := Initial(minimum, echoes);
      && s.phase == Idle && !s.channel.held && s.channel.mode.None? && s.owner.signals == [] && s.received == []
      && !s.owner.isOpen && !s.owner.closed && s.awaitingServerInfo && s.early.msgs == [] && s.baseCloses == []
    ensures After(Initial(minimum, echoes), es).minimum == minimum
  {
    AfterInv(Initial(minimum, echoes), es);
  }

  /** A close of the base transport is told to an open session's owner at once, under its own code. */
  lemma BaseCloseTold(s: State, code: nat)
    requires Reachable(s) && !s.owner.closed
    ensures var s' := Apply(s, Outside(BaseCloses(code)));
      s'.owner.signals == s.owner.signals + [Closed(code)] && s'.owner.closed
  {
    var e := Outside(BaseCloses(code));
    SignalsExactly(s, e);
    ReachableApply(s, e);
    OpenFirstCloseLast(Apply(s, e));
    assert Apply(s, e).owner.signals[|s.owner.signals|].Closed?;
  }
}
