/**
 * The end-to-end encrypted transport wrapper, step by step. The secure channel and the base
 * transport are the environment: the channel reports open before any message, negotiates at least
 * the minimum mode, and its `close` closes the transport; the base transport opens at most once.
 */
module EncryptedTransport {
  import opened Prelude

  datatype Mode = Legacy | Protected

  predicate Meets(minimum: Mode, mode: Mode) {
    minimum == Protected ==> mode == Protected
  }

  /**
   * `serverInfo` is what a message says about protected support when it is a `server_info`, and
   * nothing for every other message; the channel may hand one over as text or as bytes. `body`
   * tells messages apart.
   */
  datatype Msg =
    | Text(body: nat, size: nat, serverInfo: Option<bool>)
    | Binary(body: nat, size: nat, serverInfo: Option<bool>)

  /** A `server_info` in the form the wrapper looks at. */
  predicate NamesServer(m: Msg) {
    m.Text? && m.serverInfo.Some?
  }

  predicate Advertises(m: Msg) {
    m.serverInfo == Some(true)
  }

  const EARLY_LIMIT := 64
  const EARLY_BYTES := 1024 * 1024
  const HANDSHAKE_FAILED: nat := 4002
  const HANDSHAKE_ABORTED: nat := 4001
  const NORMAL: nat := 1000

  /** What the wrapper tells its owner, in the order in which the emissions begin. */
  datatype Signal = ModeReported(mode: Mode) | Opened | Message(msg: Msg) | Failed | Closed(code: nat)

  /** Where the handshake function stands. */
  datatype Phase = Idle | Selecting | Opening | Draining | Published | Over

  /** `held`: the channel variable is assigned; `closeCalled`: the wrapper has called its close. */
  datatype Channel = Channel(held: bool, mode: Option<Mode>, closeCalled: bool)

  /** What the owner has been told. */
  datatype Owner = Owner(isOpen: bool, closed: bool, signals: seq<Signal>)

  datatype Buffer = Buffer(msgs: seq<Msg>, bytes: int)

  const EMPTY := Buffer([], 0)

  /**
   * `openPending`: the channel opened before it was assigned. `received` is everything the channel
   * handed over, `baseCloses` the codes passed to the base transport's close. `echoes` says what the
   * base does: it reports a close with code `echoes[n]` from within its `n`-th close, or not at all.
   */
  datatype State = State(
    minimum: Mode,
    echoes: map<nat, nat>,
    phase: Phase,
    channel: Channel,
    owner: Owner,
    awaitingServerInfo: bool,
    openPending: bool,
    early: Buffer,
    received: seq<Msg>,
    baseCloses: seq<nat>)

  function Initial(minimum: Mode, echoes: map<nat, nat>): State {
    State(minimum, echoes, Idle, Channel(false, None, false), Owner(false, false, []), true, false, EMPTY, [], [])
  }

  /** What the channel, the base transport and the owner do, at any moment, re-entrantly too. */
  datatype Act =
    | ChannelOpens(mode: Mode)
    | Receives(msg: Msg)
    | ChannelCloses(code: nat)
    | BaseCloses(code: nat)
    | BaseErrors
    | OwnerCloses(code: nat)

  datatype Event =
    | Outside(act: Act)
    | BaseOpens
    | CodecSelected
    | CodecFails
    | FactoryReturns
    | FactoryThrows
    | Drains
    | Finishes

  // ---------------------------------------------------------------------------
  // Emissions
  // ---------------------------------------------------------------------------

  function Tell(o: Owner, g: Signal): Owner {
    o.(signals := o.signals + [g])
  }

  function EmitOpen(o: Owner): Owner {
    if o.isOpen || o.closed then o else Tell(o, Opened).(isOpen := true)
  }

  function EmitClose(o: Owner, code: nat): Owner {
    if o.closed then o else Tell(o, Closed(code)).(closed := true)
  }

  function EmitError(o: Owner): Owner {
    if o.closed then o else Tell(o, Failed)
  }

  /** The code the owner sees when the base is closed with `code` now: the base's own if it reports first. */
  function Reported(s: State, code: nat): nat {
    if |s.baseCloses| in s.echoes then s.echoes[|s.baseCloses|] else code
  }

  /** The base transport is closed and the owner is told at once. */
  function CloseBase(s: State, code: nat): State {
    s.(baseCloses := s.baseCloses + [code], owner := EmitClose(s.owner, Reported(s, code)))
  }

  /** The channel's own `close`: it closes the transport underneath and reports the code. */
  function CloseChannel(s: State, code: nat): State {
    CloseBase(s.(channel := s.channel.(closeCalled := true)), code)
  }

  function EmitMessage(s: State, m: Msg): State {
    if s.owner.closed then s
    else if s.awaitingServerInfo && NamesServer(m) then
      var s1 := s.(awaitingServerInfo := false);
      if Advertises(m) && s.channel.mode == Some(Legacy) then CloseChannel(s1, HANDSHAKE_FAILED)
      else s1.(owner := Tell(s.owner, Message(m)))
    else s.(owner := Tell(s.owner, Message(m)))
  }

  function EmitChannelOpen(s: State): State {
    if s.owner.closed then s
    else if !s.channel.held then s.(openPending := true)
    else if s.channel.mode.None? then s
    else s.(owner := EmitOpen(Tell(s.owner, ModeReported(s.channel.mode.value))))
  }

  function ReceiveChannelMessage(s: State, m: Msg): State {
    var s1 := s.(received := s.received + [m]);
    if s.owner.closed then s1
    else if s.channel.held && s.phase == Published then EmitMessage(s1, m)
    else Admit(s1, m)
  }

  /** Before the channel is published a message joins the buffer or, past a limit, ends the session. */
  function Admit(s: State, m: Msg): State {
    if |s.early.msgs| >= EARLY_LIMIT || s.early.bytes + m.size > EARLY_BYTES then
      CloseBase(s.(early := EMPTY), HANDSHAKE_FAILED)
    else s.(early := Buffer(s.early.msgs + [m], s.early.bytes + m.size))
  }

  // ---------------------------------------------------------------------------
  // Steps
  // ---------------------------------------------------------------------------

  predicate ActEnabled(s: State, a: Act) {
    match a
    case ChannelOpens(mode) =>
      s.phase !in {Idle, Selecting} && s.channel.mode.None? && Meets(s.minimum, mode)
    case Receives(_) => s.channel.mode.Some?
    case ChannelCloses(_) => s.phase !in {Idle, Selecting}
    case _ => true
  }

  function ActStep(s: State, a: Act): State {
    match a
    case ChannelOpens(mode) => EmitChannelOpen(s.(channel := s.channel.(mode := Some(mode))))
    case Receives(m) => ReceiveChannelMessage(s, m)
    case ChannelCloses(code) => s.(owner := EmitClose(s.owner, code))
    case BaseCloses(code) => s.(owner := EmitClose(s.owner, code))
    case BaseErrors => s.(owner := EmitError(s.owner))
    case OwnerCloses(code) => if s.channel.held then CloseChannel(s, code) else CloseBase(s, code)
  }

  predicate Enabled(s: State, e: Event) {
    match e
    case Outside(a) => ActEnabled(s, a)
    case BaseOpens => s.phase == Idle
    case CodecSelected => s.phase == Selecting
    case CodecFails => s.phase == Selecting
    case FactoryReturns => s.phase == Opening
    case FactoryThrows => s.phase == Opening
    case Drains => s.phase == Draining && !s.owner.closed && s.early.msgs != []
    case Finishes => s.phase == Draining && (s.owner.closed || s.early.msgs == [])
  }

  /** The error is reported and the base closed; the wrapper itself does not report that close. */
  function HandshakeFails(s: State): State {
    var told := EmitError(s.owner);
    s.(owner := if |s.baseCloses| in s.echoes then EmitClose(told, s.echoes[|s.baseCloses|]) else told,
       phase := Over, baseCloses := s.baseCloses + [HANDSHAKE_ABORTED])
  }

  /** The factory's promise has resolved; up to the start of the drain loop. */
  function Assign(s: State): State {
    var channel := s.channel.(held := true);
    if s.owner.closed then CloseChannel(s.(channel := channel, phase := Over, early := EMPTY), NORMAL)
    else if s.openPending then EmitChannelOpen(s.(channel := channel, phase := Draining))
    else s.(channel := channel, phase := Draining)
  }

  function Shift(b: Buffer): Buffer
    requires b.msgs != []
  {
    Buffer(b.msgs[1..], b.bytes - b.msgs[0].size)
  }

  function DrainOne(s: State): (s': State)
    requires s.early.msgs != []
    ensures s'.early.msgs == s.early.msgs[1..] && s'.phase == s.phase
  {
    EmitMessage(s.(early := Shift(s.early)), s.early.msgs[0])
  }

  function Finish(s: State): State {
    s.(early := EMPTY, phase := Published)
  }

  function Step(s: State, e: Event): State
    requires Enabled(s, e)
  {
    match e
    case Outside(a) => ActStep(s, a)
    case BaseOpens => s.(phase := Selecting)
    case CodecSelected => s.(phase := if s.owner.closed then Over else Opening)
    case CodecFails => HandshakeFails(s)
    case FactoryReturns => Assign(s)
    case FactoryThrows => HandshakeFails(s)
    case Drains => DrainOne(s)
    case Finishes => Finish(s)
  }

  // ---------------------------------------------------------------------------
  // What holds
  // ---------------------------------------------------------------------------

  function Bytes(ms: seq<Msg>): nat {
    if ms == [] then 0 else ms[0].size + Bytes(ms[1..])
  }

  lemma {:induction false} BytesAppend(ms: seq<Msg>, m: Msg)
    ensures Bytes(ms + [m]) == Bytes(ms) + m.size
  {
    if ms != [] {
      assert (ms + [m])[1..] == ms[1..] + [m];
      BytesAppend(ms[1..], m);
    } else {
      assert (ms + [m])[1..] == [];
    }
  }

  /** The messages among the signals: what the owner was given. */
  function Delivered(signals: seq<Signal>): seq<Msg> {
    if signals == [] then []
    else
      var last := signals[|signals| - 1];
      Delivered(signals[..|signals| - 1]) + if last.Message? then [last.msg] else []
  }

  lemma DeliveredAppend(signals: seq<Signal>, g: Signal)
    ensures Delivered(signals + [g]) == Delivered(signals) + if g.Message? then [g.msg] else []
  {
    assert (signals + [g])[..|signals|] == signals;
  }

  predicate Ended(signals: seq<Signal>) {
    exists i :: 0 <= i < |signals| && signals[i].Closed?
  }

  /**
   * Nothing follows a close; open comes once, directly behind the report of an acceptable mode;
   * a message comes only after open.
   */
  ghost predicate Ordered(signals: seq<Signal>, minimum: Mode) {
    forall i :: 0 <= i < |signals| ==> OrderedAt(signals, i, minimum)
  }

  ghost predicate OrderedAt(signals: seq<Signal>, i: nat, minimum: Mode)
    requires i < |signals|
  {
    && !Ended(signals[..i])
    && (signals[i].Opened? ==>
          && Opened !in signals[..i]
          && 0 < i && signals[i - 1].ModeReported? && Meets(minimum, signals[i - 1].mode))
    && (signals[i].Message? ==> Opened in signals[..i])
  }

  lemma OrderedAppend(signals: seq<Signal>, g: Signal, minimum: Mode)
    requires Ordered(signals, minimum) && !Ended(signals)
    requires g.Opened? ==>
               && Opened !in signals && signals != []
               && signals[|signals| - 1].ModeReported? && Meets(minimum, signals[|signals| - 1].mode)
    requires g.Message? ==> Opened in signals
    ensures Ordered(signals + [g], minimum)
    ensures Ended(signals + [g]) == g.Closed?
    ensures Opened in signals + [g] <==> g.Opened? || Opened in signals
  {
    var longer := signals + [g];
    assert longer[|signals|] == g;
    forall i | 0 <= i < |longer|
      ensures OrderedAt(longer, i, minimum)
    {
      if i < |signals| {
        assert OrderedAt(signals, i, minimum);
        assert longer[..i] == signals[..i];
      } else {
        assert longer[..i] == signals;
      }
    }
  }

  /** No `server_info` delivered as text advertises protected support unless an earlier one was delivered. */
  ghost predicate Guarded(delivered: seq<Msg>) {
    forall i :: 0 <= i < |delivered| && delivered[i].Text? && Advertises(delivered[i]) ==> Introduced(delivered[..i])
  }

  ghost predicate Introduced(delivered: seq<Msg>) {
    exists i :: 0 <= i < |delivered| && NamesServer(delivered[i])
  }

  lemma GuardedAppend(delivered: seq<Msg>, m: Msg)
    ensures Introduced(delivered + [m]) <==> Introduced(delivered) || NamesServer(m)
    ensures Guarded(delivered) && (m.Text? && Advertises(m) ==> Introduced(delivered)) ==> Guarded(delivered + [m])
  {
    var longer := delivered + [m];
    assert longer[|delivered|] == m;
    if Introduced(delivered) {
      var i :| 0 <= i < |delivered| && NamesServer(delivered[i]);
      assert longer[i] == delivered[i];
    }
    if Guarded(delivered) && (m.Text? && Advertises(m) ==> Introduced(delivered)) {
      forall i | 0 <= i < |longer| && longer[i].Text? && Advertises(longer[i])
        ensures Introduced(longer[..i])
      {
        assert longer[..i] == delivered[..i];
        if i < |delivered| { assert Advertises(delivered[i]); } else { assert longer[..i] == delivered; }
      }
    }
  }

  ghost predicate Buffered(b: Buffer) {
    |b.msgs| <= EARLY_LIMIT && b.bytes == Bytes(b.msgs) <= EARLY_BYTES
  }

  ghost predicate Fifo(s: State) {
    && (!s.owner.closed ==> Delivered(s.owner.signals) + s.early.msgs == s.received)
    && Delivered(s.owner.signals) <= s.received
    && (s.phase == Published && !s.owner.closed ==> s.early.msgs == [])
  }

  ghost predicate Placed(s: State) {
    && (s.channel.held <==> s.phase in {Draining, Published} || (s.phase == Over && s.channel.closeCalled))
    && (s.channel.held && s.phase == Over ==> s.owner.closed)
    && (!s.channel.held ==> !s.channel.closeCalled)
    && (s.phase in {Idle, Selecting} ==> s.channel.mode.None?)
    && (s.channel.mode.None? ==> s.received == [] && !s.openPending)
    && (s.channel.mode.Some? ==> Meets(s.minimum, s.channel.mode.value))
    && (!s.owner.closed && s.channel.mode.Some? ==> if s.channel.held then s.owner.isOpen else s.openPending)
    && (s.owner.isOpen ==> s.channel.held && s.channel.mode.Some?)
  }

  ghost predicate Spoken(o: Owner, minimum: Mode) {
    && Ordered(o.signals, minimum)
    && (o.closed <==> Ended(o.signals))
    && (o.isOpen <==> Opened in o.signals)
  }

  ghost predicate Checked(s: State) {
    && (!s.owner.closed ==> (s.awaitingServerInfo <==> !Introduced(Delivered(s.owner.signals))))
    && (s.channel.mode == Some(Legacy) ==> Guarded(Delivered(s.owner.signals)))
  }

  ghost predicate Inv(s: State) {
    Buffered(s.early) && Fifo(s) && Placed(s) && Spoken(s.owner, s.minimum) && Checked(s)
  }

  // ---------------------------------------------------------------------------
  // Every step keeps it
  // ---------------------------------------------------------------------------

  /** A signal that carries no message and opens nothing leaves what was delivered as it was. */
  lemma QuietTell(o: Owner, g: Signal, minimum: Mode)
    requires !o.closed && Spoken(o, minimum) && !g.Opened? && !g.Message?
    ensures Delivered(Tell(o, g).signals) == Delivered(o.signals)
    ensures Spoken(Tell(o, g).(closed := g.Closed?), minimum)
  {
    DeliveredAppend(o.signals, g);
    OrderedAppend(o.signals, g, minimum);
  }

  lemma EmitCloseKeeps(o: Owner, code: nat, minimum: Mode)
    requires Spoken(o, minimum)
    ensures Spoken(EmitClose(o, code), minimum) && EmitClose(o, code).closed
    ensures Delivered(EmitClose(o, code).signals) == Delivered(o.signals)
  {
    hide Spoken, Ordered, Delivered;
    if !o.closed { QuietTell(o, Closed(code), minimum); }
  }

  lemma EmitErrorKeeps(o: Owner, minimum: Mode)
    requires Spoken(o, minimum)
    ensures Spoken(EmitError(o), minimum) && EmitError(o).closed == o.closed
    ensures Delivered(EmitError(o).signals) == Delivered(o.signals)
  {
    hide Spoken, Ordered, Delivered;
    if !o.closed { QuietTell(o, Failed, minimum); }
  }

  /** Opening the assigned channel: the mode is reported, then open, before anything else. */
  lemma EmitOpenKeeps(o: Owner, mode: Mode, minimum: Mode)
    requires Spoken(o, minimum) && !o.closed && !o.isOpen && Meets(minimum, mode)
    ensures var o' := EmitOpen(Tell(o, ModeReported(mode)));
            && Spoken(o', minimum) && o'.isOpen && !o'.closed
            && Delivered(o'.signals) == Delivered(o.signals)
  {
    var reported := Tell(o, ModeReported(mode));
    QuietTell(o, ModeReported(mode), minimum);
    OrderedAppend(reported.signals, Opened, minimum);
    DeliveredAppend(reported.signals, Opened);
  }

  lemma DeliverKeeps(o: Owner, m: Msg, minimum: Mode)
    requires Spoken(o, minimum) && !o.closed && o.isOpen
    ensures Spoken(Tell(o, Message(m)), minimum)
    ensures Delivered(Tell(o, Message(m)).signals) == Delivered(o.signals) + [m]
  {
    OrderedAppend(o.signals, Message(m), minimum);
    DeliveredAppend(o.signals, Message(m));
  }

  lemma CloseBaseKeeps(s: State, code: nat)
    requires Buffered(s.early) && Placed(s) && Spoken(s.owner, s.minimum)
    requires Delivered(s.owner.signals) <= s.received
    requires s.channel.mode == Some(Legacy) ==> Guarded(Delivered(s.owner.signals))
    ensures Inv(CloseBase(s, code)) && CloseBase(s, code).owner.closed
  {
    hide Buffered, Spoken, Delivered, Guarded, Introduced, EmitClose;
    EmitCloseKeeps(s.owner, Reported(s, code), s.minimum);
    EmitCloseOpen(s.owner, Reported(s, code));
  }

  lemma EmitCloseOpen(o: Owner, code: nat)
    ensures EmitClose(o, code).isOpen == o.isOpen
  {
  }

  /**
   * One message, first in line, is emitted: it reaches the owner unless it is the first
   * `server_info` and exposes a downgrade, in which case nothing is emitted after the close.
   */
  lemma EmitMessageKeeps(s: State, m: Msg)
    requires !s.owner.closed && s.owner.isOpen
    requires Buffered(s.early) && Placed(s) && Spoken(s.owner, s.minimum) && Checked(s)
    requires Delivered(s.owner.signals) + [m] + s.early.msgs == s.received
    requires s.phase == Published ==> s.early.msgs == []
    ensures Inv(EmitMessage(s, m))
    ensures var s' := EmitMessage(s, m);
            if !s'.owner.closed then Delivered(s'.owner.signals) == Delivered(s.owner.signals) + [m]
            else
              && Delivered(s'.owner.signals) == Delivered(s.owner.signals)
              && m.Text? && Advertises(m) && s.channel.mode == Some(Legacy)
  {
    hide Buffered, Spoken, Delivered, Guarded, Introduced;
    var s' := EmitMessage(s, m);
    if s'.owner.closed {
      EmitCloseKeeps(s.owner, Reported(s, HANDSHAKE_FAILED), s.minimum);
    } else {
      DeliverKeeps(s.owner, m, s.minimum);
      GuardedAppend(Delivered(s.owner.signals), m);
    }
  }

  lemma AdmitKeeps(s: State, m: Msg)
    requires Buffered(s.early) && Placed(s) && Spoken(s.owner, s.minimum) && Checked(s)
    requires !s.owner.closed && s.phase != Published
    requires Delivered(s.owner.signals) + s.early.msgs + [m] == s.received
    ensures Inv(Admit(s, m))
  {
    hide Spoken, Delivered, Guarded, Introduced;
    BytesAppend(s.early.msgs, m);
    assert Delivered(s.owner.signals) + (s.early.msgs + [m]) == s.received;
    if Admit(s, m).owner.closed { CloseBaseKeeps(s.(early := EMPTY), HANDSHAKE_FAILED); }
  }

  lemma ReceivesKeeps(s: State, m: Msg)
    requires Inv(s) && s.channel.mode.Some?
    ensures Inv(ReceiveChannelMessage(s, m))
  {
    hide Buffered, Spoken, Delivered, Guarded, Introduced, Admit, EmitMessage;
    var s1 := s.(received := s.received + [m]);
    if !s.owner.closed {
      if s.channel.held && s.phase == Published { EmitMessageKeeps(s1, m); } else { AdmitKeeps(s1, m); }
    }
  }

  lemma NothingGuarded()
    ensures Guarded([])
  {
  }

  lemma ChannelOpensKeeps(s: State, mode: Mode)
    requires Inv(s) && ActEnabled(s, ChannelOpens(mode))
    ensures Inv(ActStep(s, ChannelOpens(mode)))
  {
    hide Buffered, Spoken, Delivered, Guarded, Introduced, EmitOpen;
    assert Delivered(s.owner.signals) == [] by {
      assert s.received == [];
    }
    NothingGuarded();
    if !s.owner.closed && s.channel.held { EmitOpenKeeps(s.owner, mode, s.minimum); }
  }

  lemma OwnerToldKeeps(s: State, o: Owner)
    requires Inv(s) && Spoken(o, s.minimum) && o.isOpen == s.owner.isOpen
    requires s.owner.closed ==> o.closed
    requires Delivered(o.signals) == Delivered(s.owner.signals)
    ensures Inv(s.(owner := o))
  {
    hide Buffered, Spoken, Delivered, Guarded, Introduced;
  }

  lemma OwnerClosesKeeps(s: State, code: nat)
    requires Inv(s)
    ensures Inv(ActStep(s, OwnerCloses(code)))
  {
    hide Buffered, Spoken, Delivered, Guarded, Introduced, CloseBase;
    if s.channel.held {
      CloseBaseKeeps(s.(channel := s.channel.(closeCalled := true)), code);
    } else {
      CloseBaseKeeps(s, code);
    }
  }

  lemma ActKeeps(s: State, a: Act)
    requires Inv(s) && ActEnabled(s, a)
    ensures Inv(ActStep(s, a))
  {
    hide Inv, EmitChannelOpen, ReceiveChannelMessage, CloseBase, Spoken, Delivered;
    match a
    case ChannelOpens(mode) => ChannelOpensKeeps(s, mode);
    case Receives(m) => ReceivesKeeps(s, m);
    case ChannelCloses(code) => ToldCloseKeeps(s, code);
    case BaseCloses(code) => ToldCloseKeeps(s, code);
    case BaseErrors => ToldErrorKeeps(s);
    case OwnerCloses(code) => OwnerClosesKeeps(s, code);
  }

  lemma ToldCloseKeeps(s: State, code: nat)
    requires Inv(s)
    ensures Inv(s.(owner := EmitClose(s.owner, code)))
  {
    hide Buffered, Fifo, Placed, Checked, Spoken, Delivered;
    EmitCloseKeeps(s.owner, code, s.minimum);
    OwnerToldKeeps(s, EmitClose(s.owner, code));
  }

  lemma ToldErrorKeeps(s: State)
    requires Inv(s)
    ensures Inv(s.(owner := EmitError(s.owner)))
  {
    hide Buffered, Fifo, Placed, Checked, Spoken, Delivered;
    EmitErrorKeeps(s.owner, s.minimum);
    OwnerToldKeeps(s, EmitError(s.owner));
  }

  lemma HandshakeFailsKeeps(s: State)
    requires Inv(s) && s.phase in {Selecting, Opening}
    ensures Inv(HandshakeFails(s))
  {
    hide Buffered, Spoken, Delivered, Guarded, Introduced, EmitError, EmitClose;
    ToldErrorKeeps(s);
    if |s.baseCloses| in s.echoes { ToldCloseKeeps(s.(owner := EmitError(s.owner)), s.echoes[|s.baseCloses|]); }
  }

  lemma AssignKeeps(s: State)
    requires Inv(s) && s.phase == Opening
    ensures Inv(Assign(s))
  {
    hide Buffered, Spoken, Delivered, Guarded, Introduced, EmitOpen;
    NothingBuffered();
    if s.owner.closed {
      CloseBaseKeeps(s.(channel := Channel(true, s.channel.mode, true), phase := Over, early := EMPTY), NORMAL);
    } else if s.openPending {
      EmitOpenKeeps(s.owner, s.channel.mode.value, s.minimum);
    }
  }

  lemma NothingBuffered()
    ensures Buffered(EMPTY)
  {
  }

  lemma DrainKeeps(s: State)
    requires Inv(s) && Enabled(s, Drains)
    ensures Inv(DrainOne(s))
  {
    hide Spoken, Delivered, Guarded, Introduced, EmitMessage;
    var m := s.early.msgs[0];
    assert s.early.msgs == [m] + s.early.msgs[1..];
    assert Delivered(s.owner.signals) + [m] + s.early.msgs[1..] == Delivered(s.owner.signals) + s.early.msgs;
    EmitMessageKeeps(s.(early := Shift(s.early)), m);
  }

  lemma FinishKeeps(s: State)
    requires Inv(s) && Enabled(s, Finishes)
    ensures Inv(Finish(s))
  {
    hide Buffered, Spoken, Delivered, Guarded, Introduced;
    NothingBuffered();
  }

  lemma StepKeeps(s: State, e: Event)
    requires Inv(s) && Enabled(s, e)
    ensures Inv(Step(s, e))
  {
    hide Buffered, Spoken, Delivered, Guarded, Introduced, EmitMessage, Assign, ActStep, HandshakeFails, Finish,
         DrainOne;
    match e
    case Outside(a) => ActKeeps(s, a);
    case CodecFails => HandshakeFailsKeeps(s);
    case FactoryReturns => AssignKeeps(s);
    case FactoryThrows => HandshakeFailsKeeps(s);
    case Drains => DrainKeeps(s);
    case Finishes => FinishKeeps(s);
    case _ =>
  }
}
