/** The encrypted transport wrapper itself: its variables, its handlers and its drain loop. */
module EncryptedWrappers {
  import opened Prelude
  import opened EncryptedTransport
  import opened EncryptedRuns

  class EncryptedWrapper {
    const minimumMode: Mode
    const baseEchoes: map<nat, nat>
    var phase: Phase
    var channel: Channel
    var isOpen: bool
    var closed: bool
    var awaitingServerInfo: bool
    var openBeforeChannelAssignment: bool
    var channelPublished: bool
    var earlyMessages: seq<Msg>
    var earlyMessageBytes: int
    ghost var signals: seq<Signal>
    ghost var received: seq<Msg>
    var baseCloses: seq<nat>

    ghost function View(): State
      reads this
    {
      State(minimumMode, baseEchoes, phase, channel, Owner(isOpen, closed, signals), awaitingServerInfo,
            openBeforeChannelAssignment, Buffer(earlyMessages, earlyMessageBytes), received, baseCloses)
    }

    ghost predicate Valid()
      reads this
    {
      Inv(View()) && (channelPublished <==> phase == Published)
    }

    constructor (minimum: Mode, echoes: map<nat, nat>)
      ensures Valid() && View() == Initial(minimum, echoes)
    {
      minimumMode, baseEchoes := minimum, echoes;
      phase, channel := Idle, Channel(false, None, false);
      isOpen, closed, awaitingServerInfo := false, false, true;
      openBeforeChannelAssignment, channelPublished := false, false;
      earlyMessages, earlyMessageBytes := [], 0;
      signals, received, baseCloses := [], [], [];
    }

    method EmitOpen()
      modifies this`isOpen, this`signals
      ensures View().owner == EncryptedTransport.EmitOpen(old(View().owner))
    {
      if isOpen || closed { return; }
      isOpen, signals := true, signals + [Opened];
    }

    method EmitClose(code: nat)
      modifies this`closed, this`signals
      ensures View().owner == EncryptedTransport.EmitClose(old(View().owner), code)
    {
      if closed { return; }
      closed, signals := true, signals + [Closed(code)];
    }

    method EmitError()
      modifies this`signals
      ensures View().owner == EncryptedTransport.EmitError(old(View().owner))
    {
      if closed { return; }
      signals := signals + [Failed];
    }

    /** The base transport's own `close`, which may report before it returns. */
    method CloseTransport(code: nat)
      modifies this`baseCloses, this`closed, this`signals
      ensures baseCloses == old(baseCloses) + [code]
      ensures View().owner == if |old(baseCloses)| in baseEchoes
                              then EncryptedTransport.EmitClose(old(View().owner), baseEchoes[|old(baseCloses)|])
                              else old(View().owner)
    {
      var call := |baseCloses|;
      baseCloses := baseCloses + [code];
      if call in baseEchoes { EmitClose(baseEchoes[call]); }
    }

    method CloseBase(code: nat)
      modifies this`baseCloses, this`closed, this`signals
      ensures View() == EncryptedTransport.CloseBase(old(View()), code)
    {
      CloseTransport(code);
      EmitClose(code);
    }

    method CloseChannel(code: nat)
      modifies this`channel, this`baseCloses, this`closed, this`signals
      ensures View() == EncryptedTransport.CloseChannel(old(View()), code)
    {
      channel := channel.(closeCalled := true);
      CloseBase(code);
    }

    method EmitMessage(m: Msg)
      modifies this`awaitingServerInfo, this`channel, this`baseCloses, this`closed, this`signals
      ensures View() == EncryptedTransport.EmitMessage(old(View()), m)
    {
      if closed { return; }
      if awaitingServerInfo && m.Text? {
        if m.serverInfo.Some? {
          awaitingServerInfo := false;
          if m.serverInfo.value && channel.mode == Some(Legacy) {
            CloseChannel(HANDSHAKE_FAILED);
            return;
          }
        }
      }
      signals := signals + [Message(m)];
    }

    method EmitChannelOpen()
      requires channel.held ==> channel.mode.Some?
      modifies this`openBeforeChannelAssignment, this`isOpen, this`signals
      ensures View() == EncryptedTransport.EmitChannelOpen(old(View()))
    {
      if closed { return; }
      if !channel.held {
        openBeforeChannelAssignment := true;
        return;
      }
      signals := signals + [ModeReported(channel.mode.value)];
      EmitOpen();
    }

    method ReceiveChannelMessage(m: Msg)
      requires channelPublished <==> phase == Published
      modifies this
      ensures View() == EncryptedTransport.ReceiveChannelMessage(old(View()), m)
      ensures channelPublished == old(channelPublished)
    {
      hide EncryptedTransport.EmitMessage, EncryptedTransport.CloseBase;
      received := received + [m];
      if closed { return; }
      if channel.held && channelPublished {
        EmitMessage(m);
        return;
      }
      if |earlyMessages| >= 64 || earlyMessageBytes + m.size > 1024 * 1024 {
        earlyMessages, earlyMessageBytes := [], 0;
        CloseBase(HANDSHAKE_FAILED);
        return;
      }
      earlyMessageBytes := earlyMessageBytes + m.size;
      earlyMessages := earlyMessages + [m];
    }

    /** A callback of the channel or of the base transport, or the owner's `close`. */
    method Handle(a: Act)
      requires Valid() && ActEnabled(View(), a)
      modifies this
      ensures Valid() && View() == ActStep(old(View()), a)
    {
      hide Inv, EncryptedTransport.CloseBase, EncryptedTransport.EmitClose, EncryptedTransport.EmitOpen,
           EncryptedTransport.EmitMessage;
      ActKeeps(View(), a);
      PhaseKept(View(), a);
      match a {
        case ChannelOpens(mode) =>
          channel := channel.(mode := Some(mode));
          EmitChannelOpen();
        case Receives(m) => ReceiveChannelMessage(m);
        case ChannelCloses(code) => EmitClose(code);
        case BaseCloses(code) => EmitClose(code);
        case BaseErrors => EmitError();
        case OwnerCloses(code) =>
          if channel.held {
            CloseChannel(code);
          } else {
            CloseBase(code);
          }
      }
    }

    /** Whatever re-enters the wrapper while one of its emissions is under way. */
    method Reenter(acts: seq<Act>)
      requires Valid()
      modifies this
      ensures Valid() && View() == Acts(old(View()), acts) && phase == old(phase)
    {
      hide Inv, ActStep;
      ghost var start := View();
      ActsNothing(start);
      for i := 0 to |acts|
        invariant Valid() && View() == Acts(start, acts[..i]) && phase == start.phase
      {
        assert acts[..i + 1] == acts[..i] + [acts[i]];
        ActsSnoc(start, acts[..i], acts[i]);
        if CanHandle(acts[i]) {
          PhaseKept(View(), acts[i]);
          Handle(acts[i]);
        }
      }
      assert acts[..|acts|] == acts;
    }

    predicate CanHandle(a: Act)
      reads this
      ensures CanHandle(a) == ActEnabled(View(), a)
    {
      match a
      case ChannelOpens(mode) => phase !in {Idle, Selecting} && channel.mode.None? && Meets(minimumMode, mode)
      case Receives(_) => channel.mode.Some?
      case ChannelCloses(_) => phase !in {Idle, Selecting}
      case _ => true
    }

    method OnBaseOpen()
      requires Valid() && phase == Idle
      modifies this`phase
      ensures Valid() && View() == Step(old(View()), BaseOpens)
    {
      StepKeeps(View(), BaseOpens);
      phase := Selecting;
    }

    method OnCodecSelected()
      requires Valid() && phase == Selecting
      modifies this`phase
      ensures Valid() && View() == Step(old(View()), CodecSelected)
    {
      StepKeeps(View(), CodecSelected);
      phase := if closed then Over else Opening;
    }

    method OnHandshakeError()
      requires Valid() && phase in {Selecting, Opening}
      modifies this
      ensures Valid() && View() == HandshakeFails(old(View()))
    {
      hide Inv, EncryptedTransport.EmitError, EncryptedTransport.EmitClose;
      HandshakeFailsKeeps(View());
      EmitError();
      CloseTransport(HANDSHAKE_ABORTED);
      phase := Over;
    }

    /** The channel factory has resolved: up to the drain loop. */
    method AssignChannel()
      requires Valid() && phase == Opening
      modifies this
      ensures Valid() && View() == Assign(old(View()))
    {
      hide Inv, EncryptedTransport.CloseBase, EncryptedTransport.EmitOpen;
      AssignKeeps(View());
      if openBeforeChannelAssignment { PendingMode(View()); }
      channel := channel.(held := true);
      if closed {
        phase, earlyMessages, earlyMessageBytes := Over, [], 0;
        CloseChannel(NORMAL);
      } else {
        phase := Draining;
        if openBeforeChannelAssignment { EmitChannelOpen(); }
      }
    }

    /**
     * The rest of the handshake in one turn. `atOpen` re-enters while open is emitted, `nested[i]`
     * while the `i`-th buffered message is: they may close the wrapper or bring further messages.
     */
    method OnChannelCreated(atOpen: seq<Act>, nested: seq<seq<Act>>)
      requires Valid() && phase == Opening
      modifies this
      ensures Valid()
      ensures View() == if old(closed) then Assign(old(View()))
                        else Drain(Acts(Assign(old(View())), atOpen), nested)
    {
      hide Inv, Drain, Acts;
      var late := closed;
      ghost var start := View();
      AssignPhase(start);
      AssignChannel();
      if late { return; }
      Reenter(atOpen);
      DrainEarly(nested);
    }

    method DrainMessage()
      requires Valid() && phase == Draining && !closed && earlyMessages != []
      modifies this
      ensures Valid() && View() == DrainOne(old(View())) && phase == Draining
    {
      hide Inv, EncryptedTransport.EmitMessage;
      DrainKeeps(View());
      var message := earlyMessages[0];
      earlyMessages := earlyMessages[1..];
      earlyMessageBytes := earlyMessageBytes - message.size;
      EmitMessage(message);
    }

    /** The drain loop and what follows it. */
    method DrainEarly(nested: seq<seq<Act>>)
      requires Valid() && phase == Draining
      modifies this
      ensures Valid() && View() == Drain(old(View()), nested)
    {
      hide Inv, DrainOne, Acts;
      ghost var whole := Drain(View(), nested);
      var i := 0;
      while |earlyMessages| > 0
        invariant Valid() && phase == Draining && 0 <= i <= |nested|
        invariant Drain(View(), nested[i..]) == whole
        decreases |nested| - i, |earlyMessages|
      {
        if closed { break; }
        DrainMessage();
        if i < |nested| {
          assert nested[i..][1..] == nested[i + 1..];
          Reenter(nested[i]);
          i := i + 1;
        }
      }
      FinishDrain();
    }

    /** Whatever a close left in the buffer is dropped, and the channel is published. */
    method FinishDrain()
      requires Valid() && phase == Draining && (closed || earlyMessages == [])
      modifies this
      ensures Valid() && View() == Finish(old(View()))
    {
      hide Inv;
      FinishKeeps(View());
      earlyMessages, earlyMessageBytes := [], 0;
      channelPublished, phase := true, Published;
    }
  }

  lemma PendingMode(s: State)
    requires Inv(s) && s.openPending
    ensures s.channel.mode.Some?
  {
  }

  lemma AssignPhase(s: State)
    ensures Assign(s).phase == if s.owner.closed then Over else Draining
  {
  }

  lemma PhaseKept(s: State, a: Act)
    requires ActEnabled(s, a)
    ensures ActStep(s, a).phase == s.phase
  {
  }

  lemma ActsNothing(s: State)
    ensures Acts(s, []) == s
  {
    assert Outsides([]) == [];
  }
}
