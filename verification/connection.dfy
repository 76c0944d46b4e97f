/**
 * The connection fields of the client, updated in place: its timers, its retry pacing, and the
 * attempt, transport and security state on top of them.
 */
module Connections {
  import opened Prelude
  import opened Link
  import B = Backoff
  import T = Timers

  class TimerPool {
    var reconnectTimeout: Option<nat>
    var connectTimeout: Option<nat>
    var pendingGenericTransportErrorTimeout: Option<nat>
    var armed: map<nat, T.Kind>
    var nextId: nat

    ghost function View(): T.Timers
      reads this
    {
      T.Timers(reconnectTimeout, connectTimeout, pendingGenericTransportErrorTimeout, armed, nextId)
    }

    constructor ()
      ensures View() == T.NONE
    {
      reconnectTimeout, connectTimeout, pendingGenericTransportErrorTimeout := None, None, None;
      armed, nextId := map[], 0;
    }

    method ClearReconnectTimeout()
      modifies this
      ensures View() == T.ClearRetry(old(View()))
    {
      if reconnectTimeout.Some? {
        armed := armed - {reconnectTimeout.value};
        reconnectTimeout := None;
      }
    }

    method ResetConnectTimeout()
      modifies this
      ensures View() == T.ClearDeadline(old(View()))
    {
      if connectTimeout.Some? {
        armed := armed - {connectTimeout.value};
        connectTimeout := None;
      }
    }

    method RestartConnectTimeout()
      modifies this
      ensures View() == T.ArmDeadline(T.ClearDeadline(old(View())))
    {
      ResetConnectTimeout();
      SetConnectTimeout();
    }

    method ClearGenericErrorTimeout()
      modifies this
      ensures View() == T.ClearErrorDelay(old(View()))
    {
      if pendingGenericTransportErrorTimeout.Some? {
        armed := armed - {pendingGenericTransportErrorTimeout.value};
        pendingGenericTransportErrorTimeout := None;
      }
    }

    method SetReconnectTimeout(delay: nat, number: nat)
      modifies this
      ensures View() == T.ArmRetry(old(View()), delay, number)
    {
      armed := armed[nextId := T.Retry(delay, number)];
      reconnectTimeout, nextId := Some(nextId), nextId + 1;
    }

    method SetConnectTimeout()
      modifies this
      ensures View() == T.ArmDeadline(old(View()))
    {
      armed := armed[nextId := T.Deadline];
      connectTimeout, nextId := Some(nextId), nextId + 1;
    }

    method SetGenericErrorTimeout()
      modifies this
      ensures View() == T.ArmErrorDelay(old(View()))
    {
      if pendingGenericTransportErrorTimeout.None? {
        armed := armed[nextId := T.ErrorDelay];
        pendingGenericTransportErrorTimeout, nextId := Some(nextId), nextId + 1;
      }
    }

    method Fire(id: nat)
      requires id in armed
      modifies this
      ensures View() == T.Fired(old(View()), id)
    {
      match armed[id] {
        case Retry(_, _) => reconnectTimeout := None;
        case Deadline =>
        case ErrorDelay => pendingGenericTransportErrorTimeout := None;
      }
      armed := armed - {id};
    }
  }

  class Pacer {
    const policy: B.Policy
    var reconnectAttempt: nat
    var pendingReconnectDelay: Option<(nat, Option<nat>)>
    var nextRetryDelay: Option<nat>
    ghost var draws: nat
    ghost var arms: nat
    ghost var faults: nat

    ghost function View(): Pace
      reads this
    {
      Pace(policy, reconnectAttempt, pendingReconnectDelay, nextRetryDelay, draws, arms, faults)
    }

    constructor (policy: B.Policy)
      ensures View() == Pace(policy, 0, None, None, 0, 0, 0)
    {
      this.policy := policy;
      reconnectAttempt, pendingReconnectDelay, nextRetryDelay, draws, arms, faults := 0, None, None, 0, 0, 0;
    }

    /** The delay for the current try, drawn once so that the published retry time is the real one. */
    method NextReconnectDelayMs(random: B.Unit) returns (delay: Option<nat>)
      modifies this
      ensures (View(), delay) == NextDelay(old(View()), random)
      ensures Drawn(View()) && pendingReconnectDelay == Some((reconnectAttempt, delay))
      ensures old(Drawn(View())) ==> View() == old(View())
      ensures !old(Drawn(View())) ==> draws == old(draws) + 1 && (delay.Some? <==> B.Numeric(policy, reconnectAttempt))
      ensures !old(Drawn(View())) && delay.Some? ==> B.Bounded(policy, reconnectAttempt, delay.value)
      ensures forall again: B.Unit :: NextDelay(View(), again) == (View(), delay)
    {
      if pendingReconnectDelay.Some? && pendingReconnectDelay.value.0 == reconnectAttempt {
        return pendingReconnectDelay.value.1;
      }
      delay := B.Delay(policy, reconnectAttempt, random);
      pendingReconnectDelay := Some((reconnectAttempt, delay));
      draws := draws + 1;
    }

    /** The retry time is no date: the state update is not made. */
    ghost method CountFault()
      modifies this`faults
      ensures View() == old(View()).(faults := old(View()).faults + 1)
    {
      faults := faults + 1;
    }

    method Publish(delay: Option<nat>)
      modifies this
      ensures View() == old(View()).(published := delay)
    {
      nextRetryDelay := delay;
    }

    /** The retry is armed: the draw is used up and the next try begins one ceiling higher. */
    method CountRetry()
      modifies this
      ensures View() == old(View()).(drawn := None, tries := old(View()).tries + 1, arms := old(View()).arms + 1)
    {
      pendingReconnectDelay := None;
      reconnectAttempt, arms := reconnectAttempt + 1, arms + 1;
    }

    method Reset()
      modifies this
      ensures View() == old(View()).(tries := 0, published := None)
    {
      reconnectAttempt, nextRetryDelay := 0, None;
    }
  }

  class Connection {
    var connectionState: Status
    var transport: Option<nat>
    var transportErrored: bool
    var connectionAttempt: Option<nat>
    var outstanding: set<nat>
    var nextToken: nat
    var shouldReconnect: bool
    var reconnectEnabled: bool
    var authFailure: bool
    var connectPromise: bool
    var connectSettlers: bool
    var relaySecurityFloor: Option<Mode>
    ghost var builds: seq<Option<Mode>>
    const timers: TimerPool
    const pacer: Pacer

    ghost function View(): Link
      reads this, timers, pacer
    {
      Link(connectionState, transport, transportErrored, connectionAttempt, outstanding, nextToken, shouldReconnect,
           reconnectEnabled, authFailure, connectPromise, connectSettlers, timers.View(), pacer.View(),
           Security(relaySecurityFloor, builds))
    }

    constructor (policy: B.Policy, enabled: bool, minimumMode: Option<Mode>)
      ensures View() == Initial(policy, enabled, minimumMode) && fresh(timers) && fresh(pacer)
    {
      connectionState, transport, transportErrored, connectionAttempt := Idle, None, false, None;
      outstanding, nextToken, shouldReconnect, reconnectEnabled := {}, 0, true, enabled;
      authFailure, connectPromise, connectSettlers := false, false, false;
      relaySecurityFloor, builds := minimumMode, [];
      timers := new TimerPool();
      pacer := new Pacer(policy);
    }

    method RejectOrResolveConnect()
      modifies this
      ensures View() == SettleConnect(old(View()))
    {
      connectPromise, connectSettlers := false, false;
    }

    method EnableReconnect(enabled: bool)
      modifies this, timers
      ensures View() == SetReconnectEnabled(old(View()), enabled)
    {
      reconnectEnabled := enabled;
      if !enabled { timers.ClearReconnectTimeout(); }
    }

    /** Publishes the disconnected state; says whether the retry time could not be written as a date. */
    method EmitDisconnectedState(draw: Draw) returns (thrown: bool)
      modifies this, pacer
      ensures View() == EmitDisconnected(old(View()), draw) && thrown == Faults(old(View()), draw)
    {
      if shouldReconnect && reconnectEnabled {
        var delay := pacer.NextReconnectDelayMs(draw.first);
        if delay.None? || draw.now + delay.value > B.LAST_DATE {
          pacer.CountFault();
          return true;
        }
        pacer.Publish(delay);
      } else {
        pacer.Publish(None);
      }
      connectionState := Disconnected;
      return false;
    }

    method ArmReconnectTimer(random: B.Unit)
      modifies timers, pacer
      ensures View() == ArmReconnect(old(View()), random)
    {
      var attempt := pacer.reconnectAttempt;
      var delay := pacer.NextReconnectDelayMs(random);
      pacer.CountRetry();
      timers.SetReconnectTimeout(if delay.Some? then delay.value else 0, attempt);
    }

    method JudgeLoss()
      modifies this, timers
      ensures View() == Judged(old(View()))
    {
      connectionAttempt := None;
      timers.ClearReconnectTimeout();
      if authFailure { EnableReconnect(false); }
    }

    /** The connection part of `scheduleReconnect`; says whether it broke off. */
    method LoseConnection(draw: Draw) returns (thrown: bool)
      modifies this, timers, pacer
      ensures View() == Lose(old(View()), draw)
      ensures thrown <==> View().pace.faults != old(View().pace.faults)
    {
      hide Judged, EmitDisconnected, ArmReconnect, Faults;
      LossShapes(View(), draw);
      JudgeLoss();
      if connectionState == Disposed {
        RejectOrResolveConnect();
        return false;
      }
      thrown := EmitDisconnectedState(draw);
      if thrown { return; }
      if !shouldReconnect || !reconnectEnabled {
        RejectOrResolveConnect();
        return;
      }
      ArmReconnectTimer(draw.second);
    }

    method StopWatching()
      modifies timers
      ensures View() == Unwatch(old(View()))
    {
      timers.ResetConnectTimeout();
      timers.ClearGenericErrorTimeout();
    }

    method DropTransport()
      modifies this, timers
      ensures View() == Dispose(old(View()))
    {
      StopWatching();
      transport := None;
    }

    method ClaimAttempt()
      modifies this, timers
      ensures View() == BeginAttempt(old(View()))
    {
      connectionAttempt, nextToken := Some(nextToken), nextToken + 1;
      timers.ClearReconnectTimeout();
    }

    method InstallTransport()
      modifies this, timers, pacer
      ensures View() == Install(old(View()))
    {
      hide View, T.ClearDeadline, T.ArmDeadline;
      TakeTransport();
      WatchNewTransport();
    }

    /** The transport that has been built is the current one. */
    method TakeTransport()
      modifies this
      ensures var l := old(View());
        View() == l.(transport := Some(l.tokens), tokens := l.tokens + 1, errored := false, authFailed := false,
                     status := Connecting,
                     security := l.security.(builds := l.security.builds + [l.security.floor]))
    {
      builds := builds + [relaySecurityFloor];
      transport, nextToken, transportErrored := Some(nextToken), nextToken + 1, false;
      authFailure, connectionState := false, Connecting;
    }

    method WatchNewTransport()
      modifies timers, pacer
      ensures var l := old(View());
        View() == l.(timers := T.ArmDeadline(T.ClearDeadline(l.timers)), pace := l.pace.(published := None))
    {
      hide T.ClearDeadline, T.ArmDeadline;
      pacer.Publish(None);
      timers.RestartConnectTimeout();
    }

    method BecomeConnected()
      modifies this, timers, pacer
      ensures View() == Establish(old(View()))
    {
      timers.ResetConnectTimeout();
      pacer.Reset();
      connectionState := Connected;
    }

    method NoteGenericError()
      modifies this, timers
      ensures View() == GenericError(old(View()))
    {
      transportErrored := true;
      timers.ResetConnectTimeout();
      timers.SetGenericErrorTimeout();
    }

    method DisposeConnection()
      modifies this, timers, pacer
      ensures View() == Close(old(View()))
    {
      shouldReconnect := false;
      connectionAttempt := None;
      connectionState := Disposed;
      pacer.Publish(None);
      RejectOrResolveConnect();
      timers.ClearReconnectTimeout();
      DropTransport();
    }
  }
}
