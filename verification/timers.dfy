/**
 * The timers of one connection. Armed callbacks live in a pool, and the client holds handles to
 * them; a timer whose handle was overwritten without being cleared would still be there to fire.
 */
module Timers {
  import opened Prelude

  datatype Kind = Retry(delay: nat, number: nat) | Deadline | ErrorDelay

  datatype Timers = Timers(
    retry: Option<nat>,
    deadline: Option<nat>,
    errorDelay: Option<nat>,
    armed: map<nat, Kind>,
    nextId: nat)

  const NONE := Timers(None, None, None, map[], 0)

  function Disarm(armed: map<nat, Kind>, handle: Option<nat>): map<nat, Kind> {
    if handle.Some? then armed - {handle.value} else armed
  }

  function ClearRetry(t: Timers): Timers {
    t.(retry := None, armed := Disarm(t.armed, t.retry))
  }

  function ClearDeadline(t: Timers): Timers {
    t.(deadline := None, armed := Disarm(t.armed, t.deadline))
  }

  function ClearErrorDelay(t: Timers): Timers {
    t.(errorDelay := None, armed := Disarm(t.armed, t.errorDelay))
  }

  function ArmRetry(t: Timers, delay: nat, number: nat): Timers {
    t.(retry := Some(t.nextId), armed := t.armed[t.nextId := Retry(delay, number)], nextId := t.nextId + 1)
  }

  function ArmDeadline(t: Timers): Timers {
    t.(deadline := Some(t.nextId), armed := t.armed[t.nextId := Deadline], nextId := t.nextId + 1)
  }

  function ArmErrorDelay(t: Timers): Timers {
    if t.errorDelay.Some? then t
    else t.(errorDelay := Some(t.nextId), armed := t.armed[t.nextId := ErrorDelay], nextId := t.nextId + 1)
  }

  /** A callback leaves the pool to run; the retry and error callbacks also drop their handle. */
  function Fired(t: Timers, id: nat): Timers
    requires id in t.armed
  {
    var t' := t.(armed := t.armed - {id});
    match t.armed[id]
    case Retry(_, _) => t'.(retry := None)
    case Deadline => t'
    case ErrorDelay => t'.(errorDelay := None)
  }

  predicate Arms(t: Timers, handle: Option<nat>) {
    handle.Some? && handle.value in t.armed
  }

  /** No armed timer is orphaned, and every handle in use names a timer of its own kind. */
  ghost predicate Owned(t: Timers) {
    && (forall id :: id in t.armed ==> t.retry == Some(id) || t.deadline == Some(id) || t.errorDelay == Some(id))
    && (t.retry.Some? ==> t.retry.value < t.nextId && Arms(t, t.retry) && t.armed[t.retry.value].Retry?)
    && (t.errorDelay.Some? ==>
          t.errorDelay.value < t.nextId && Arms(t, t.errorDelay) && t.armed[t.errorDelay.value].ErrorDelay?)
    && (t.deadline.Some? ==>
          t.deadline.value < t.nextId && (Arms(t, t.deadline) ==> t.armed[t.deadline.value].Deadline?))
  }

  /** `t'` has the retry timer of `t`, or none. */
  ghost predicate SameRetry(t: Timers, t': Timers) {
    t'.retry.Some? ==> t'.retry == t.retry && Arms(t, t.retry) && Arms(t', t.retry)
                       && t'.armed[t.retry.value] == t.armed[t.retry.value]
  }

  lemma ClearKeeps(t: Timers)
    requires Owned(t)
    ensures Owned(ClearRetry(t)) && Owned(ClearDeadline(t)) && Owned(ClearErrorDelay(t))
    ensures SameRetry(t, ClearDeadline(t)) && SameRetry(t, ClearErrorDelay(t))
    ensures Arms(t, t.deadline) ==> Arms(ClearErrorDelay(t), t.deadline) && Arms(ClearRetry(t), t.deadline)
  {
  }

  lemma ArmKeeps(t: Timers, delay: nat, number: nat)
    requires Owned(t)
    ensures t.retry.None? ==> Owned(ArmRetry(t, delay, number))
    ensures !Arms(t, t.deadline) ==> Owned(ArmDeadline(t)) && SameRetry(t, ArmDeadline(t))
    ensures Owned(ArmErrorDelay(t)) && SameRetry(t, ArmErrorDelay(t))
  {
  }

  lemma FiredKeeps(t: Timers, id: nat)
    requires Owned(t) && id in t.armed
    ensures Owned(Fired(t, id)) && SameRetry(t, Fired(t, id))
    ensures !t.armed[id].Deadline? ==> Arms(t, t.deadline) ==> Arms(Fired(t, id), t.deadline)
  {
  }
}
