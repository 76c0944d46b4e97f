/**
 * The ping probe and the heartbeat that owns it. `log` is the history the teardown claim is
 * about: heartbeat-owned failures, signs of life from the daemon, and liveness teardowns.
 */
module Liveness {
  import opened Prelude

  datatype Sign = Failure | Alive | Teardown

  datatype Kind = Beat | Ping

  datatype Probe = Probe(timer: nat, drivesFailure: bool)

  datatype Live = Live(
    probe: Option<Probe>,
    heartbeat: Option<nat>,
    timers: map<nat, Kind>,
    nextId: nat,
    attached: bool,           // the heartbeat is waiting for the probe in flight
    failures: nat,
    log: seq<Sign>)

  const INITIAL := Live(None, None, map[], 0, false, 0, [])

  const FAILURE_THRESHOLD := 2

  // ---------------------------------------------------------------------------
  // Steps
  // ---------------------------------------------------------------------------

  function Heard(l: Live): Live {
    l.(failures := 0, log := l.log + [Alive])
  }

  /** `recordLivenessFailure`; the flag says whether the transport must be torn down. */
  function Fail(l: Live): (Live, bool) {
    if l.failures + 1 < FAILURE_THRESHOLD then (l.(failures := l.failures + 1, log := l.log + [Failure]), false)
    else (l.(failures := 0, log := l.log + [Failure, Teardown]), true)
  }

  function StopBeat(l: Live): Live {
    if l.heartbeat.None? then l else l.(heartbeat := None, timers := l.timers - {l.heartbeat.value})
  }

  function ScheduleBeat(l: Live, connected: bool): Live {
    if !connected || l.heartbeat.Some? then l
    else l.(heartbeat := Some(l.nextId), timers := l.timers[l.nextId := Beat], nextId := l.nextId + 1)
  }

  function StartBeat(l: Live): Live {
    ScheduleBeat(StopBeat(l), true)
  }

  function OpenProbe(l: Live, drivesFailure: bool): Live {
    l.(probe := Some(Probe(l.nextId, drivesFailure)), timers := l.timers[l.nextId := Ping], nextId := l.nextId + 1)
  }

  /** The probe is over, by answer, timeout, failed send or loss. */
  function DropProbe(l: Live): Live {
    if l.probe.None? then l
    else l.(probe := None, attached := false, timers := l.timers - {l.probe.value.timer})
  }

  /** A heartbeat waiting on the probe schedules the next beat once the probe has settled. */
  function SettleProbe(l: Live, connected: bool): Live {
    if l.attached then ScheduleBeat(DropProbe(l), connected) else DropProbe(l)
  }

  // ---------------------------------------------------------------------------
  // What holds
  // ---------------------------------------------------------------------------

  /** Failures at the end of the log that no sign of life and no teardown follows. */
  function Trailing(log: seq<Sign>): nat {
    if log == [] || log[|log| - 1] != Failure then 0 else 1 + Trailing(log[..|log| - 1])
  }

  /** Every teardown stands directly behind two failures, with no sign of life in between. */
  ghost predicate Justified(log: seq<Sign>) {
    forall i :: 0 <= i < |log| ==> JustifiedAt(log, i)
  }

  predicate JustifiedAt(log: seq<Sign>, i: nat)
    requires i < |log|
  {
    log[i] == Teardown ==> 2 <= i && log[i - 1] == Failure && log[i - 2] == Failure
  }

  function Handle(handle: Option<nat>): set<nat> {
    if handle.Some? then {handle.value} else {}
  }

  function ProbeHandle(probe: Option<Probe>): set<nat> {
    if probe.Some? then {probe.value.timer} else {}
  }

  /** The armed timers are exactly the ones the handles name, each of its own kind. */
  ghost predicate TimersOwned(l: Live) {
    && l.timers.Keys == Handle(l.heartbeat) + ProbeHandle(l.probe)
    && (forall id :: id in l.timers ==> id < l.nextId)
    && (l.heartbeat.Some? ==> l.timers[l.heartbeat.value] == Beat)
    && (l.probe.Some? ==> l.timers[l.probe.value.timer] == Ping)
  }

  ghost predicate Inv(l: Live) {
    && TimersOwned(l)
    && (l.attached ==> l.probe.Some?)
    && l.failures < FAILURE_THRESHOLD
    && l.failures == Trailing(l.log)
    && Justified(l.log)
  }

  lemma TrailingAppend(log: seq<Sign>, sign: Sign)
    ensures Trailing(log + [sign]) == if sign == Failure then 1 + Trailing(log) else 0
  {
    assert (log + [sign])[..|log|] == log;
  }

  lemma JustifiedAppend(log: seq<Sign>, sign: Sign)
    requires Justified(log)
    requires sign == Teardown ==> 2 <= Trailing(log)
    ensures Justified(log + [sign])
  {
    forall i | 0 <= i < |log| + 1
      ensures JustifiedAt(log + [sign], i)
    {
      if i < |log| { assert JustifiedAt(log, i); }
    }
  }

  lemma HeardKeeps(l: Live)
    requires Inv(l)
    ensures Inv(Heard(l))
  {
    TrailingAppend(l.log, Alive);
    JustifiedAppend(l.log, Alive);
  }

  lemma FailKeeps(l: Live)
    requires Inv(l)
    ensures Inv(Fail(l).0)
  {
    var failed := l.log + [Failure];
    TrailingAppend(l.log, Failure);
    JustifiedAppend(l.log, Failure);
    if l.failures + 1 == FAILURE_THRESHOLD {
      assert l.log + [Failure, Teardown] == failed + [Teardown];
      TrailingAppend(failed, Teardown);
      JustifiedAppend(failed, Teardown);
    }
  }

  lemma TimerStepsKeep(l: Live, connected: bool)
    requires Inv(l)
    ensures Inv(StopBeat(l)) && Inv(DropProbe(l))
    ensures Inv(ScheduleBeat(l, connected)) && Inv(StartBeat(l)) && Inv(SettleProbe(l, connected))
  {
    ScheduleBeatKeeps(l, connected);
    assert Inv(StopBeat(l));
    ScheduleBeatKeeps(StopBeat(l), true);
    assert Inv(DropProbe(l));
    ScheduleBeatKeeps(DropProbe(l), connected);
  }

  lemma ScheduleBeatKeeps(l: Live, connected: bool)
    requires Inv(l)
    ensures Inv(ScheduleBeat(l, connected))
  {
  }

  lemma OpenProbeKeeps(l: Live, drivesFailure: bool)
    requires Inv(l) && l.probe.None?
    ensures Inv(OpenProbe(l, drivesFailure))
  {
  }
}
