/**
 * The connection half of the client: attempt token, transport, timers, reconnect policy and
 * endpoint security floor.
 */
module Link {
  import opened Prelude
  import opened Backoff
  import opened Timers

  datatype Status = Idle | Connecting | Connected | Disconnected | Disposed

  datatype Mode = Legacy | Protected

  /**
   * Reconnect pacing. `draws` and `arms` count delays drawn and retries armed so far, `faults` the
   * losses that broke off because their retry time could not be published.
   */
  datatype Pace = Pace(
    policy: Policy,
    tries: nat,
    drawn: Option<(nat, Option<nat>)>,
    published: Option<nat>,     // delay behind the retry time in the current connection state
    draws: nat,
    arms: nat,
    faults: nat)

  /** `builds` is the minimum mode every transport so far was built with. */
  datatype Security = Security(floor: Option<Mode>, builds: seq<Option<Mode>>)

  datatype Link = Link(
    status: Status,
    transport: Option<nat>,
    errored: bool,              // the current transport has reported an error
    attempt: Option<nat>,       // token of the attempt that may still install a transport
    outstanding: set<nat>,      // tokens whose credentials have not arrived, superseded ones included
    tokens: nat,
    shouldReconnect: bool,
    enabled: bool,
    authFailed: bool,
    promise: bool,              // connectPromise is set
    pending: bool,              // connectResolve and connectReject are set
    timers: Timers,
    pace: Pace,
    security: Security)

  /** What a loss takes from outside: two random values and the time. */
  datatype Draw = Draw(first: Unit, second: Unit, now: nat)

  function Initial(policy: Policy, enabled: bool, floor: Option<Mode>): Link {
    Link(Idle, None, false, None, {}, 0, true, enabled, false, false, false,
         NONE, Pace(policy, 0, None, None, 0, 0, 0), Security(floor, []))
  }

  // ---------------------------------------------------------------------------
  // Steps
  // ---------------------------------------------------------------------------

  function SettleConnect(l: Link): Link {
    l.(promise := false, pending := false)
  }

  function SetReconnectEnabled(l: Link, enabled: bool): Link {
    l.(enabled := enabled, timers := if enabled then l.timers else ClearRetry(l.timers))
  }

  /** The delay for the current try, drawn once and kept until the retry is armed. */
  function NextDelay(p: Pace, random: Unit): (Pace, Option<nat>) {
    if Drawn(p) then (p, p.drawn.value.1)
    else
      var delay := Delay(p.policy, p.tries, random);
      (p.(drawn := Some((p.tries, delay)), draws := p.draws + 1), delay)
  }

  /** The pending draw is the one for this try. */
  predicate Drawn(p: Pace) {
    p.drawn.Some? && p.drawn.value.0 == p.tries
  }

  /**
   * One draw per try: a pending draw is used as it is, a new one is bounded and then pending, and
   * whoever asks again before it is used is told the same delay, whatever the random source says.
   */
  lemma DrawnOnce(p: Pace, random: Unit, again: Unit)
    ensures var (p', delay) := NextDelay(p, random);
      && Drawn(p') && p'.drawn.value.1 == delay && NextDelay(p', again) == (p', delay)
      && (Drawn(p) ==> p' == p)
      && (!Drawn(p) ==> p'.draws == p.draws + 1 && (delay.Some? <==> Numeric(p.policy, p.tries)))
      && (!Drawn(p) && delay.Some? ==> Bounded(p.policy, p.tries, delay.value))
  {
  }

  /** A loss would publish a retry time and cannot. */
  predicate Faults(l: Link, draw: Draw) {
    l.shouldReconnect && l.enabled && !Publishable(NextDelay(l.pace, draw.first).1, draw.now)
  }

  /** Publishing a time that is no date throws before the connection state changes. */
  function EmitDisconnected(l: Link, draw: Draw): Link {
    if l.shouldReconnect && l.enabled then
      var (pace, delay) := NextDelay(l.pace, draw.first);
      if Faults(l, draw) then l.(pace := pace.(faults := pace.faults + 1))
      else l.(status := Disconnected, pace := pace.(published := delay))
    else l.(status := Disconnected, pace := l.pace.(published := None))
  }

  function ArmReconnect(l: Link, random: Unit): Link {
    var (pace, delay) := NextDelay(l.pace, random);
    l.(pace := pace.(drawn := None, tries := l.pace.tries + 1, arms := l.pace.arms + 1),
       timers := ArmRetry(l.timers, if delay.Some? then delay.value else 0, l.pace.tries))
  }

  /** What a loss has cleared and decided before it publishes anything. */
  function Judged(l: Link): Link {
    var cleared := l.(attempt := None, timers := ClearRetry(l.timers));
    if cleared.authFailed then SetReconnectEnabled(cleared, false) else cleared
  }

  /** The connection part of `scheduleReconnect`; a fault ends it where it publishes the retry time. */
  function Lose(l: Link, draw: Draw): Link {
    var judged := Judged(l);
    if judged.status == Disposed then SettleConnect(judged)
    else
      var emitted := EmitDisconnected(judged, draw);
      if Faults(judged, draw) then emitted
      else if !emitted.shouldReconnect || !emitted.enabled then SettleConnect(emitted)
      else ArmReconnect(emitted, draw.second)
  }

  /** The timers that watch a transport are cleared. */
  function Unwatch(l: Link): Link {
    l.(timers := ClearErrorDelay(ClearDeadline(l.timers)))
  }

  /** The connection part of `disposeTransport`. */
  function Dispose(l: Link): Link {
    Unwatch(l).(transport := None)
  }

  function BeginAttempt(l: Link): Link {
    l.(attempt := Some(l.tokens), tokens := l.tokens + 1, timers := ClearRetry(l.timers))
  }

  function EndAttempt(l: Link, token: nat): Link {
    if l.attempt == Some(token) then l.(attempt := None) else l
  }

  /** A transport has been built: it is installed and its deadline armed. */
  function Install(l: Link): Link {
    l.(transport := Some(l.tokens), tokens := l.tokens + 1, errored := false, authFailed := false,
       status := Connecting, timers := ArmDeadline(ClearDeadline(l.timers)),
       pace := l.pace.(published := None),
       security := l.security.(builds := l.security.builds + [l.security.floor]))
  }

  function Establish(l: Link): Link {
    l.(status := Connected, timers := ClearDeadline(l.timers), pace := l.pace.(tries := 0, published := None))
  }

  function Close(l: Link): Link {
    Dispose(SettleConnect(
      l.(shouldReconnect := false, attempt := None, status := Disposed,
         timers := ClearRetry(l.timers), pace := l.pace.(published := None))))
  }

  function ReportMode(s: Security, mode: Mode): Security {
    if mode == Protected then s.(floor := Some(Protected)) else s
  }

  // ---------------------------------------------------------------------------
  // What holds
  // ---------------------------------------------------------------------------

  predicate InSession(l: Link) {
    l.status == Connecting || l.status == Connected
  }

  /** How many things are driving the connection: a live attempt, an armed retry, a session. */
  function Drivers(l: Link): nat {
    (if l.attempt.Some? then 1 else 0) + (if l.timers.retry.Some? then 1 else 0) + (if InSession(l) then 1 else 0)
  }

  function Rank(floor: Option<Mode>): nat {
    match floor case None => 0 case Some(Legacy) => 1 case Some(Protected) => 2
  }

  /**
   * The armed retry waits for the published delay, and one draw was made for each armed retry; only
   * a loss that broke off leaves a draw behind.
   */
  ghost predicate Truthful(t: Timers, p: Pace) {
    && (p.faults == 0 ==> p.drawn.None? && p.draws == p.arms)
    && (p.drawn.Some? && p.drawn.value.1.Some? ==> Bounded(p.policy, p.drawn.value.0, p.drawn.value.1.value))
    && (Arms(t, t.retry) && t.armed[t.retry.value].Retry? ==>
          var timer := t.armed[t.retry.value];
          && p.published == Some(timer.delay) && timer.number + 1 == p.tries
          && Bounded(p.policy, timer.number, timer.delay))
  }

  /** Each build asked for at least what the one before it did, and the last for at most `top`. */
  predicate Rising(builds: seq<Option<Mode>>, top: Option<Mode>) {
    builds == [] ||
    (Rank(builds[|builds| - 1]) <= Rank(top) && Rising(builds[..|builds| - 1], builds[|builds| - 1]))
  }

  lemma {:induction false} RisingPairwise(builds: seq<Option<Mode>>, top: Option<Mode>, i: nat, j: nat)
    requires Rising(builds, top) && i <= j < |builds|
    ensures Rank(builds[i]) <= Rank(builds[j]) <= Rank(top)
  {
    var front, last := builds[..|builds| - 1], builds[|builds| - 1];
    if j < |front| {
      RisingPairwise(front, last, i, j);
    } else if i < |front| {
      RisingPairwise(front, last, i, i);
    }
  }

  predicate DisposedQuiet(l: Link) {
    && (l.shouldReconnect <==> l.status != Disposed)
    && (l.status == Disposed ==> l.attempt.None? && l.timers.retry.None? && l.transport.None? && !l.pending)
  }

  /** Holds in the middle of a step as well. */
  ghost predicate Core(l: Link) {
    && Owned(l.timers)
    && Truthful(l.timers, l.pace)
    && Rising(l.security.builds, l.security.floor)
    && DisposedQuiet(l)
    && (l.status == Idle ==> l.transport.None?)
  }

  /** A session has its transport, and while it is connecting a timer that can end it. */
  predicate Watched(l: Link) {
    && (InSession(l) ==> l.transport.Some?)
    && (l.status == Connecting ==> Arms(l.timers, l.timers.deadline) || (l.errored && l.timers.errorDelay.Some?))
  }

  /** Holds between steps. */
  ghost predicate Inv(l: Link) {
    && Core(l)
    && Drivers(l) <= 1
    && (l.timers.retry.Some? ==> l.status == Disconnected && l.enabled)
    && (l.attempt.Some? ==>
          && (l.status == Idle || l.status == Disconnected)
          && l.attempt.value in l.outstanding && l.attempt.value < l.tokens)
    && (l.pace.faults == 0 ==> Watched(l))
  }

  lemma SameRetryTruthful(t: Timers, t': Timers, p: Pace)
    requires Truthful(t, p) && SameRetry(t, t')
    ensures Truthful(t', p)
  {
  }

  lemma ClearRetryKeeps(l: Link)
    requires Core(l)
    ensures Core(l.(timers := ClearRetry(l.timers))) && Core(l.(attempt := None, timers := ClearRetry(l.timers)))
  {
    ClearKeeps(l.timers);
  }

  lemma DisposeKeeps(l: Link)
    requires Core(l)
    ensures Core(Unwatch(l)) && Core(Dispose(l)) && SameRetry(l.timers, Dispose(l).timers)
  {
    ClearKeeps(l.timers);
    SameRetryTruthful(l.timers, ClearDeadline(l.timers), l.pace);
    ClearKeeps(ClearDeadline(l.timers));
    SameRetryTruthful(ClearDeadline(l.timers), Dispose(l).timers, l.pace);
  }

  /** Error and authentication marks are free to change. */
  lemma MarksKeep(l: Link, errored: bool, authFailed: bool)
    requires Core(l)
    ensures Core(l.(errored := errored, authFailed := authFailed))
  {
  }

  lemma ClearDeadlineKeeps(l: Link)
    requires Core(l)
    ensures Core(l.(timers := ClearDeadline(l.timers)))
  {
    ClearKeeps(l.timers);
    SameRetryTruthful(l.timers, ClearDeadline(l.timers), l.pace);
  }

  lemma ArmReconnectKeeps(l: Link, draw: Draw)
    requires Core(l) && l.status != Disposed && l.enabled && l.attempt.None? && l.timers.retry.None?
    requires !Faults(l, draw) && l.shouldReconnect
    ensures Inv(ArmReconnect(EmitDisconnected(l, draw), draw.second))
    ensures EmitDisconnected(l, draw).shouldReconnect && EmitDisconnected(l, draw).enabled
    ensures var l' := ArmReconnect(EmitDisconnected(l, draw), draw.second);
      && l'.status == Disconnected && l'.enabled && l'.attempt.None? && l'.timers.retry.Some?
      && l'.transport == l.transport && l'.security == l.security
      && l'.pace.faults == l.pace.faults && l'.pace.tries == l.pace.tries + 1
  {
    var delay := NextDelay(l.pace, draw.first).1;
    ArmKeeps(l.timers, delay.value, l.pace.tries);
  }

  /** A loss that breaks off leaves nothing driving but the status it found. */
  lemma FaultKeeps(l: Link, draw: Draw)
    requires Core(l) && l.attempt.None? && l.timers.retry.None? && Faults(l, draw)
    ensures Inv(EmitDisconnected(l, draw))
    ensures var l' := EmitDisconnected(l, draw);
      && l'.status == l.status && l'.enabled && l'.attempt.None? && l'.timers == l.timers
      && l'.transport == l.transport && l'.security == l.security
      && l'.pace.faults == l.pace.faults + 1 && l'.pace.tries == l.pace.tries
  {
  }

  lemma JudgedKeeps(l: Link)
    requires Core(l)
    ensures var judged := Judged(l);
      && Core(judged) && judged.attempt.None? && judged.timers.retry.None?
      && judged.status == l.status && judged.transport == l.transport && judged.pace == l.pace
      && judged.security == l.security && judged.shouldReconnect == l.shouldReconnect
      && judged.enabled == (l.enabled && !l.authFailed)
      && (judged.status != Disposed ==> judged.shouldReconnect)
  {
    ClearRetryKeeps(l);
    ClearRetryKeeps(l.(attempt := None, timers := ClearRetry(l.timers)));
  }

  /** A loss turns any mid-step state into a settled one, with a retry armed if retrying is allowed. */
  lemma LoseKeeps(l: Link, draw: Draw)
    requires Core(l)
    ensures Inv(Lose(l, draw))
    ensures var l' := Lose(l, draw);
      && (l.status == Disposed ==> l'.status == Disposed)
      && l.pace.faults <= l'.pace.faults
      && (l.status != Disposed && l'.pace.faults == l.pace.faults ==>
            l'.status == Disconnected && Drivers(l') == if l'.enabled then 1 else 0)
      && (l'.pace.faults != l.pace.faults ==> l'.status == l.status && l'.enabled)
      && l'.attempt.None? && l'.transport == l.transport && l'.security == l.security
      && l.pace.tries <= l'.pace.tries
  {
    hide Core, Inv, Judged, EmitDisconnected, ArmReconnect;
    var judged := Judged(l);
    JudgedKeeps(l);
    if judged.status == Disposed {
      DisposedKeeps(judged);
    } else if Faults(judged, draw) {
      FaultKeeps(judged, draw);
    } else if judged.enabled {
      ArmReconnectKeeps(judged, draw);
    } else {
      QuietKeeps(judged, draw);
    }
  }

  /** Two links that differ in status, attempt, timers and pacing only. */
  predicate SameAim(l: Link, l': Link) {
    && l'.transport == l.transport && l'.security == l.security && l'.tokens == l.tokens
    && l'.promise == l.promise && l'.pending == l.pending && l'.shouldReconnect == l.shouldReconnect
  }

  lemma JudgedShape(l: Link)
    ensures SameAim(l, Judged(l)) && Judged(l).pace == l.pace && Judged(l).status == l.status
    ensures Judged(l).enabled == (l.enabled && !l.authFailed)
  {
    hide ClearRetry;
  }

  lemma EmitShape(l: Link, draw: Draw)
    ensures var l' := EmitDisconnected(l, draw);
      && SameAim(l, l') && l'.enabled == l.enabled && l'.pace.tries == l.pace.tries
      && l'.pace.faults == l.pace.faults + (if Faults(l, draw) then 1 else 0)
      && l'.status == if Faults(l, draw) then l.status else Disconnected
  {
    hide Delay, Publishable;
  }

  lemma ArmShape(l: Link, random: Unit)
    ensures var l' := ArmReconnect(l, random);
      && SameAim(l, l') && l'.status == l.status && l'.enabled == l.enabled && l'.timers.retry.Some?
      && l'.pace.tries == l.pace.tries + 1 && l'.pace.faults == l.pace.faults
  {
    hide Delay;
  }

  lemma LossShapes(l: Link, draw: Draw)
    ensures Judged(l).status == l.status && Judged(l).pace == l.pace
    ensures var emitted := EmitDisconnected(Judged(l), draw);
      && emitted.pace.faults == l.pace.faults + (if Faults(Judged(l), draw) then 1 else 0)
      && ArmReconnect(emitted, draw.second).pace.faults == emitted.pace.faults
  {
    hide Judged, EmitDisconnected, ArmReconnect, Faults;
    JudgedShape(l);
    EmitShape(Judged(l), draw);
    ArmShape(EmitDisconnected(Judged(l), draw), draw.second);
  }

  /** What a loss does whatever the state: no transport comes or goes, no try is taken back. */
  lemma LoseShape(l: Link, draw: Draw)
    ensures var l' := Lose(l, draw);
      && l'.transport == l.transport && l'.security == l.security && l'.tokens == l.tokens
      && l.pace.tries <= l'.pace.tries && l.pace.faults <= l'.pace.faults
      && ((l'.promise == l.promise && l'.pending == l.pending) || (!l'.promise && !l'.pending))
      && (l'.pace.faults == l.pace.faults ==> l'.status != Connected)
  {
    hide Judged, EmitDisconnected, ArmReconnect, Faults;
    JudgedShape(l);
    EmitShape(Judged(l), draw);
    ArmShape(EmitDisconnected(Judged(l), draw), draw.second);
  }

  /** A loss that breaks off answers no `connect`. */
  lemma FaultHolds(l: Link, draw: Draw)
    ensures var l' := Lose(l, draw);
      l'.pace.faults != l.pace.faults ==> l'.promise == l.promise && l'.pending == l.pending
  {
    hide Judged, EmitDisconnected, ArmReconnect, Faults;
    EmitShape(Judged(l), draw);
    ArmShape(EmitDisconnected(Judged(l), draw), draw.second);
    JudgedShape(l);
  }

  /** A loss leaves a waiting `connect` to its armed retry, answers it, or breaks off. */
  lemma LoseAnswers(l: Link, draw: Draw)
    ensures var l' := Lose(l, draw);
      l'.pace.faults == l.pace.faults && l'.pending ==> l'.timers.retry.Some?
  {
    hide Judged, EmitDisconnected, ArmReconnect, Faults;
    EmitShape(Judged(l), draw);
    ArmShape(EmitDisconnected(Judged(l), draw), draw.second);
    JudgedShape(l);
  }

  lemma QuietKeeps(l: Link, draw: Draw)
    requires Core(l) && l.status != Disposed && !l.enabled && l.attempt.None? && l.timers.retry.None?
    ensures Inv(SettleConnect(EmitDisconnected(l, draw)))
    ensures var l' := EmitDisconnected(l, draw);
      && l'.status == Disconnected && !l'.enabled && l'.attempt.None? && l'.timers == l.timers
      && l'.transport == l.transport && l'.security == l.security
      && l'.pace.faults == l.pace.faults && l'.pace.tries == l.pace.tries
  {
  }

  lemma DisposedKeeps(l: Link)
    requires Core(l) && l.status == Disposed
    ensures Inv(SettleConnect(l))
  {
  }

  lemma InstallKeeps(l: Link)
    requires Core(l) && l.timers.retry.None? && l.status != Disposed
    ensures Core(Install(l)) && Inv(Install(l).(attempt := None))
  {
    ClearKeeps(l.timers);
    ArmKeeps(ClearDeadline(l.timers), 0, 0);
    assert Install(l).security.builds[..|l.security.builds|] == l.security.builds;
  }

  lemma BeginAttemptKeeps(l: Link)
    requires Inv(l) && l.attempt.None? && !InSession(l) && l.status != Disposed
    ensures var l' := BeginAttempt(l);
      && Core(l') && l'.attempt == Some(l.tokens) && l'.timers.retry.None? && l'.status == l.status
      && Inv(l'.(outstanding := l'.outstanding + {l.tokens}))
  {
    ClearKeeps(l.timers);
  }

  lemma FiredTimerKeeps(l: Link, id: nat)
    requires Core(l) && id in l.timers.armed
    ensures Core(l.(timers := Fired(l.timers, id)))
  {
    FiredKeeps(l.timers, id);
    SameRetryTruthful(l.timers, Fired(l.timers, id), l.pace);
  }

  function GenericError(l: Link): Link {
    l.(errored := true, timers := ArmErrorDelay(ClearDeadline(l.timers)))
  }

  lemma GenericErrorKeeps(l: Link)
    requires Inv(l)
    ensures Inv(GenericError(l))
  {
    ClearKeeps(l.timers);
    SameRetryTruthful(l.timers, ClearDeadline(l.timers), l.pace);
    ArmKeeps(ClearDeadline(l.timers), 0, 0);
    SameRetryTruthful(ClearDeadline(l.timers), GenericError(l).timers, l.pace);
  }

  /** A transport that has not failed keeps its deadline when it opens. */
  lemma OpenedKeeps(l: Link)
    requires Inv(l) && !l.errored
    ensures Inv(l.(timers := ClearErrorDelay(l.timers)))
  {
    ClearKeeps(l.timers);
    SameRetryTruthful(l.timers, ClearErrorDelay(l.timers), l.pace);
  }

  lemma CloseKeeps(l: Link)
    requires Inv(l)
    ensures Inv(Close(l)) && Close(l).status == Disposed
  {
    ClearKeeps(l.timers);
    ClearKeeps(ClearRetry(l.timers));
    ClearKeeps(ClearDeadline(ClearRetry(l.timers)));
  }

  lemma ReportModeKeeps(l: Link, mode: Mode)
    requires Inv(l)
    ensures Inv(l.(security := ReportMode(l.security, mode)))
    ensures Rank(l.security.floor) <= Rank(ReportMode(l.security, mode).floor)
  {
  }
}
