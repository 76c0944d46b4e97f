/**
 * What each event does to the connection, told by what happens to the session rather than by how
 * the client goes about it: which events lose it, build it, establish it, and what that changes.
 */
module SessionEffects {
  import opened Prelude
  import opened Session
  import opened SessionSafety
  import opened SessionRuns
  import opened SessionLiveness
  import opened SessionFaults
  import B = Backoff
  import Timers
  import L = Link
  import R = Requests
  import V = Liveness

  // ---------------------------------------------------------------------------
  // What happens to the session
  // ---------------------------------------------------------------------------

  /** The session is given up together with its transport. */
  predicate Drops(s: State, e: Event) {
    match e
    case DeadlineFires(_, _) => s.link.status == L.Connecting
    case MessageArrives(message, _) => message.BadHostFrame?
    case SessionDropped(_) => true
    case _ => HeartbeatFails(s, e) && s.live.failures == 1
  }

  /** The session is lost, and the transport is left to its fate. */
  predicate Breaks(s: State, e: Event) {
    match e
    case ErrorDelayFires(_, _) => L.InSession(s.link)
    case TransportOpens(helloSent, _) => s.link.status == L.Connecting && !helloSent
    case TransportCloses(_, _) => true
    case TransportFails(generic, _) => !generic
    case _ => false
  }

  predicate Loses(s: State, e: Event) {
    Drops(s, e) || Breaks(s, e)
  }

  predicate Establishes(s: State, e: Event) {
    e.MessageArrives? && e.message.ServerInfo? && s.link.status == L.Connecting
  }

  predicate Closes(s: State, e: Event) {
    e.CloseBegins? && s.link.status != L.Disposed
  }

  /** A new attempt is claimed: on request, unless a promise is in the way of `connect`, or by the armed retry. */
  predicate Begins(s: State, e: Event) {
    && (s.link.status == L.Idle || s.link.status == L.Disconnected) && s.link.attempt.None?
    && (e.EnsureConnected? || e.RetryFires? || (e.Connect? && !s.link.promise))
  }

  /** How the current attempt, or the one that begins now, ends in this step, if it does. */
  function Verdict(s: State, e: Event): Option<Build> {
    match e
    case CredentialsSettle(token, build, _) => if s.link.attempt == Some(token) then Some(build) else None
    case Connect(auth, _) => if Begins(s, e) && auth.Now? then Some(auth.build) else None
    case EnsureConnected(auth, _) => if Begins(s, e) && auth.Now? then Some(auth.build) else None
    case RetryFires(_, auth, _) => if Begins(s, e) && auth.Now? then Some(auth.build) else None
    case _ => None
  }

  predicate Fails(verdict: Option<Build>) {
    verdict.Some? && verdict.value != Built
  }

  /** The connection is lost, or the attempt at one has failed. */
  predicate GivesUp(s: State, e: Event) {
    Loses(s, e) || Fails(Verdict(s, e))
  }

  /** A caller comes to wait for the connection: there is none, and nobody's promise is on record. */
  predicate Waits(s: State, e: Event) {
    && ((e.Connect? && s.link.status != L.Connected) || (e.EnsureConnected? && !L.InSession(s.link)))
    && s.link.status != L.Disposed && !s.link.promise
  }

  // ---------------------------------------------------------------------------
  // What it changes
  // ---------------------------------------------------------------------------

  function StatusAfter(s: State, e: Event): L.Status {
    if s.link.status == L.Disposed || e.CloseBegins? then L.Disposed
    else if Verdict(s, e) == Some(Built) then L.Connecting
    else if GivesUp(s, e) then L.Disconnected
    else if Establishes(s, e) then L.Connected
    else s.link.status
  }

  /** The daemon has refused the credentials: it says so, or closes with that reason. */
  function RefusedAfter(s: State, e: Event): bool {
    if Verdict(s, e) == Some(Built) then false
    else if e.MessageArrives? && e.message.HelloRejected? then e.message.password
    else s.link.authFailed || (e.TransportCloses? && e.reason == AuthRejected)
  }

  /** The close says that another attempt cannot help. */
  predicate ForbidsRetry(s: State, e: Event) {
    && e.TransportCloses?
    && (e.reason == EndpointSecurity || e.reason == Superseded || (e.reason == Revoked && !s.link.authFailed))
  }

  function EnabledAfter(s: State, e: Event): bool {
    if e.SetReconnect? then e.enabled
    else
      && s.link.enabled && !ForbidsRetry(s, e) && Verdict(s, e) != Some(RelayRefused)
      && !(GivesUp(s, e) && RefusedAfter(s, e))
  }

  function RetryAfter(s: State, e: Event): bool {
    if GivesUp(s, e) then s.link.status != L.Disposed && EnabledAfter(s, e)
    else s.link.timers.retry.Some? && !Begins(s, e) && !e.CloseBegins? && e != SetReconnect(false)
  }

  function AttemptAfter(s: State, e: Event): Option<nat> {
    if Verdict(s, e).Some? || Loses(s, e) || e.CloseBegins? then None
    else if Begins(s, e) then Some(s.link.tokens)
    else s.link.attempt
  }

  function TriesAfter(s: State, e: Event): nat {
    if Establishes(s, e) then 0
    else s.link.pace.tries + if GivesUp(s, e) && RetryAfter(s, e) then 1 else 0
  }

  /** The connection state carries a retry time from the loss that armed the retry until the next state. */
  function PublishedAfter(s: State, e: Event): bool {
    if Verdict(s, e) == Some(Built) || Establishes(s, e) || Closes(s, e) then false
    else if GivesUp(s, e) && s.link.status != L.Disposed then RetryAfter(s, e)
    else s.link.pace.published.Some?
  }

  function PendingAfter(s: State, e: Event): bool {
    if Fails(Verdict(s, e)) || Establishes(s, e) || Closes(s, e) then false
    else if Loses(s, e) then s.link.pending && RetryAfter(s, e)
    else s.link.pending || Waits(s, e)
  }

  function PromiseAfter(s: State, e: Event): bool {
    if Waits(s, e) then true
    else if Fails(Verdict(s, e)) || Establishes(s, e) || Closes(s, e) then false
    else if Loses(s, e) then s.link.promise && RetryAfter(s, e)
    else s.link.promise
  }

  /** The transport that is held afterwards; a new one has a token that was not given out before. */
  ghost predicate TransportMoves(s: State, e: Event, l: L.Link) {
    if Verdict(s, e) == Some(Built) then
      l.transport.Some? && s.link.tokens <= l.transport.value < l.tokens
    else if Drops(s, e) || Closes(s, e) || (Fails(Verdict(s, e)) && Verdict(s, e).value != CredentialError) then
      l.transport.None?
    else l.transport == s.link.transport
  }

  function ErroredAfter(s: State, e: Event): bool {
    if Verdict(s, e) == Some(Built) then false else s.link.errored || e.TransportFails?
  }

  function FloorAfter(s: State, e: Event): Option<L.Mode> {
    if e == ModeReported(L.Protected) then Some(L.Protected) else s.link.security.floor
  }

  function OutstandingAfter(s: State, e: Event): set<nat> {
    if e.CredentialsSettle? then s.link.outstanding - {e.token}
    else if Begins(s, e) && Verdict(s, e).None? then s.link.outstanding + {s.link.tokens}
    else s.link.outstanding
  }

  predicate DeadlineArmed(l: L.Link) {
    Timers.Arms(l.timers, l.timers.deadline)
  }

  function DeadlineAfter(s: State, e: Event): bool {
    if Verdict(s, e) == Some(Built) then true
    else
      && DeadlineArmed(s.link) && !Drops(s, e) && !Fails(Verdict(s, e)) && !Establishes(s, e) && !Closes(s, e)
      && !e.DeadlineFires? && !e.TransportCloses? && !e.TransportFails?
  }

  /** The delayed generic error is armed by one, and goes with its transport or when that opens or closes. */
  function ErrorDelayAfter(s: State, e: Event): bool {
    if e.TransportFails? then e.generic
    else
      && s.link.timers.errorDelay.Some? && !Drops(s, e) && !Closes(s, e)
      && !(Verdict(s, e).Some? && Verdict(s, e).value != CredentialError)
      && !e.ErrorDelayFires? && !e.TransportOpens? && !e.TransportCloses?
  }

  /** What holds whether or not a loss has broken off. */
  ghost predicate MarksMoved(s: State, e: Event, l: L.Link) {
    && l.authFailed == RefusedAfter(s, e) && l.enabled == EnabledAfter(s, e)
    && l.errored == ErroredAfter(s, e) && l.security.floor == FloorAfter(s, e)
    && TransportMoves(s, e, l) && l.outstanding == OutstandingAfter(s, e)
  }

  ghost predicate TimersMoved(s: State, e: Event, l: L.Link) {
    DeadlineArmed(l) == DeadlineAfter(s, e) && l.timers.errorDelay.Some? == ErrorDelayAfter(s, e)
  }

  /** What holds when no loss has broken off in the step. */
  ghost predicate CourseMoved(s: State, e: Event, l: L.Link) {
    && l.status == StatusAfter(s, e) && l.attempt == AttemptAfter(s, e)
    && l.timers.retry.Some? == RetryAfter(s, e) && l.pace.tries == TriesAfter(s, e)
    && l.promise == PromiseAfter(s, e) && l.pending == PendingAfter(s, e)
    && l.pace.published.Some? == PublishedAfter(s, e)
  }

  ghost predicate Moved(s: State, e: Event, l: L.Link) {
    MarksMoved(s, e, l) && TimersMoved(s, e, l) && (l.pace.faults == s.link.pace.faults ==> CourseMoved(s, e, l))
  }

  // ---------------------------------------------------------------------------
  // Losses
  // ---------------------------------------------------------------------------

  /** What a loss makes of a link, from its own fields. */
  ghost predicate LostFrom(l: L.Link, l': L.Link) {
    && l'.transport == l.transport && l'.errored == l.errored && l'.authFailed == l.authFailed
    && l'.security == l.security && l'.outstanding == l.outstanding && l'.tokens == l.tokens
    && l'.enabled == (l.enabled && !l.authFailed) && l'.attempt.None?
    && DeadlineArmed(l') == DeadlineArmed(l) && l'.timers.errorDelay == l.timers.errorDelay
    && (l'.pace.faults == l.pace.faults ==> SettledFrom(l, l', l.status != L.Disposed && l'.enabled))
  }

  predicate SettledFrom(l: L.Link, l': L.Link, retry: bool) {
    && l'.status == (if l.status == L.Disposed then L.Disposed else L.Disconnected)
    && l'.timers.retry.Some? == retry && l'.pace.tries == l.pace.tries + (if retry then 1 else 0)
    && l'.promise == (l.promise && retry) && l'.pending == (l.pending && retry)
    && l'.pace.published.Some? == (if l.status == L.Disposed then l.pace.published.Some? else retry)
  }

  /** Between steps and within them: timers have one handle each, and only a closed client wants no retry. */
  ghost predicate Kept(l: L.Link) {
    Timers.Owned(l.timers) && (l.shouldReconnect <==> l.status != L.Disposed)
  }

  lemma JudgedFrom(l: L.Link)
    requires Kept(l)
    ensures var l' := L.Judged(l);
      && l' == l.(attempt := None, enabled := l.enabled && !l.authFailed, timers := l'.timers)
      && Kept(l') && l'.timers.retry.None?
      && DeadlineArmed(l') == DeadlineArmed(l) && l'.timers.errorDelay == l.timers.errorDelay
  {
  }

  lemma EmittedFrom(l: L.Link, draw: L.Draw)
    ensures var l' := L.EmitDisconnected(l, draw);
      && l' == l.(status := l'.status, pace := l'.pace) && l'.pace.tries == l.pace.tries
      && (if L.Faults(l, draw) then l'.pace.faults == l.pace.faults + 1 && l'.status == l.status
          else
            && l'.pace.faults == l.pace.faults && l'.status == L.Disconnected
            && l'.pace.published.Some? == (l.shouldReconnect && l.enabled))
  {
    hide L.NextDelay;
    NextDelayFrom(l.pace, draw.first);
  }

  lemma NextDelayFrom(p: L.Pace, random: B.Unit)
    ensures var p' := L.NextDelay(p, random).0;
      p'.tries == p.tries && p'.faults == p.faults && p'.published == p.published
  {
    hide B.Delay;
  }

  lemma ArmedFrom(l: L.Link, random: B.Unit)
    requires Kept(l) && l.timers.retry.None?
    ensures var l' := L.ArmReconnect(l, random);
      && l' == l.(pace := l'.pace, timers := l'.timers)
      && l'.pace.tries == l.pace.tries + 1 && l'.pace.faults == l.pace.faults && l'.timers.retry.Some?
      && l'.pace.published == l.pace.published
      && DeadlineArmed(l') == DeadlineArmed(l) && l'.timers.errorDelay == l.timers.errorDelay
  {
    hide L.NextDelay;
    NextDelayFrom(l.pace, random);
  }

  lemma LossMoves(l: L.Link, draw: L.Draw)
    requires Kept(l)
    ensures LostFrom(l, L.Lose(l, draw))
  {
    hide L.Judged, L.EmitDisconnected, L.ArmReconnect, L.Faults, DeadlineArmed, Timers.Owned;
    JudgedFrom(l);
    var judged := L.Judged(l);
    EmittedFrom(judged, draw);
    if judged.status != L.Disposed && judged.enabled && !L.Faults(judged, draw) {
      StillKept(judged, draw);
      ArmedFrom(L.EmitDisconnected(judged, draw), draw.second);
    }
    SameDeadline(judged, draw);
  }

  lemma StillKept(l: L.Link, draw: L.Draw)
    requires Kept(l) && l.status != L.Disposed
    ensures Kept(L.EmitDisconnected(l, draw))
  {
    hide Timers.Owned;
    EmittedFrom(l, draw);
  }

  lemma SameDeadline(l: L.Link, draw: L.Draw)
    ensures DeadlineArmed(L.EmitDisconnected(l, draw)) == DeadlineArmed(l)
    ensures DeadlineArmed(L.SettleConnect(l)) == DeadlineArmed(l)
    ensures DeadlineArmed(L.SettleConnect(L.EmitDisconnected(l, draw))) == DeadlineArmed(l)
  {
    EmittedFrom(l, draw);
  }

  lemma DisposedFrom(l: L.Link)
    requires Kept(l)
    ensures var l' := L.Dispose(l);
      && l' == l.(transport := None, timers := l'.timers) && Kept(l')
      && !DeadlineArmed(l') && l'.timers.errorDelay.None? && l'.timers.retry == l.timers.retry
    ensures var l' := L.Unwatch(l);
      && l' == l.(timers := l'.timers) && Kept(l')
      && !DeadlineArmed(l') && l'.timers.errorDelay.None? && l'.timers.retry == l.timers.retry
  {
  }

  lemma DisabledFrom(l: L.Link)
    requires Kept(l)
    ensures var l' := L.SetReconnectEnabled(l, false);
      && l' == l.(enabled := false, timers := l'.timers) && Kept(l') && l'.timers.retry.None?
      && DeadlineArmed(l') == DeadlineArmed(l) && l'.timers.errorDelay == l.timers.errorDelay
  {
  }

  lemma FiredFrom(l: L.Link, id: nat)
    requires Kept(l) && id in l.timers.armed
    ensures var l' := l.(timers := Timers.Fired(l.timers, id));
      && Kept(l')
      && DeadlineArmed(l') == (DeadlineArmed(l) && !l.timers.armed[id].Deadline?)
      && l'.timers.errorDelay == (if l.timers.armed[id].ErrorDelay? then None else l.timers.errorDelay)
      && l'.timers.retry == (if l.timers.armed[id].Retry? then None else l.timers.retry)
  {
  }

  lemma HeldFrom(s: State)
    requires Inv(s)
    ensures Kept(s.link) && (s.link.timers.retry.Some? ==> s.link.attempt.None? && s.link.status == L.Disconnected)
    ensures s.link.status == L.Disposed ==>
      s.link.attempt.None? && s.link.timers.retry.None? && s.link.transport.None? && !s.link.pending
    ensures s.link.attempt.Some? ==> s.link.status == L.Idle || s.link.status == L.Disconnected
    ensures s.link.attempt.Some? ==> s.link.timers.retry.None?
  {
    hide R.Inv, V.Inv;
  }

  // ---------------------------------------------------------------------------
  // One event
  // ---------------------------------------------------------------------------

  /** What an event that loses the session changes, whatever its kind. */
  lemma LossTells(s: State, e: Event)
    requires Loses(s, e)
    ensures var retry := s.link.status != L.Disposed && EnabledAfter(s, e);
      && StatusAfter(s, e) == (if s.link.status == L.Disposed then L.Disposed else L.Disconnected)
      && AttemptAfter(s, e).None? && RetryAfter(s, e) == retry
      && TriesAfter(s, e) == s.link.pace.tries + (if retry then 1 else 0)
      && PromiseAfter(s, e) == (s.link.promise && retry) && PendingAfter(s, e) == (s.link.pending && retry)
      && PublishedAfter(s, e) == (if s.link.status == L.Disposed then s.link.pace.published.Some? else retry)
    ensures RefusedAfter(s, e) == (s.link.authFailed || (e.TransportCloses? && e.reason == AuthRejected))
    ensures EnabledAfter(s, e) == (s.link.enabled && !ForbidsRetry(s, e) && !RefusedAfter(s, e))
    ensures FloorAfter(s, e) == s.link.security.floor && Verdict(s, e).None? && !Closes(s, e)
    ensures OutstandingAfter(s, e) == s.link.outstanding
  {
    hide Loses, ForbidsRetry;
    LossIsNothingElse(s, e);
  }

  lemma LossIsNothingElse(s: State, e: Event)
    requires Loses(s, e)
    ensures Verdict(s, e).None? && !Establishes(s, e) && !Closes(s, e) && !Waits(s, e)
    ensures !e.SetReconnect? && !e.ModeReported? && !e.CloseBegins?
    ensures !(e.MessageArrives? && e.message.HelloRejected?)
    ensures !Begins(s, e) && !e.CredentialsSettle?
  {
  }

  /** The timers and the transport after a loss. */
  lemma LossTimers(s: State, e: Event)
    requires Loses(s, e)
    ensures ErroredAfter(s, e) == (s.link.errored || e.TransportFails?)
    ensures Drops(s, e) || e.TransportCloses? || e.TransportFails? ==> !DeadlineAfter(s, e) && !ErrorDelayAfter(s, e)
    ensures e.ErrorDelayFires? || e.TransportOpens? ==>
      DeadlineAfter(s, e) == DeadlineArmed(s.link) && !ErrorDelayAfter(s, e)
    ensures Drops(s, e) ==> !ForbidsRetry(s, e) && !e.TransportCloses? && !e.TransportFails?
  {
  }

  /** An event that drops the session with its transport. */
  lemma DropMoves(s: State, e: Event, l: L.Link, draw: L.Draw)
    requires Kept(l) && l == s.link.(timers := l.timers) && Drops(s, e)
    ensures Moved(s, e, L.Lose(L.Dispose(l), draw))
  {
    hide L.Lose, L.Dispose, Kept, Drops, StatusAfter, RefusedAfter, EnabledAfter, RetryAfter, AttemptAfter, TriesAfter,
         PendingAfter, PromiseAfter, PublishedAfter, ErroredAfter, OutstandingAfter, FloorAfter, DeadlineArmed,
         DeadlineAfter, ErrorDelayAfter, Verdict,
         Closes, ForbidsRetry;
    LossTells(s, e);
    LossTimers(s, e);
    DisposedFrom(l);
    LossMoves(L.Dispose(l), draw);
  }

  /** An event that breaks the session: it has marked the link, or unwatched the transport, before the loss. */
  lemma BreakMoves(s: State, e: Event, l: L.Link, draw: L.Draw)
    requires Kept(l) && Breaks(s, e) && l.status == s.link.status && l.pace == s.link.pace
    requires l.promise == s.link.promise && l.pending == s.link.pending
    requires l.transport == s.link.transport && l.security == s.link.security && l.outstanding == s.link.outstanding
    requires l.errored == (s.link.errored || e.TransportFails?)
    requires l.authFailed == RefusedAfter(s, e) && l.enabled == (s.link.enabled && !ForbidsRetry(s, e))
    requires DeadlineArmed(l) == DeadlineAfter(s, e) && l.timers.errorDelay.None?
    ensures Moved(s, e, L.Lose(l, draw))
  {
    hide L.Lose, Kept, StatusAfter, RefusedAfter, EnabledAfter, RetryAfter, AttemptAfter, TriesAfter, Drops,
         PendingAfter, PromiseAfter, PublishedAfter, ErroredAfter, OutstandingAfter, FloorAfter, DeadlineArmed,
         DeadlineAfter, ErrorDelayAfter, Verdict,
         Closes, ForbidsRetry;
    LossTells(s, e);
    LossTimers(s, e);
    BreaksAlone(s, e);
    LossMoves(l, draw);
  }

  lemma BreaksAlone(s: State, e: Event)
    requires Breaks(s, e)
    ensures !Drops(s, e) && Loses(s, e)
    ensures e.ErrorDelayFires? || e.TransportOpens? || e.TransportCloses? || e.TransportFails?
  {
  }

  lemma ErrorDelayMoves(s: State, id: nat, draw: L.Draw)
    requires Inv(s) && Enabled(s, ErrorDelayFires(id, draw)) && L.InSession(s.link)
    ensures Moved(s, ErrorDelayFires(id, draw), Step(s, ErrorDelayFires(id, draw)).link)
  {
    hide Inv, Moved, L.Lose, R.Lose, V.SettleProbe, Kept;
    HeldFrom(s);
    FiredFrom(s.link, id);
    BreakMoves(s, ErrorDelayFires(id, draw), TimerFired(s, id).link, draw);
  }

  lemma OpenMoves(s: State, draw: L.Draw)
    requires Inv(s) && Enabled(s, TransportOpens(false, draw)) && s.link.status == L.Connecting
    ensures Moved(s, TransportOpens(false, draw), Step(s, TransportOpens(false, draw)).link)
  {
    hide Inv, Moved, L.Lose, R.Lose, V.SettleProbe;
    HeldFrom(s);
    BreakMoves(s, TransportOpens(false, draw), s.link.(timers := Timers.ClearErrorDelay(s.link.timers)), draw);
  }

  /** What a close of the transport says, by its reason. */
  lemma ClosingTells(s: State, reason: CloseReason, draw: L.Draw)
    ensures var e, refused := TransportCloses(reason, draw), s.link.authFailed || reason == AuthRejected;
      && Breaks(s, e) && RefusedAfter(s, e) == refused && !DeadlineAfter(s, e)
      && (ForbidsRetry(s, e) <==>
            reason == EndpointSecurity || reason == Superseded || (reason == Revoked && !refused))
  {
  }

  lemma CloseMoves(s: State, reason: CloseReason, draw: L.Draw)
    requires Inv(s)
    ensures Moved(s, TransportCloses(reason, draw), CloseTransport(s, reason, draw).link)
  {
    hide Inv, Moved, ScheduleReconnect, L.Unwatch, L.SetReconnectEnabled, Kept, DeadlineArmed, Breaks, RefusedAfter,
         DeadlineAfter, ForbidsRetry;
    HeldFrom(s);
    ClosingTells(s, reason, draw);
    var judged := s.link.(authFailed := s.link.authFailed || reason == AuthRejected);
    MarkedKept(s.link, judged);
    DisposedFrom(judged);
    DisabledFrom(L.Unwatch(judged));
    var stop := reason == EndpointSecurity || reason == Superseded || (reason == Revoked && !judged.authFailed);
    var l := if stop then L.SetReconnectEnabled(L.Unwatch(judged), false) else L.Unwatch(judged);
    BreakMoves(s, TransportCloses(reason, draw), l, draw);
    LostLink(s.(link := l), draw);
  }

  lemma LostLink(s: State, draw: L.Draw)
    ensures ScheduleReconnect(s, draw).link == L.Lose(s.link, draw)
  {
    hide L.Lose, R.Lose, V.SettleProbe;
  }

  lemma MarkedKept(l: L.Link, l': L.Link)
    requires Kept(l) && l' == l.(authFailed := l'.authFailed, errored := l'.errored)
    ensures Kept(l')
  {
  }

  lemma FailMoves(s: State, draw: L.Draw)
    requires Inv(s) && s.link.transport.Some?
    ensures Moved(s, TransportFails(false, draw), Step(s, TransportFails(false, draw)).link)
  {
    hide Inv, Moved, L.Lose, R.Lose, V.SettleProbe, L.Unwatch, Kept, DeadlineArmed;
    HeldFrom(s);
    MarkedKept(s.link, s.link.(errored := true));
    DisposedFrom(s.link.(errored := true));
    BreakMoves(s, TransportFails(false, draw), L.Unwatch(s.link.(errored := true)), draw);
  }

  // ---------------------------------------------------------------------------
  // Attempts
  // ---------------------------------------------------------------------------

  /** What a failed attempt makes of a link: a loss that also answers its `connect`. */
  ghost predicate FailedFrom(l: L.Link, l': L.Link) {
    && l'.transport == l.transport && l'.errored == l.errored && l'.authFailed == l.authFailed
    && l'.security == l.security && l'.outstanding == l.outstanding
    && l'.enabled == (l.enabled && !l.authFailed) && l'.attempt.None?
    && !DeadlineArmed(l') && l'.timers.errorDelay == l.timers.errorDelay
    && (l'.pace.faults == l.pace.faults ==>
          && l'.status == L.Disconnected && l'.timers.retry.Some? == l'.enabled
          && l'.pace.published.Some? == l'.enabled
          && l'.pace.tries == l.pace.tries + (if l'.enabled then 1 else 0) && !l'.promise && !l'.pending)
  }

  ghost predicate BuiltFrom(l: L.Link, l': L.Link) {
    && l'.status == L.Connecting && l'.transport == Some(l.tokens) && l'.tokens == l.tokens + 1
    && !l'.errored && !l'.authFailed && l'.enabled == l.enabled && l'.attempt.None?
    && l'.security.floor == l.security.floor && l'.outstanding == l.outstanding && l'.pace.faults == l.pace.faults
    && l'.pace.tries == l.pace.tries && l'.promise == l.promise && l'.pending == l.pending
    && DeadlineArmed(l') && l'.timers.errorDelay.None? && l'.timers.retry == l.timers.retry
    && l'.pace.published.None?
  }

  lemma DeadlineCleared(l: L.Link)
    requires Kept(l)
    ensures var l' := l.(timers := Timers.ClearDeadline(l.timers));
      && Kept(l') && !DeadlineArmed(l') && l'.timers.errorDelay == l.timers.errorDelay
  {
  }

  lemma FailFrom(s: State, draw: L.Draw)
    requires Kept(s.link) && s.link.status != L.Disposed
    ensures FailedFrom(s.link, FailAttempt(s, draw).link)
  {
    hide Kept, L.Lose, R.Lose, V.SettleProbe, DeadlineArmed, Timers.ClearDeadline;
    DeadlineCleared(s.link);
    var cleared := s.link.(timers := Timers.ClearDeadline(s.link.timers));
    LossMoves(cleared, draw);
    AnsweredDeadline(L.Lose(cleared, draw));
  }

  lemma AnsweredDeadline(l: L.Link)
    ensures DeadlineArmed(L.SettleConnect(l)) == DeadlineArmed(l)
  {
  }

  lemma InstallFrom(l: L.Link, token: nat)
    requires Kept(l) && l.attempt == Some(token) && l.timers.errorDelay.None?
    ensures BuiltFrom(l, L.EndAttempt(L.Install(l), token))
  {
  }

  /** The current attempt goes on with its credentials; `l` is the link with its transport disposed. */
  lemma ProceedFrom(s: State, token: nat, build: Build, draw: L.Draw)
    requires Kept(s.link) && s.link.attempt == Some(token) && s.link.status != L.Disposed
    ensures var l, l' := L.Dispose(s.link), Proceed(s, token, build, draw).link;
      match build
      case CredentialError => FailedFrom(s.link, l')
      case RelayRefused => FailedFrom(L.SetReconnectEnabled(l, false), l')
      case FactoryError => FailedFrom(l, l')
      case Built => BuiltFrom(l, l')
  {
    hide Kept, FailAttempt, FailedFrom, BuiltFrom, L.Dispose, L.Install, L.EndAttempt, L.SetReconnectEnabled,
         V.StopBeat;
    DisposedFrom(s.link);
    DisabledFrom(L.Dispose(s.link));
    match build
    case CredentialError => FailFrom(s, draw);
    case RelayRefused =>
      var disposed := DisposeTransport(s);
      FailFrom(disposed.(link := L.SetReconnectEnabled(disposed.link, false)), draw);
    case FactoryError => FailFrom(DisposeTransport(s), draw);
    case Built => InstallFrom(L.Dispose(s.link), token);
  }

  /** What the end of an attempt changes. */
  lemma VerdictTells(s: State, e: Event)
    requires Inv(s) && Verdict(s, e).Some?
    ensures var build := Verdict(s, e).value;
      && StatusAfter(s, e) == (if build == Built then L.Connecting else L.Disconnected)
      && AttemptAfter(s, e).None? && RefusedAfter(s, e) == (s.link.authFailed && build != Built)
      && EnabledAfter(s, e) == (s.link.enabled && build != RelayRefused && (build == Built || !s.link.authFailed))
      && (build != Built ==> RetryAfter(s, e) == EnabledAfter(s, e))
      && (build == Built ==> !RetryAfter(s, e))
      && TriesAfter(s, e) == s.link.pace.tries + (if build != Built && EnabledAfter(s, e) then 1 else 0)
      && PendingAfter(s, e) == (build == Built && (s.link.pending || Waits(s, e)))
      && PromiseAfter(s, e) == (Waits(s, e) || (build == Built && s.link.promise))
      && PublishedAfter(s, e) == (build != Built && EnabledAfter(s, e))
      && FloorAfter(s, e) == s.link.security.floor
  {
    hide Kept;
    HeldFrom(s);
    AttemptIsNothingElse(s, e);
    ClaimedOpen(s, e);
  }

  lemma ClaimedOpen(s: State, e: Event)
    requires Inv(s) && Verdict(s, e).Some?
    ensures s.link.status == L.Idle || s.link.status == L.Disconnected
  {
    hide Kept;
    HeldFrom(s);
  }

  lemma AttemptIsNothingElse(s: State, e: Event)
    requires Verdict(s, e).Some? || Begins(s, e)
    ensures !Loses(s, e) && !Establishes(s, e) && !Closes(s, e) && !ForbidsRetry(s, e)
    ensures e.CredentialsSettle? || e.Connect? || e.EnsureConnected? || e.RetryFires?
  {
  }

  lemma VerdictTimers(s: State, e: Event)
    requires Verdict(s, e).Some?
    ensures var build := Verdict(s, e).value;
      && DeadlineAfter(s, e) == (build == Built)
      && ErrorDelayAfter(s, e) == (build == CredentialError && s.link.timers.errorDelay.Some?)
      && ErroredAfter(s, e) == (build != Built && s.link.errored)
      && !Drops(s, e) && !Closes(s, e)
  {
    AttemptIsNothingElse(s, e);
  }

  /** The link as an attempt finds it: what came before in the step touched only these fields. */
  ghost predicate Claimed(s: State, e: Event, l: L.Link) {
    && Kept(l) && l.timers.retry.None? && l.timers.errorDelay == s.link.timers.errorDelay
    && s.link.tokens <= l.tokens && l.pending == (s.link.pending || Waits(s, e))
    && l.outstanding == OutstandingAfter(s, e)
    && l == s.link.(attempt := l.attempt, tokens := l.tokens, shouldReconnect := l.shouldReconnect,
                    pending := l.pending, timers := l.timers, outstanding := l.outstanding)
  }

  /** The last thing a `connect` does is to put its promise on record. */
  function Recorded(s: State, e: Event, l: L.Link): L.Link {
    if Waits(s, e) then l.(promise := true) else l
  }

  lemma RecordedDeadline(s: State, e: Event, l: L.Link)
    ensures DeadlineArmed(Recorded(s, e, l)) == DeadlineArmed(l)
  {
  }

  lemma FailedCourse(s: State, e: Event, build: Build, l: L.Link, l': L.Link)
    requires Inv(s) && Verdict(s, e) == Some(build) && build != Built && FailedFrom(l, l')
    requires l.pace == s.link.pace && l'.enabled == EnabledAfter(s, e)
    ensures l'.pace.faults == s.link.pace.faults ==> CourseMoved(s, e, Recorded(s, e, l'))
  {
    hide Inv, Waits, StatusAfter, EnabledAfter, RetryAfter, AttemptAfter, TriesAfter, Verdict, PendingAfter,
         PromiseAfter, PublishedAfter, DeadlineArmed;
    VerdictTells(s, e);
  }

  lemma FailedTimers(s: State, e: Event, build: Build, l: L.Link, l': L.Link)
    requires Verdict(s, e) == Some(build) && build != Built && FailedFrom(l, l')
    requires l.timers.errorDelay == if build == CredentialError then s.link.timers.errorDelay else None
    ensures TimersMoved(s, e, Recorded(s, e, l'))
  {
    hide Waits, DeadlineArmed, DeadlineAfter, ErrorDelayAfter, Verdict;
    VerdictTimers(s, e);
    RecordedDeadline(s, e, l');
  }

  lemma FailedMoves(s: State, e: Event, build: Build, l: L.Link, l': L.Link)
    requires Inv(s) && Verdict(s, e) == Some(build) && build != Built && FailedFrom(l, l')
    requires l.pace == s.link.pace && l.errored == s.link.errored && l.authFailed == s.link.authFailed
    requires l.enabled == (s.link.enabled && build != RelayRefused) && l.security == s.link.security
    requires l.outstanding == OutstandingAfter(s, e)
    requires l.transport == if build == CredentialError then s.link.transport else None
    requires l.timers.errorDelay == if build == CredentialError then s.link.timers.errorDelay else None
    ensures Moved(s, e, Recorded(s, e, l'))
  {
    hide Inv, Waits, Drops, RefusedAfter, EnabledAfter, Verdict, ErroredAfter, FloorAfter, Closes, CourseMoved,
         TimersMoved;
    VerdictTells(s, e);
    VerdictTimers(s, e);
    FailedTimers(s, e, build, l, l');
    FailedCourse(s, e, build, l, l');
  }

  lemma BuiltMoves(s: State, e: Event, l: L.Link, l': L.Link)
    requires Inv(s) && Verdict(s, e) == Some(Built) && BuiltFrom(l, l')
    requires l.pace == s.link.pace && l.enabled == s.link.enabled && l.security == s.link.security
    requires l.promise == s.link.promise && l.pending == (s.link.pending || Waits(s, e)) && l.timers.retry.None?
    requires s.link.tokens <= l.tokens && l.outstanding == OutstandingAfter(s, e)
    ensures Moved(s, e, Recorded(s, e, l'))
  {
    hide Inv, Waits, Drops, StatusAfter, RefusedAfter, EnabledAfter, RetryAfter, AttemptAfter, TriesAfter, Verdict,
         PendingAfter, PromiseAfter, PublishedAfter, ErroredAfter, OutstandingAfter, FloorAfter, DeadlineArmed,
         DeadlineAfter, ErrorDelayAfter, Closes;
    VerdictTells(s, e);
    VerdictTimers(s, e);
    RecordedDeadline(s, e, l');
  }

  lemma ProceedMoves(s: State, e: Event, s1: State, token: nat, draw: L.Draw)
    requires Inv(s) && Verdict(s, e).Some? && Claimed(s, e, s1.link) && s1.link.attempt == Some(token)
    ensures Moved(s, e, Recorded(s, e, Proceed(s1, token, Verdict(s, e).value, draw).link))
  {
    hide Inv, Moved, Recorded, FailedFrom, BuiltFrom, Proceed, Kept, L.Dispose, L.SetReconnectEnabled, Verdict, Waits;
    ClaimedOpen(s, e);
    var build := Verdict(s, e).value;
    ProceedFrom(s1, token, build, draw);
    DisposedFrom(s1.link);
    DisabledFrom(L.Dispose(s1.link));
    var l' := Proceed(s1, token, build, draw).link;
    match build
    case CredentialError => FailedMoves(s, e, build, s1.link, l');
    case RelayRefused => FailedMoves(s, e, build, L.SetReconnectEnabled(L.Dispose(s1.link), false), l');
    case FactoryError => FailedMoves(s, e, build, L.Dispose(s1.link), l');
    case Built => BuiltMoves(s, e, L.Dispose(s1.link), l');
  }

  lemma BegunFrom(l: L.Link)
    requires Kept(l)
    ensures var l' := L.BeginAttempt(l);
      && l' == l.(attempt := Some(l.tokens), tokens := l.tokens + 1, timers := l'.timers)
      && Kept(l') && l'.timers.retry.None?
      && DeadlineArmed(l') == DeadlineArmed(l) && l'.timers.errorDelay == l.timers.errorDelay
  {
  }

  /** An attempt has been claimed and its credentials are still to come. */
  lemma LaterMoves(s: State, e: Event, l: L.Link)
    requires Inv(s) && Begins(s, e) && Verdict(s, e).None? && Claimed(s, e, l) && l.attempt == Some(s.link.tokens)
    requires DeadlineArmed(l) == DeadlineArmed(s.link)
    ensures Moved(s, e, Recorded(s, e, l))
  {
    hide Kept, DeadlineArmed, Inv;
    AttemptIsNothingElse(s, e);
    RecordedDeadline(s, e, l);
  }

  /** The event asks for an attempt, or its retry has come due, and one begins. */
  lemma BeginMoves(s: State, e: Event, s1: State, auth: Auth, draw: L.Draw)
    requires Inv(s) && Begins(s, e) && s1.link.shouldReconnect
    requires Verdict(s, e) == (if auth.Now? then Some(auth.build) else None)
    requires Kept(s1.link) && s1.link.timers.errorDelay == s.link.timers.errorDelay
    requires s1.link.pending == (s.link.pending || Waits(s, e)) && DeadlineArmed(s1.link) == DeadlineArmed(s.link)
    requires s1.link == s.link.(pending := s1.link.pending, timers := s1.link.timers, shouldReconnect := true)
    ensures Moved(s, e, Recorded(s, e, AttemptConnect(s1, auth, draw).link))
  {
    hide Inv, Moved, Recorded, Proceed, Kept, L.BeginAttempt, Verdict, Waits, DeadlineArmed;
    BegunFrom(s1.link);
    var begun := s1.(link := L.BeginAttempt(s1.link));
    if auth.Now? {
      ProceedMoves(s, e, begun, s1.link.tokens, draw);
    } else {
      var l := begun.link.(outstanding := begun.link.outstanding + {s1.link.tokens});
      OutstandingKept(begun.link, l);
      LaterMoves(s, e, l);
    }
  }

  lemma OutstandingKept(l: L.Link, l': L.Link)
    requires l' == l.(outstanding := l'.outstanding)
    ensures Kept(l) ==> Kept(l')
    ensures DeadlineArmed(l') == DeadlineArmed(l)
  {
  }

  // ---------------------------------------------------------------------------
  // Everything else
  // ---------------------------------------------------------------------------

  /** The event neither loses, builds nor establishes a session. */
  predicate Passes(s: State, e: Event) {
    !Loses(s, e) && Verdict(s, e).None? && !Begins(s, e) && !Establishes(s, e) && !Closes(s, e)
  }

  lemma PassTells(s: State, e: Event)
    requires Inv(s) && Passes(s, e)
    ensures StatusAfter(s, e) == s.link.status && AttemptAfter(s, e) == s.link.attempt
    ensures RetryAfter(s, e) == (s.link.timers.retry.Some? && e != SetReconnect(false))
    ensures TriesAfter(s, e) == s.link.pace.tries
    ensures PendingAfter(s, e) == (s.link.pending || Waits(s, e))
    ensures PromiseAfter(s, e) == (s.link.promise || Waits(s, e))
    ensures PublishedAfter(s, e) == s.link.pace.published.Some?
  {
    hide Kept, Loses, Drops, Verdict, Begins, Establishes, Waits;
    HeldFrom(s);
  }

  lemma PassMarks(s: State, e: Event, l: L.Link)
    requires Passes(s, e)
    ensures RefusedAfter(s, e) ==
            if e.MessageArrives? && e.message.HelloRejected? then e.message.password else s.link.authFailed
    ensures EnabledAfter(s, e) == if e.SetReconnect? then e.enabled else s.link.enabled
    ensures ErroredAfter(s, e) == (s.link.errored || e.TransportFails?)
    ensures TransportMoves(s, e, l) == (l.transport == s.link.transport)
  {
    hide Verdict, Begins, Establishes, Closes, Drops;
  }

  lemma PassTimers(s: State, e: Event)
    requires Passes(s, e)
    ensures DeadlineAfter(s, e) == (DeadlineArmed(s.link) && !e.DeadlineFires? && !e.TransportFails?)
    ensures ErrorDelayAfter(s, e) ==
            (e.TransportFails? || (s.link.timers.errorDelay.Some? && !e.ErrorDelayFires? && !e.TransportOpens?))
  {
    hide Verdict, Begins, Establishes, Closes, Drops, DeadlineArmed;
  }

  /** A passing event moves the link as its own kind does. */
  lemma PassMoves(s: State, e: Event, l: L.Link)
    requires Inv(s) && Passes(s, e)
    requires l.status == s.link.status && l.attempt == s.link.attempt && l.pace == s.link.pace
    requires l.transport == s.link.transport && l.errored == (s.link.errored || e.TransportFails?)
    requires l.outstanding == OutstandingAfter(s, e)
    requires l.authFailed ==
             if e.MessageArrives? && e.message.HelloRejected? then e.message.password else s.link.authFailed
    requires l.enabled == if e.SetReconnect? then e.enabled else s.link.enabled
    requires l.security.floor == FloorAfter(s, e)
    requires l.promise == (s.link.promise || Waits(s, e)) && l.pending == (s.link.pending || Waits(s, e))
    requires l.timers.retry.Some? == (s.link.timers.retry.Some? && e != SetReconnect(false))
    requires DeadlineArmed(l) == (DeadlineArmed(s.link) && !e.DeadlineFires? && !e.TransportFails?)
    requires l.timers.errorDelay.Some? ==
             (e.TransportFails? || (s.link.timers.errorDelay.Some? && !e.ErrorDelayFires? && !e.TransportOpens?))
    ensures Moved(s, e, l)
  {
    hide Inv, Passes, Waits, StatusAfter, RefusedAfter, EnabledAfter, RetryAfter, AttemptAfter, TriesAfter,
         PendingAfter, PromiseAfter, PublishedAfter, ErroredAfter, OutstandingAfter, FloorAfter, DeadlineArmed,
         DeadlineAfter, ErrorDelayAfter,
         TransportMoves;
    PassTells(s, e);
    PassMarks(s, e, l);
    PassTimers(s, e);
  }

  predicate Quiet(e: Event) {
    && !e.Connect? && !e.EnsureConnected? && !e.SetReconnect? && !e.ModeReported? && !e.DeadlineFires?
    && !e.ErrorDelayFires? && !e.TransportOpens? && !e.TransportFails? && !e.CredentialsSettle?
    && !(e.MessageArrives? && e.message.HelloRejected?)
  }

  /** Events that do not touch the connection at all. */
  lemma UntouchedMoves(s: State, e: Event)
    requires Inv(s) && Passes(s, e) && Quiet(e)
    ensures Moved(s, e, s.link)
  {
    hide Inv, Moved, DeadlineArmed, Loses, Verdict, Begins, Establishes, Closes;
    PassMoves(s, e, s.link);
  }

  lemma FiredPasses(s: State, e: Event, id: nat)
    requires Inv(s) && Enabled(s, e) && Passes(s, e)
    requires (e.DeadlineFires? && e.id == id) || (e.ErrorDelayFires? && e.id == id)
    ensures Moved(s, e, TimerFired(s, id).link)
  {
    hide Inv, Kept, Passes, Moved, DeadlineArmed, Timers.Fired;
    HeldFrom(s);
    FiredFrom(s.link, id);
    PassMoves(s, e, TimerFired(s, id).link);
  }

  lemma OpenedMoves(s: State, e: Event)
    requires Inv(s) && e.TransportOpens? && Passes(s, e)
    ensures Moved(s, e, s.link.(timers := Timers.ClearErrorDelay(s.link.timers)))
  {
    hide Inv, Kept, Passes, Moved, DeadlineArmed, Timers.ClearErrorDelay;
    HeldFrom(s);
    DelayCleared(s.link);
    PassMoves(s, e, s.link.(timers := Timers.ClearErrorDelay(s.link.timers)));
  }

  lemma DelayCleared(l: L.Link)
    requires Kept(l)
    ensures var l' := l.(timers := Timers.ClearErrorDelay(l.timers));
      DeadlineArmed(l') == DeadlineArmed(l) && l'.timers.errorDelay.None? && l'.timers.retry == l.timers.retry
  {
  }

  lemma GenericMoves(s: State, e: Event)
    requires Inv(s) && e.TransportFails? && e.generic
    ensures Moved(s, e, L.GenericError(s.link))
  {
    hide Inv, Kept, Moved, DeadlineArmed, L.GenericError;
    HeldFrom(s);
    GenericFrom(s.link);
    PassMoves(s, e, L.GenericError(s.link));
  }

  lemma GenericFrom(l: L.Link)
    requires Kept(l)
    ensures var l' := L.GenericError(l);
      && l' == l.(errored := true, timers := l'.timers)
      && !DeadlineArmed(l') && l'.timers.errorDelay.Some? && l'.timers.retry == l.timers.retry
  {
  }

  lemma RejectedMoves(s: State, e: Event)
    requires Inv(s) && e.MessageArrives? && e.message.HelloRejected?
    ensures Moved(s, e, s.link.(authFailed := e.message.password))
  {
    hide Inv, Moved, DeadlineArmed;
    MarkedDeadline(s.link, e.message.password);
    PassMoves(s, e, s.link.(authFailed := e.message.password));
  }

  lemma EstablishMoves(s: State, e: Event)
    requires Inv(s) && Establishes(s, e)
    ensures Moved(s, e, L.SettleConnect(L.Establish(s.link)))
  {
    hide Inv, Kept, DeadlineArmed;
    HeldFrom(s);
    EstablishedFrom(s.link);
  }

  lemma EstablishedFrom(l: L.Link)
    requires Kept(l)
    ensures var l' := L.SettleConnect(L.Establish(l));
      !DeadlineArmed(l') && l'.timers.errorDelay == l.timers.errorDelay && l'.timers.retry == l.timers.retry
  {
  }

  lemma ClosedMoves(s: State, e: Event)
    requires Inv(s) && Closes(s, e)
    ensures Moved(s, e, L.Close(s.link))
  {
    hide Inv, Kept, DeadlineArmed, L.Close;
    HeldFrom(s);
    ClosedFrom(s.link);
  }

  lemma ClosedFrom(l: L.Link)
    requires Kept(l)
    ensures var l' := L.Close(l);
      && l'.status == L.Disposed && l'.attempt.None? && l'.transport.None? && !l'.promise && !l'.pending
      && l'.enabled == l.enabled && l'.authFailed == l.authFailed && l'.errored == l.errored
      && l'.security == l.security && l'.pace.tries == l.pace.tries && l'.pace.faults == l.pace.faults
      && l'.pace.published.None? && l'.outstanding == l.outstanding
      && !DeadlineArmed(l') && l'.timers.errorDelay.None? && l'.timers.retry.None?
  {
  }

  lemma SwitchMoves(s: State, e: Event)
    requires Inv(s) && e.SetReconnect?
    ensures Moved(s, e, L.SetReconnectEnabled(s.link, e.enabled))
  {
    hide Inv, Kept, Moved, DeadlineArmed;
    HeldFrom(s);
    SwitchedFrom(s.link, e.enabled);
    PassMoves(s, e, L.SetReconnectEnabled(s.link, e.enabled));
  }

  lemma ModeMoves(s: State, e: Event)
    requires Inv(s) && e.ModeReported?
    ensures Moved(s, e, s.link.(security := L.ReportMode(s.link.security, e.mode)))
  {
    hide Inv, Moved, DeadlineArmed;
    ReportedDeadline(s.link, e.mode);
    PassMoves(s, e, s.link.(security := L.ReportMode(s.link.security, e.mode)));
  }

  /** A request for a connection that begins no attempt: someone may still come to wait. */
  lemma JoinMoves(s: State, e: Event, l: L.Link)
    requires Inv(s) && (e.Connect? || e.EnsureConnected?) && !Begins(s, e)
    requires l == s.link.(pending := s.link.pending || Waits(s, e), promise := s.link.promise || Waits(s, e))
    ensures Moved(s, e, l)
  {
    hide Inv, Moved, DeadlineArmed, Waits;
    JoinedDeadline(s.link, l);
    PassMoves(s, e, l);
  }

  lemma StaleCredentials(s: State, e: Event)
    requires Inv(s) && e.CredentialsSettle? && s.link.attempt != Some(e.token)
    ensures Moved(s, e, s.link.(outstanding := s.link.outstanding - {e.token}))
  {
    hide Inv, Moved, DeadlineArmed;
    OutstandingKept(s.link, s.link.(outstanding := s.link.outstanding - {e.token}));
    PassMoves(s, e, s.link.(outstanding := s.link.outstanding - {e.token}));
  }

  lemma MarkedDeadline(l: L.Link, authFailed: bool)
    ensures DeadlineArmed(l.(authFailed := authFailed)) == DeadlineArmed(l)
  {
  }

  lemma ReportedDeadline(l: L.Link, mode: L.Mode)
    ensures DeadlineArmed(l.(security := L.ReportMode(l.security, mode))) == DeadlineArmed(l)
  {
  }

  lemma JoinedDeadline(l: L.Link, l': L.Link)
    requires l' == l.(promise := l'.promise, pending := l'.pending)
    ensures DeadlineArmed(l') == DeadlineArmed(l)
  {
  }

  lemma SwitchedFrom(l: L.Link, enabled: bool)
    requires Kept(l)
    ensures var l' := L.SetReconnectEnabled(l, enabled);
      && l' == l.(enabled := enabled, timers := l'.timers) && l'.timers.errorDelay == l.timers.errorDelay
      && DeadlineArmed(l') == DeadlineArmed(l) && l'.timers.retry == if enabled then l.timers.retry else None
  {
  }

  // ---------------------------------------------------------------------------
  // Every step
  // ---------------------------------------------------------------------------

  lemma AskMoves(s: State, e: Event, auth: Auth, draw: L.Draw)
    requires Inv(s) && e == Connect(auth, draw)
    ensures Moved(s, e, ConnectStep(s, auth, draw).link)
  {
    hide Inv, Kept, Moved, DeadlineArmed;
    HeldFrom(s);
    var asked := s.(link := s.link.(shouldReconnect := true, pending := true));
    if Begins(s, e) {
      AskedKept(s.link, asked.link);
      BeginMoves(s, e, asked, auth, draw);
    } else if Waits(s, e) {
      JoinMoves(s, e, s.link.(pending := true, promise := true));
      WantedAlready(s);
    } else {
      JoinMoves(s, e, s.link);
    }
  }

  lemma AskedKept(l: L.Link, l': L.Link)
    requires Kept(l) && l.status != L.Disposed && l' == l.(shouldReconnect := true, pending := l'.pending)
    ensures Kept(l') && DeadlineArmed(l') == DeadlineArmed(l) && l'.shouldReconnect == l.shouldReconnect
  {
  }

  lemma WantedAlready(s: State)
    requires Inv(s) && s.link.status != L.Disposed
    ensures s.link.shouldReconnect
  {
  }

  lemma EnsureMoves(s: State, e: Event, auth: Auth, draw: L.Draw)
    requires Inv(s) && e == EnsureConnected(auth, draw)
    ensures Moved(s, e, EnsureStep(s, auth, draw).link)
  {
    hide Inv, Kept, Moved, DeadlineArmed;
    HeldFrom(s);
    var wanted := s.(link := s.link.(shouldReconnect := true));
    if Begins(s, e) {
      var asked := s.(link := s.link.(shouldReconnect := true, pending := s.link.pending || Waits(s, e)));
      AskedKept(s.link, asked.link);
      BeginMoves(s, e, asked, auth, draw);
    } else if Waits(s, e) {
      JoinMoves(s, e, s.link.(pending := true, promise := true));
      WantedAlready(s);
    } else {
      JoinMoves(s, e, s.link);
      if s.link.status != L.Disposed { WantedAlready(s); }
    }
  }

  lemma RetryMoves(s: State, e: Event)
    requires Inv(s) && e.RetryFires? && Enabled(s, e)
    ensures Moved(s, e, Step(s, e).link)
  {
    hide Inv, Kept, Moved, DeadlineArmed, AttemptConnect, Timers.Fired;
    HeldFrom(s);
    RetryHeld(s, e.id);
    FiredFrom(s.link, e.id);
    BeginMoves(s, e, TimerFired(s, e.id), e.auth, e.draw);
  }

  lemma RetryHeld(s: State, id: nat)
    requires Inv(s) && id in s.link.timers.armed && s.link.timers.armed[id].Retry?
    ensures s.link.timers.retry == Some(id) && s.link.shouldReconnect
  {
    hide R.Inv, V.Inv;
  }

  lemma SettleMoves(s: State, e: Event)
    requires Inv(s) && e.CredentialsSettle? && Enabled(s, e)
    ensures Moved(s, e, Step(s, e).link)
  {
    hide Inv, Kept, Moved, FailAttempt, DisposeTransport, L.Install, DeadlineArmed;
    HeldFrom(s);
    var arrived := s.(link := s.link.(outstanding := s.link.outstanding - {e.token}));
    OutstandingKept(s.link, arrived.link);
    if s.link.attempt == Some(e.token) {
      ProceedMoves(s, e, arrived, e.token, e.draw);
    } else {
      StaleCredentials(s, e);
    }
  }

  lemma TimerMoves(s: State, e: Event)
    requires Inv(s) && (e.DeadlineFires? || e.ErrorDelayFires?) && Enabled(s, e)
    ensures Moved(s, e, Step(s, e).link)
  {
    hide Inv, Kept, Moved, DeadlineArmed, Timers.Fired, L.Lose, R.Lose, L.Dispose, V.SettleProbe, V.StopBeat;
    HeldFrom(s);
    FiredFrom(s.link, e.id);
    if e.ErrorDelayFires? && L.InSession(s.link) {
      ErrorDelayMoves(s, e.id, e.draw);
    } else if e.DeadlineFires? && s.link.status == L.Connecting {
      DropMoves(s, e, TimerFired(s, e.id).link, e.draw);
    } else {
      FiredPasses(s, e, e.id);
    }
  }

  lemma TransportStepMoves(s: State, e: Event)
    requires Inv(s) && (e.TransportOpens? || e.TransportCloses? || e.TransportFails? || e.SessionDropped?)
    requires Enabled(s, e)
    ensures Moved(s, e, Step(s, e).link)
  {
    hide Inv, Kept, Moved, L.Lose, R.Lose, L.Dispose, V.SettleProbe, V.StopBeat, CloseTransport, L.GenericError,
         Timers.ClearErrorDelay, L.Unwatch;
    HeldFrom(s);
    match e
    case TransportOpens(helloSent, draw) =>
      if s.link.status == L.Connecting && !helloSent { OpenMoves(s, draw); } else { OpenedMoves(s, e); }
    case TransportCloses(reason, draw) => CloseMoves(s, reason, draw);
    case TransportFails(generic, draw) => if generic { GenericMoves(s, e); } else { FailMoves(s, draw); }
    case SessionDropped(draw) => DropMoves(s, e, s.link, draw);
  }

  lemma MessageMoves(s: State, e: Event)
    requires Inv(s) && e.MessageArrives? && Enabled(s, e)
    ensures Moved(s, e, Deliver(s, e.message, e.draw).link)
  {
    hide Inv, Kept, Moved, Deliver, L.Lose, R.Lose, R.Flush, R.Restore, L.Dispose, L.Establish, V.SettleProbe,
         V.StopBeat, V.StartBeat, V.Heard;
    HeldFrom(s);
    DeliveredLink(s, e.message, e.draw);
    if e.message.BadHostFrame? {
      DropMoves(s, e, s.link, e.draw);
    } else if Establishes(s, e) {
      EstablishMoves(s, e);
    } else if e.message.HelloRejected? {
      RejectedMoves(s, e);
      RejectedLink(s, e.message.password, e.draw);
    } else {
      UntouchedMoves(s, e);
      UnmarkedLink(s, e.message, e.draw);
    }
  }

  lemma RejectedLink(s: State, password: bool, draw: L.Draw)
    ensures Deliver(s, HelloRejected(password), draw).link == s.link.(authFailed := password)
  {
    hide V.Heard;
  }

  lemma UnmarkedLink(s: State, message: Inbound, draw: L.Draw)
    requires !message.BadHostFrame? && !message.HelloRejected?
    requires !(message.ServerInfo? && s.link.status == L.Connecting)
    ensures Deliver(s, message, draw).link == s.link
  {
    hide R.Resolve, R.RejectOwners, V.SettleProbe, V.Heard;
  }

  lemma PingMoves(s: State, e: Event)
    requires Inv(s) && (e.HeartbeatFires? || e.PingTimesOut?) && Enabled(s, e)
    ensures Moved(s, e, Step(s, e).link)
  {
    hide Inv, Kept, Moved, L.Lose, R.Lose, L.Dispose, V.Inv, V.SettleProbe, V.ScheduleBeat;
    HeldFrom(s);
    FailuresOf(s);
    if Drops(s, e) { DropMoves(s, e, s.link, e.draw); } else { UntouchedMoves(s, e); }
  }

  lemma FailuresOf(s: State)
    requires Inv(s)
    ensures s.live.failures <= 1
  {
  }

  lemma QuietMoves(s: State, e: Event)
    requires Inv(s) && Enabled(s, e)
    requires e.ModeReported? || e.SetReconnect? || e.SendRequest? || e.AbortRequest? || e.WaiterTimesOut?
      || e.QueueTimesOut? || e.MeasureLatency? || e.SlotOpened? || e.CloseBegins? || e.CloseEnds?
    ensures Moved(s, e, Step(s, e).link)
  {
    hide Inv, Kept, Moved, L.Close, L.SetReconnectEnabled, L.ReportMode, R.SendNow, R.SendUnavailable, R.Hold, R.Abort,
         R.QueueTimeout, R.WaiterTimeout, R.CloseQueue, R.CloseWaiters, V.StopBeat, V.DropProbe, V.OpenProbe;
    if e.ModeReported? {
      ModeMoves(s, e);
    } else if e.SetReconnect? {
      SwitchMoves(s, e);
    } else if Closes(s, e) {
      ClosedMoves(s, e);
    } else {
      UntouchedMoves(s, e);
    }
  }

  lemma StepMoves(s: State, e: Event)
    requires Inv(s) && Enabled(s, e)
    ensures Moved(s, e, Step(s, e).link)
  {
    hide Inv, Moved, ConnectStep, EnsureStep, AttemptConnect, Proceed, CloseTransport, Teardown, ScheduleReconnect,
         Deliver, Beat, PingTimeout, Measure, Send, Close, FinishClose, TimerFired, L.GenericError, L.Unwatch;
    match e
    case Connect(auth, draw) => AskMoves(s, e, auth, draw);
    case EnsureConnected(auth, draw) => EnsureMoves(s, e, auth, draw);
    case CredentialsSettle(_, _, _) => SettleMoves(s, e);
    case RetryFires(_, _, _) => RetryMoves(s, e);
    case DeadlineFires(_, _) => TimerMoves(s, e);
    case ErrorDelayFires(_, _) => TimerMoves(s, e);
    case TransportOpens(_, _) => TransportStepMoves(s, e);
    case TransportCloses(_, _) => TransportStepMoves(s, e);
    case TransportFails(_, _) => TransportStepMoves(s, e);
    case SessionDropped(_) => TransportStepMoves(s, e);
    case MessageArrives(_, _) => MessageMoves(s, e);
    case HeartbeatFires(_, _) => PingMoves(s, e);
    case PingTimesOut(_) => PingMoves(s, e);
    case _ => QuietMoves(s, e);
  }

  // ---------------------------------------------------------------------------
  // Every run
  // ---------------------------------------------------------------------------

  /** How every run begins: idle, with the caller's policy, switch and floor, and nothing under way. */
  lemma StartExactly(policy: B.Policy, enabled: bool, floor: Option<L.Mode>)
    ensures var s := Initial(policy, enabled, floor);
      && s.link.status == L.Idle && s.link.pace.policy == policy && s.link.enabled == enabled
      && s.link.security.floor == floor && s.link.security.builds == [] && s.link.pace.tries == 0
      && s.link.transport.None? && L.Drivers(s.link) == 0 && !s.link.promise && !s.link.pending
      && s.reqs.calls == [] && s.reqs.frames == [] && s.live.log == [] && s.slots == {} && !s.closing
  {
  }

  lemma RunMoves(tr: seq<State>, es: seq<Event>, i: nat)
    requires Run(tr, es) && i < |es|
    ensures Moved(tr[i], es[i], tr[i + 1].link)
  {
    hide Inv, Step, Enabled, Moved;
    RunInv(tr, es, i);
    assert StepAt(tr, es, i);
    StepMoves(tr[i], es[i]);
  }

  /**
   * The course of the connection. In every run, unless its loss breaks off, each event leaves
   * exactly this status, attempt, retry and try number: only a build connects, only the daemon's
   * first word establishes, and every loss or failed attempt ends in a retry if and only if one is
   * still allowed.
   */
  lemma CourseExactly(tr: seq<State>, es: seq<Event>, i: nat)
    requires Run(tr, es) && i < |es| && tr[i + 1].link.pace.faults == tr[i].link.pace.faults
    ensures tr[i + 1].link.status == StatusAfter(tr[i], es[i])
    ensures tr[i + 1].link.attempt == AttemptAfter(tr[i], es[i])
    ensures tr[i + 1].link.timers.retry.Some? <==> RetryAfter(tr[i], es[i])
    ensures tr[i + 1].link.pace.tries == TriesAfter(tr[i], es[i])
    ensures tr[i + 1].link.pace.published.Some? <==> PublishedAfter(tr[i], es[i])
  {
    hide StatusAfter, AttemptAfter, RetryAfter, TriesAfter, PublishedAfter;
    RunMoves(tr, es, i);
  }

  /**
   * Who waits for `connect`. A caller that finds nobody's promise waits from then on; it is answered
   * by the session being established, by the failure of an attempt, by a loss that no retry follows,
   * or by `close`, and by nothing else.
   */
  lemma ConnectExactly(tr: seq<State>, es: seq<Event>, i: nat)
    requires Run(tr, es) && i < |es| && tr[i + 1].link.pace.faults == tr[i].link.pace.faults
    ensures tr[i + 1].link.pending <==> PendingAfter(tr[i], es[i])
    ensures tr[i + 1].link.promise <==> PromiseAfter(tr[i], es[i])
  {
    hide PendingAfter, PromiseAfter;
    RunMoves(tr, es, i);
  }

  /** The transport that is held, whether it has reported an error, and the two timers that watch it. */
  lemma TransportExactly(tr: seq<State>, es: seq<Event>, i: nat)
    requires Run(tr, es) && i < |es|
    ensures TransportMoves(tr[i], es[i], tr[i + 1].link)
    ensures tr[i + 1].link.errored <==> ErroredAfter(tr[i], es[i])
    ensures tr[i + 1].link.security.floor == FloorAfter(tr[i], es[i])
    ensures tr[i + 1].link.outstanding == OutstandingAfter(tr[i], es[i])
    ensures DeadlineArmed(tr[i + 1].link) <==> DeadlineAfter(tr[i], es[i])
    ensures tr[i + 1].link.timers.errorDelay.Some? <==> ErrorDelayAfter(tr[i], es[i])
  {
    hide ErroredAfter, FloorAfter, OutstandingAfter, TransportMoves, DeadlineAfter, ErrorDelayAfter;
    RunMoves(tr, es, i);
  }

  // ---------------------------------------------------------------------------
  // What stops the retries
  // ---------------------------------------------------------------------------

  predicate SaysRefused(e: Event) {
    (e.MessageArrives? && e.message == HelloRejected(true)) || (e.TransportCloses? && e.reason == AuthRejected)
  }

  /** A new transport, or another word on the hello, takes the place of what was said before. */
  predicate Supersedes(s: State, e: Event) {
    Verdict(s, e) == Some(Built) || (e.MessageArrives? && e.message.HelloRejected?)
  }

  /** The credentials have been refused, and nothing has superseded that since. */
  ghost predicate Refused(tr: seq<State>, es: seq<Event>, j: nat)
    requires |tr| == |es| + 1 && j <= |es|
  {
    exists i :: 0 <= i < j && RefusedSince(tr, es, i, j)
  }

  ghost predicate RefusedSince(tr: seq<State>, es: seq<Event>, i: nat, j: nat)
    requires |tr| == |es| + 1 && i < j <= |es|
  {
    SaysRefused(es[i]) && forall k :: i < k < j ==> !Supersedes(tr[k], es[k])
  }

  /** The mark says exactly whether the daemon's refusal of the credentials still stands. */
  lemma {:induction false} RefusedExactly(tr: seq<State>, es: seq<Event>, j: nat)
    requires Run(tr, es) && j <= |es|
    ensures tr[j].link.authFailed <==> Refused(tr, es, j)
  {
    hide RefusedAfter, SaysRefused, Supersedes, Refused;
    if j == 0 {
      StartUnmarked(tr, es);
    } else {
      RefusedExactly(tr, es, j - 1);
      RunMarks(tr, es, j - 1);
      RefusedStep(tr, es, j - 1);
      RefusedTells(tr[j - 1], es[j - 1]);
    }
  }

  lemma RefusedTells(s: State, e: Event)
    ensures RefusedAfter(s, e) <==> SaysRefused(e) || (s.link.authFailed && !Supersedes(s, e))
  {
  }

  lemma StartUnmarked(tr: seq<State>, es: seq<Event>)
    requires Run(tr, es)
    ensures !tr[0].link.authFailed && !Refused(tr, es, 0)
  {
    hide Steps;
  }

  lemma RunMarks(tr: seq<State>, es: seq<Event>, i: nat)
    requires Run(tr, es) && i < |es|
    ensures tr[i + 1].link.authFailed <==> RefusedAfter(tr[i], es[i])
    ensures tr[i + 1].link.enabled <==> EnabledAfter(tr[i], es[i])
  {
    hide RefusedAfter, EnabledAfter;
    RunMoves(tr, es, i);
  }

  lemma RefusedStep(tr: seq<State>, es: seq<Event>, i: nat)
    requires |tr| == |es| + 1 && i < |es|
    ensures Refused(tr, es, i + 1) <==>
            SaysRefused(es[i]) || (Refused(tr, es, i) && !Supersedes(tr[i], es[i]))
  {
    hide Supersedes, SaysRefused;
    if SaysRefused(es[i]) { assert RefusedSince(tr, es, i, i + 1); }
    if Refused(tr, es, i) && !Supersedes(tr[i], es[i]) {
      var k :| 0 <= k < i && RefusedSince(tr, es, k, i);
      assert RefusedSince(tr, es, k, i + 1);
    }
    if Refused(tr, es, i + 1) && !SaysRefused(es[i]) {
      var k :| 0 <= k < i + 1 && RefusedSince(tr, es, k, i + 1);
      assert RefusedSince(tr, es, k, i);
    }
  }

  /**
   * What turns reconnecting off besides its switch: a close that forbids another attempt, a relay
   * that refuses the credentials, and any loss or failed attempt while a refusal of the credentials
   * stands. A hello rejected for another reason does not.
   */
  lemma DisabledExactly(tr: seq<State>, es: seq<Event>, i: nat)
    requires Run(tr, es) && i < |es| && !es[i].SetReconnect? && tr[i].link.enabled
    ensures !tr[i + 1].link.enabled <==>
            || ForbidsRetry(tr[i], es[i]) || Verdict(tr[i], es[i]) == Some(RelayRefused)
            || (GivesUp(tr[i], es[i]) && (Refused(tr, es, i) || SaysRefused(es[i])))
  {
    hide ForbidsRetry, Loses, Verdict;
    RunMarks(tr, es, i);
    RefusedExactly(tr, es, i);
    if GivesUp(tr[i], es[i]) { GivesUpUnbuilt(tr[i], es[i]); }
  }

  lemma GivesUpUnbuilt(s: State, e: Event)
    requires GivesUp(s, e)
    ensures Verdict(s, e) != Some(Built) && !(e.MessageArrives? && e.message.HelloRejected?)
  {
  }

  /**
   * A daemon that has refused the credentials is not asked again: once the session is lost nothing
   * is armed, nothing is under way, and no caller is left waiting.
   */
  lemma RefusalStops(tr: seq<State>, es: seq<Event>, i: nat)
    requires Run(tr, es) && i < |es| && Loses(tr[i], es[i]) && (Refused(tr, es, i) || SaysRefused(es[i]))
    ensures !tr[i + 1].link.enabled && !tr[i + 1].link.pending && L.Drivers(tr[i + 1].link) == 0
  {
    hide Loses, Inv, Step, Enabled;
    RunInv(tr, es, i);
    assert StepAt(tr, es, i);
    RunMoves(tr, es, i);
    RefusedExactly(tr, es, i);
    LossTells(tr[i], es[i]);
    GivesUpUnbuilt(tr[i], es[i]);
    if tr[i + 1].link.pace.faults != tr[i].link.pace.faults { FaultCause(tr, es, i); }
  }

  /**
   * A rejected hello and the close behind it: with a refused password reconnecting is off, nothing is
   * armed or under way and nobody waits; rejected for another reason it is as enabled as it was.
   */
  lemma HelloThenClose(tr: seq<State>, es: seq<Event>, i: nat)
    requires Run(tr, es) && i + 1 < |es| && es[i].MessageArrives? && es[i].message.HelloRejected?
    requires es[i + 1].TransportCloses? && es[i + 1].reason == Ordinary
    ensures var l := tr[i + 2].link;
      if es[i].message.password then !l.enabled && !l.pending && l.timers.retry.None? && L.Drivers(l) == 0
      else l.enabled == tr[i].link.enabled
  {
    hide Inv;
    RunMarks(tr, es, i);
    RunMarks(tr, es, i + 1);
    if es[i].message.password {
      assert RefusedSince(tr, es, i, i + 1);
      RefusalStops(tr, es, i + 1);
    }
  }
}
