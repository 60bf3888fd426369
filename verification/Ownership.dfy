/**
 * Several app instances around one Postgres data directory, as a step system
 * (internal/embedded/postgres.go, ownerlock.go). What it takes for granted:
 * the kernel frees the lock of a dead holder; a live pid names one process; an
 * identity check and the signal right after it are one step, also when pg_ctl
 * sends the signal; the Postgres library launches nothing beside a live
 * postmaster; a postmaster writes the pid file as it starts and nobody damages
 * the file while it lives; the identity check never mistakes another process for
 * a postmaster of the directory, though it may fail to recognise one.
 */
module Ownership {
  import opened Options

  type Id = nat
  type Pid = nat

  /** A process: a postmaster of this directory, with the instance that launched it, or anything else. */
  datatype Process = Postmaster(launcher: Id) | Stranger

  datatype PidFile = Missing | Unreadable | Names(pid: Pid)

  /** The counters of the start loop. */
  datatype Recovery = Recovery(attempts: nat, staleRecovered: bool, portRetried: bool)

  /** What the text of a failed start mentions. */
  datatype StartError = StartError(stalePidFile: bool, portTaken: bool)

  /** The reap-and-remove sequence runs before the first launch, or again after a failed one. */
  datatype Resume = ThenLaunch | ThenRetry(portTaken: bool)

  /** Where an instance stands between two observable steps. */
  datatype Phase =
    | Waiting
    | LoadingPassword
    | AtLoop(r: Recovery)
    | ReapReading(r: Recovery, after: Resume)
    | ReapAliveCheck(r: Recovery, after: Resume, pid: Pid)
    | ReapStopping(r: Recovery, after: Resume, pid: Pid)
    | ReapCtlWaiting(r: Recovery, after: Resume, pid: Pid)
    | ReapFallback(r: Recovery, after: Resume, pid: Pid)
    | ReapWaiting(r: Recovery, after: Resume, pid: Pid)
    | ReapRemoving(r: Recovery, after: Resume)
    | StaleReading(r: Recovery, after: Resume, reaped: bool)
    | StaleAliveCheck(r: Recovery, after: Resume, reaped: bool, pid: Pid)
    | StaleRemoving(r: Recovery, after: Resume)
    | Launching(r: Recovery)
    | LaunchFailed(r: Recovery, err: StartError)
    | Capturing(pid: Pid)
    | FailReading
    | FailChecking(pid: Pid)
    | Running(pid: Pid)
    | StopOwnership(pid: Pid)
    | StopVerifying(pid: Pid)
    | StopSignalling(pid: Pid)
    | StopAliveCheck(pid: Pid)
    | StopWaiting(pid: Pid)
    | Killing(pid: Pid)
    | KillAliveCheck(pid: Pid)
    | KillWaiting(pid: Pid)
    | Deciding(pid: Pid, ok: bool)
    | Released(ok: bool)
    | Retained
    | Dead

  datatype Kind = ByStop | ByReap | ByReapFallback

  /** A signal that was sent: by whom, to what, and which instances lived or had released early by then. */
  datatype Signal = Signal(sender: Id, kind: Kind, target: Process, living: set<Id>, early: set<Id>)

  /** `signals` and `early` are histories; `early` are the instances whose failed start misjudged their postmaster. */
  datatype State = State(
    processes: map<Pid, Process>,
    file: PidFile,
    lock: Option<Id>,
    instances: map<Id, Phase>,
    signals: seq<Signal>,
    early: set<Id>)

  const INITIAL := State(map[], Missing, None, map[], [], {})

  // ----- steps

  /** `answer` is what the identity check says; `expired` that a wait ran out. */
  datatype Move =
    | Lock
    | GiveUp
    | Crash
    | ReadPassword(ok: bool)
    | Loop(cancelled: bool)
    | ReadForReap
    | ProbeForReap
    | StopOrphan(answer: bool, usesCtl: bool)
    | CtlReturns(ok: bool)
    | SignalOrphan
    | AwaitOrphan(expired: bool)
    | RemoveFile
    | ReadForStale
    | ProbeForStale
    | LaunchRefused(err: StartError)
    | LaunchLeaves(pid: Pid, err: StartError)
    | LaunchSucceeds(pid: Pid)
    | HandleError
    | CapturePid
    | ReadAfterFailure
    | ProbeAfterFailure(answer: bool)
    | CallStop
    | ReadOwnership
    | Verify(answer: bool)
    | Interrupt(answer: bool, delivered: bool)
    | ProbeAfterVerify
    | AwaitExit(expired: bool)
    | Kill(answer: bool, delivered: bool)
    | ProbeAfterKill
    | AwaitKill(expired: bool, cancelled: bool)
    | Decide

  datatype Event =
    | Born(i: Id)
    | Moved(i: Id, move: Move)
    | Exited(pid: Pid, removesFile: bool)
    | StrangerBorn(pid: Pid)
    | FileDamaged

  predicate IsPostmaster(ps: map<Pid, Process>, pid: Pid) {
    pid in ps && ps[pid].Postmaster?
  }

  predicate SomePostmaster(ps: map<Pid, Process>) {
    exists pid :: pid in ps && ps[pid].Postmaster?
  }

  function Living(instances: map<Id, Phase>): set<Id> {
    set i | i in instances && !instances[i].Dead?
  }

  // ----- where a move takes an instance

  /** The end of reap-and-remove. */
  function Resumed(r: Recovery, after: Resume, recovered: bool): Phase {
    var r' := if recovered then r.(staleRecovered := true) else r;
    match after
    case ThenLaunch => Launching(r')
    case ThenRetry(portTaken) => if recovered then AtLoop(NextAttempt(r')) else RetryPort(r, portTaken)
  }

  function NextAttempt(r: Recovery): Recovery {
    r.(attempts := r.attempts + 1)
  }

  function RetryPort(r: Recovery, portTaken: bool): Phase {
    if !r.portRetried && portTaken then AtLoop(NextAttempt(r.(portRetried := true))) else FailReading
  }

  const MAX_ATTEMPTS := 3

  /** Reaping an orphan: from the loop head to the decision that it is gone or cannot be judged. */
  function NextReap(s: State, phase: Phase, move: Move): Phase {
    match phase
    case AtLoop(r) =>
      if !move.Loop? then phase
      else if r.attempts >= MAX_ATTEMPTS || move.cancelled then FailReading
      else if r.staleRecovered then Launching(r) else ReapReading(r, ThenLaunch)
    case ReapReading(r, after) =>
      if !move.ReadForReap? then phase
      else if s.file.Names? then ReapAliveCheck(r, after, s.file.pid) else StaleReading(r, after, false)
    case ReapAliveCheck(r, after, pid) =>
      if !move.ProbeForReap? then phase
      else if pid in s.processes then ReapStopping(r, after, pid) else StaleReading(r, after, false)
    case ReapStopping(r, after, pid) =>
      if !move.StopOrphan? then phase
      else if !move.answer then StaleReading(r, after, false)
      else if !IsPostmaster(s.processes, pid) then phase
      else if move.usesCtl then ReapCtlWaiting(r, after, pid) else ReapWaiting(r, after, pid)
    case ReapCtlWaiting(r, after, pid) =>
      if !move.CtlReturns? then phase
      else if !move.ok then ReapFallback(r, after, pid)
      else if IsPostmaster(s.processes, pid) then phase else ReapRemoving(r, after)
    case ReapFallback(r, after, pid) =>
      if !move.SignalOrphan? then phase else ReapWaiting(r, after, pid)
    case ReapWaiting(r, after, pid) =>
      if !move.AwaitOrphan? then phase
      else if pid !in s.processes then ReapRemoving(r, after)
      else if move.expired then FailReading else phase
    case _ => phase
  }

  /** Removing a stale pid file, launching, and capturing the pid. */
  function NextLaunch(s: State, phase: Phase, move: Move): Phase {
    match phase
    case ReapRemoving(r, after) =>
      if !move.RemoveFile? then phase else StaleReading(r, after, true)
    case StaleReading(r, after, reaped) =>
      if !move.ReadForStale? then phase
      else (match s.file
            case Missing => Resumed(r, after, reaped)
            case Unreadable => StaleRemoving(r, after)
            case Names(pid) => StaleAliveCheck(r, after, reaped, pid))
    case StaleAliveCheck(r, after, reaped, pid) =>
      if !move.ProbeForStale? then phase
      else if pid in s.processes then Resumed(r, after, reaped) else StaleRemoving(r, after)
    case StaleRemoving(r, after) =>
      if !move.RemoveFile? then phase else Resumed(r, after, true)
    case Launching(r) =>
      if move.LaunchRefused? then LaunchFailed(r, move.err)
      else if !CanLaunch(s, move) then phase
      else if move.LaunchLeaves? then LaunchFailed(r, move.err) else Capturing(move.pid)
    case LaunchFailed(r, err) =>
      if !move.HandleError? then phase
      else if !r.staleRecovered && err.stalePidFile then ReapReading(r, ThenRetry(err.portTaken))
      else RetryPort(r, err.portTaken)
    case Capturing(_) =>
      if !move.CapturePid? then phase else if s.file.Names? then Running(s.file.pid) else FailReading
    case _ => phase
  }

  /** The library launches a new process, and only if no postmaster of the directory is alive. */
  predicate CanLaunch(s: State, move: Move) {
    && (move.LaunchLeaves? || move.LaunchSucceeds?)
    && !SomePostmaster(s.processes)
    && move.pid !in s.processes
  }

  /** Stopping and killing, up to the decision about the lock. */
  function NextStop(s: State, phase: Phase, move: Move): Phase {
    match phase
    case Running(pid) => if !move.CallStop? then phase else StopOwnership(pid)
    case StopOwnership(pid) =>
      if !move.ReadOwnership? then phase
      else if s.file == Names(pid) then StopVerifying(pid) else Deciding(pid, false)
    case StopVerifying(pid) =>
      if !move.Verify? then phase
      else if !move.answer then StopAliveCheck(pid)
      else if IsPostmaster(s.processes, pid) then StopSignalling(pid) else phase
    case StopSignalling(pid) =>
      if !move.Interrupt? then phase
      else if !move.answer then StopAliveCheck(pid)
      else if !IsPostmaster(s.processes, pid) then phase
      else if move.delivered then StopWaiting(pid) else Deciding(pid, false)
    case StopAliveCheck(pid) =>
      if !move.ProbeAfterVerify? then phase else Deciding(pid, pid !in s.processes)
    case StopWaiting(pid) =>
      if !move.AwaitExit? then phase
      else if pid !in s.processes then Deciding(pid, true)
      else if move.expired then Killing(pid) else phase
    case Killing(pid) =>
      if !move.Kill? then phase
      else if !move.answer then KillAliveCheck(pid)
      else if !IsPostmaster(s.processes, pid) then phase
      else if move.delivered then KillWaiting(pid) else Deciding(pid, false)
    case KillAliveCheck(pid) =>
      if !move.ProbeAfterKill? then phase
      else if pid in s.processes then Deciding(pid, false) else KillWaiting(pid)
    case KillWaiting(pid) =>
      if !move.AwaitKill? then phase
      else if pid !in s.processes then Deciding(pid, !move.cancelled)
      else if move.expired then Deciding(pid, false) else phase
    case _ => phase
  }

  predicate ShouldReleaseOwnerLock(s: State, ok: bool, pid: Pid) {
    ok || pid !in s.processes
  }

  /** Taking the lock, and every place where it is given up or kept for good. */
  function NextLock(s: State, phase: Phase, move: Move): Phase {
    match phase
    case Waiting =>
      if move.GiveUp? then Released(false)
      else if move.Lock? && s.lock.None? then LoadingPassword else phase
    case LoadingPassword =>
      if !move.ReadPassword? then phase else if move.ok then AtLoop(Recovery(0, false, false)) else Released(false)
    case Deciding(pid, ok) =>
      if !move.Decide? then phase
      else if ShouldReleaseOwnerLock(s, ok, pid) then Released(ok) else Retained
    case FailReading =>
      if !move.ReadAfterFailure? then phase
      else if s.file.Names? then FailChecking(s.file.pid) else Released(false)
    case FailChecking(pid) =>
      if !move.ProbeAfterFailure? || (move.answer && !IsPostmaster(s.processes, pid)) then phase
      else if pid in s.processes && move.answer then Retained else Released(false)
    case _ => phase
  }

  predicate InReap(phase: Phase) {
    phase.AtLoop? || phase.ReapReading? || phase.ReapAliveCheck? || phase.ReapStopping?
    || phase.ReapCtlWaiting? || phase.ReapFallback? || phase.ReapWaiting?
  }

  predicate InLaunch(phase: Phase) {
    phase.ReapRemoving? || phase.StaleReading? || phase.StaleAliveCheck? || phase.StaleRemoving?
    || phase.Launching? || phase.LaunchFailed? || phase.Capturing?
  }

  predicate InStop(phase: Phase) {
    phase.Running? || phase.StopOwnership? || phase.StopVerifying? || phase.StopSignalling? || phase.StopAliveCheck?
    || phase.StopWaiting? || phase.Killing? || phase.KillAliveCheck? || phase.KillWaiting?
  }

  function NextPhase(s: State, phase: Phase, move: Move): Phase {
    if InReap(phase) then NextReap(s, phase, move)
    else if InLaunch(phase) then NextLaunch(s, phase, move)
    else if InStop(phase) then NextStop(s, phase, move)
    else NextLock(s, phase, move)
  }

  // ----- what a move does to the rest of the world

  /** Sends a signal to whatever has the pid now. */
  function Send(s: State, i: Id, kind: Kind, pid: Pid): State {
    if pid in s.processes
    then s.(signals := s.signals + [Signal(i, kind, s.processes[pid], Living(s.instances), s.early)])
    else s
  }

  function Spawn(s: State, i: Id, pid: Pid): State {
    s.(processes := s.processes[pid := Postmaster(i)], file := Names(pid))
  }

  /** A signal that follows a positive identity check, as one step with it. */
  function CheckedSend(s: State, i: Id, kind: Kind, pid: Pid, answer: bool): State {
    if answer && IsPostmaster(s.processes, pid) then Send(s, i, kind, pid) else s
  }

  function Effect(s: State, i: Id, phase: Phase, move: Move): State {
    match phase
    case ReapStopping(_, _, pid) => if move.StopOrphan? then CheckedSend(s, i, ByReap, pid, move.answer) else s
    case ReapFallback(_, _, pid) => if move.SignalOrphan? then Send(s, i, ByReapFallback, pid) else s
    case ReapRemoving(_, _) => if move.RemoveFile? then s.(file := Missing) else s
    case StaleRemoving(_, _) => if move.RemoveFile? then s.(file := Missing) else s
    case Launching(_) => if CanLaunch(s, move) then Spawn(s, i, move.pid) else s
    case StopSignalling(pid) => if move.Interrupt? then CheckedSend(s, i, ByStop, pid, move.answer) else s
    case Killing(pid) => if move.Kill? then CheckedSend(s, i, ByStop, pid, move.answer) else s
    case _ => s
  }

  predicate HoldsLock(phase: Phase) {
    !phase.Waiting? && !phase.Released? && !phase.Dead?
  }

  /** The instance enters a phase, and the lock follows. */
  function Enter(s: State, i: Id, phase: Phase): State {
    s.(instances := s.instances[i := phase],
       lock := if HoldsLock(phase) then Some(i) else if s.lock == Some(i) then None else s.lock)
  }

  /** A failed start gives the directory up because the check does not recognise the instance's own postmaster. */
  predicate ReleasesEarly(s: State, i: Id, phase: Phase, move: Move) {
    && phase.FailChecking? && move == ProbeAfterFailure(false)
    && IsPostmaster(s.processes, phase.pid) && s.processes[phase.pid].launcher == i
  }

  function Note(s: State, i: Id, early: bool): State {
    if early then s.(early := s.early + {i}) else s
  }

  function InstanceStep(s: State, i: Id, move: Move): State {
    if i !in s.instances || s.instances[i].Dead? then s
    else
      var phase := s.instances[i];
      if move.Crash? then Enter(s, i, Dead)
      else Enter(Note(Effect(s, i, phase, move), i, ReleasesEarly(s, i, phase, move)), i, NextPhase(s, phase, move))
  }

  /** One step of an instance or of the world; a step that is not possible changes nothing. */
  function Step(s: State, e: Event): State {
    match e
    case Born(i) => if i in s.instances then s else Enter(s, i, Waiting)
    case Moved(i, move) => InstanceStep(s, i, move)
    case Exited(pid, removesFile) =>
      if pid !in s.processes then s
      else s.(processes := s.processes - {pid},
              file := if IsPostmaster(s.processes, pid) && removesFile && s.file == Names(pid) then Missing else s.file)
    case StrangerBorn(pid) => if pid in s.processes then s else s.(processes := s.processes[pid := Stranger])
    case FileDamaged => if SomePostmaster(s.processes) then s else s.(file := Unreadable)
  }

  function Run(events: seq<Event>): State {
    if events == [] then INITIAL else Step(Run(events[..|events| - 1]), events[|events| - 1])
  }

  // ----- the invariant

  /** The lock is held by exactly the instance that believes to hold it. */
  ghost predicate Exclusive(s: State) {
    && (forall i :: i in s.instances ==> (HoldsLock(s.instances[i]) <==> s.lock == Some(i)))
    && (s.lock.Some? ==> s.lock.value in s.instances)
  }

  /** A live postmaster is the only one and is the one in the pid file. */
  ghost predicate Named(ps: map<Pid, Process>, file: PidFile) {
    forall pid :: IsPostmaster(ps, pid) ==> file == Names(pid)
  }

  /** Whoever launched a live postmaster is dead, holds the lock, or has released it early. */
  ghost predicate Guarded(s: State) {
    forall pid :: IsPostmaster(s.processes, pid) ==>
      var launcher := s.processes[pid].launcher;
      launcher in s.instances && (s.instances[launcher].Dead? || s.lock == Some(launcher) || launcher in s.early)
  }

  /** Who released early is through with the directory. */
  ghost predicate EarlyOnesAreOut(s: State) {
    forall i :: i in s.early ==> i in s.instances && (s.instances[i] == Released(false) || s.instances[i].Dead?)
  }

  /** What a lock holder knows about the live postmasters. */
  datatype Reliance = Nothing | NotOwn | OnlyAt(pid: Pid) | OwnAt(pid: Pid) | OwnNamed(pid: Pid) | Nobody

  ghost predicate Relies(ps: map<Pid, Process>, file: PidFile, i: Id, r: Reliance) {
    match r
    case Nothing => true
    case NotOwn => forall q :: IsPostmaster(ps, q) ==> ps[q].launcher != i
    case OnlyAt(pid) => forall q :: IsPostmaster(ps, q) ==> q == pid
    case OwnAt(pid) => forall q :: IsPostmaster(ps, q) ==> q == pid && ps[q].launcher == i
    case OwnNamed(pid) =>
      && (forall q :: IsPostmaster(ps, q) ==> q == pid && ps[q].launcher == i)
      && (file.Names? ==> file.pid == pid)
    case Nobody => forall q :: !IsPostmaster(ps, q)
  }

  function Knows(phase: Phase): Reliance {
    match phase
    case Waiting => NotOwn
    case LoadingPassword => NotOwn
    case Released(_) => NotOwn
    case ReapAliveCheck(_, _, pid) => OnlyAt(pid)
    case ReapStopping(_, _, pid) => OnlyAt(pid)
    case ReapCtlWaiting(_, _, pid) => OnlyAt(pid)
    case ReapFallback(_, _, pid) => OnlyAt(pid)
    case ReapWaiting(_, _, pid) => OnlyAt(pid)
    case ReapRemoving(_, _) => Nobody
    case StaleAliveCheck(_, _, _, pid) => OnlyAt(pid)
    case StaleRemoving(_, _) => Nobody
    case Capturing(pid) => OwnNamed(pid)
    case FailChecking(pid) => OnlyAt(pid)
    case Running(pid) => OwnAt(pid)
    case StopOwnership(pid) => OwnAt(pid)
    case StopVerifying(pid) => OwnAt(pid)
    case StopSignalling(pid) => OwnAt(pid)
    case StopAliveCheck(pid) => OwnAt(pid)
    case StopWaiting(pid) => OwnAt(pid)
    case Killing(pid) => OwnAt(pid)
    case KillAliveCheck(pid) => OwnAt(pid)
    case KillWaiting(pid) => OwnAt(pid)
    case Deciding(pid, ok) => if ok then Nobody else OwnAt(pid)
    case _ => Nothing
  }

  ghost predicate HolderKnows(s: State) {
    s.lock.Some? && s.lock.value in s.instances ==>
      Relies(s.processes, s.file, s.lock.value, Knows(s.instances[s.lock.value]))
  }

  /** The signal went to the postmaster of another live instance. */
  predicate HitsAnother(g: Signal) {
    g.target.Postmaster? && g.target.launcher != g.sender && g.target.launcher in g.living
  }

  /** Stop signals its own postmaster; reaping hits another live instance's only if that one released early. */
  ghost predicate Proper(g: Signal) {
    && (g.kind.ByStop? ==> g.target == Postmaster(g.sender))
    && (g.kind.ByReap? ==> g.target.Postmaster?)
    && (HitsAnother(g) <==> g.target.Postmaster? && g.target.launcher in g.living && g.target.launcher in g.early)
  }

  ghost predicate Safe(s: State) {
    && Exclusive(s) && Named(s.processes, s.file) && Guarded(s) && HolderKnows(s) && EarlyOnesAreOut(s)
    && forall g :: g in s.signals ==> Proper(g)
  }

  // ----- every move keeps it

  /** What an instance knows after its own move is true. */
  ghost predicate Justified(s: State, i: Id, phase: Phase, move: Move, next: Phase) {
    var after := Effect(s, i, phase, move);
    Relies(after.processes, after.file, i, Knows(next))
  }

  lemma ReapJustified(s: State, i: Id, phase: Phase, move: Move)
    requires Named(s.processes, s.file) && Relies(s.processes, s.file, i, Knows(phase)) && InReap(phase)
    ensures Justified(s, i, phase, move, NextReap(s, phase, move))
  {
  }

  lemma LaunchJustified(s: State, i: Id, phase: Phase, move: Move)
    requires Named(s.processes, s.file) && Relies(s.processes, s.file, i, Knows(phase)) && InLaunch(phase)
    ensures Justified(s, i, phase, move, NextLaunch(s, phase, move))
  {
    if phase.ReapRemoving? || phase.StaleReading? || phase.StaleAliveCheck? || phase.StaleRemoving? {
      StaleJustified(s, i, phase, move);
    }
  }

  lemma StaleJustified(s: State, i: Id, phase: Phase, move: Move)
    requires Named(s.processes, s.file) && Relies(s.processes, s.file, i, Knows(phase))
    requires phase.ReapRemoving? || phase.StaleReading? || phase.StaleAliveCheck? || phase.StaleRemoving?
    ensures Justified(s, i, phase, move, NextLaunch(s, phase, move))
  {
  }

  lemma StopJustified(s: State, i: Id, phase: Phase, move: Move)
    requires Named(s.processes, s.file) && Relies(s.processes, s.file, i, Knows(phase)) && InStop(phase)
    ensures Justified(s, i, phase, move, NextStop(s, phase, move))
  {
    if phase.StopWaiting? || phase.Killing? || phase.KillAliveCheck? || phase.KillWaiting? {
      KillJustified(s, i, phase, move);
    }
  }

  lemma KillJustified(s: State, i: Id, phase: Phase, move: Move)
    requires Named(s.processes, s.file) && Relies(s.processes, s.file, i, Knows(phase))
    requires phase.StopWaiting? || phase.Killing? || phase.KillAliveCheck? || phase.KillWaiting?
    ensures Justified(s, i, phase, move, NextStop(s, phase, move))
  {
    if phase.Killing? {
      SigkillJustified(s, i, phase, move);
    }
  }

  lemma SigkillJustified(s: State, i: Id, phase: Phase, move: Move)
    requires Named(s.processes, s.file) && Relies(s.processes, s.file, i, Knows(phase)) && phase.Killing?
    ensures Justified(s, i, phase, move, NextStop(s, phase, move))
  {
  }

  lemma LockJustified(s: State, i: Id, phase: Phase, move: Move)
    requires Named(s.processes, s.file) && Relies(s.processes, s.file, i, Knows(phase))
    requires !InReap(phase) && !InLaunch(phase) && !InStop(phase)
    requires i in s.instances && s.instances[i] == phase
    ensures ReleasesEarly(s, i, phase, move) || Justified(s, i, phase, move, NextLock(s, phase, move))
  {
  }

  /** An effect leaves the pid file truthful, sends only proper signals, and launches only for its instance. */
  ghost predicate Decent(s: State, i: Id, phase: Phase, after: State) {
    && Named(after.processes, after.file)
    && (forall g :: g in after.signals ==> Proper(g))
    && after.instances == s.instances && after.lock == s.lock && after.early == s.early
    && (forall q :: IsPostmaster(after.processes, q) ==>
          (IsPostmaster(s.processes, q) && after.processes[q] == s.processes[q]) || after.processes[q].launcher == i)
  }

  lemma SendDecent(s: State, i: Id, phase: Phase, kind: Kind, pid: Pid)
    requires Safe(s) && s.lock == Some(i)
    requires !kind.ByReapFallback? ==> IsPostmaster(s.processes, pid)
    requires kind.ByStop? ==> s.processes[pid].launcher == i
    ensures Decent(s, i, phase, Send(s, i, kind, pid))
  {
    if pid in s.processes {
      assert IsPostmaster(s.processes, pid) || s.processes[pid].Stranger?;
      assert i !in s.early;
    }
  }

  lemma SpawnDecent(s: State, i: Id, phase: Phase, pid: Pid)
    requires Safe(s) && !SomePostmaster(s.processes)
    ensures Decent(s, i, phase, Spawn(s, i, pid))
  {
    assert forall q :: !IsPostmaster(s.processes, q);
  }

  lemma EffectDecent(s: State, i: Id, phase: Phase, move: Move)
    requires Safe(s) && i in s.instances && s.instances[i] == phase
    requires Relies(s.processes, s.file, i, Knows(phase))
    ensures Decent(s, i, phase, Effect(s, i, phase, move))
  {
    match phase
    case ReapStopping(_, _, pid) => if IsPostmaster(s.processes, pid) { SendDecent(s, i, phase, ByReap, pid); }
    case ReapFallback(_, _, pid) => SendDecent(s, i, phase, ByReapFallback, pid);
    case StopSignalling(pid) => if IsPostmaster(s.processes, pid) { SendDecent(s, i, phase, ByStop, pid); }
    case Killing(pid) => if IsPostmaster(s.processes, pid) { SendDecent(s, i, phase, ByStop, pid); }
    case Launching(_) => if CanLaunch(s, move) { SpawnDecent(s, i, phase, move.pid); }
    case _ =>
  }

  lemma EnterSafe(s: State, i: Id, phase: Phase)
    requires Exclusive(s) && Named(s.processes, s.file) && i in s.instances
    requires forall g :: g in s.signals ==> Proper(g)
    requires HoldsLock(phase) ==> s.lock.None? || s.lock == Some(i)
    requires forall q :: IsPostmaster(s.processes, q) ==>
               var launcher := s.processes[q].launcher;
               launcher in s.instances
               && (s.instances[launcher].Dead? || s.lock == Some(launcher) || launcher in s.early || launcher == i)
    requires forall j :: j in s.early ==>
               j in s.instances
               && if j == i then phase == Released(false) || phase.Dead?
                  else s.instances[j] == Released(false) || s.instances[j].Dead?
    requires i in s.early || Relies(s.processes, s.file, i, Knows(phase))
    requires !s.instances[i].Dead?
    requires HolderKnows(s) || HoldsLock(phase) || s.lock == Some(i)
    ensures Safe(Enter(s, i, phase))
  {
  }

  /** Without the lock, an instance that has not released early has no postmaster alive. */
  lemma EveryoneKnows(s: State, i: Id)
    requires Safe(s) && i in s.instances && !s.instances[i].Dead? && i !in s.early
    ensures Relies(s.processes, s.file, i, Knows(s.instances[i]))
  {
  }

  lemma AllJustified(s: State, i: Id, phase: Phase, move: Move)
    requires Named(s.processes, s.file) && Relies(s.processes, s.file, i, Knows(phase))
    requires i in s.instances && s.instances[i] == phase
    ensures ReleasesEarly(s, i, phase, move) || Justified(s, i, phase, move, NextPhase(s, phase, move))
  {
    if InReap(phase) { ReapJustified(s, i, phase, move); }
    else if InLaunch(phase) { LaunchJustified(s, i, phase, move); }
    else if InStop(phase) { StopJustified(s, i, phase, move); }
    else { LockJustified(s, i, phase, move); }
  }

  /** A decent effect, and then a phase whose knowledge is true or given up early. */
  lemma EnterAfterwards(s: State, i: Id, after: State, next: Phase, early: bool)
    requires Safe(s) && i in s.instances && !s.instances[i].Dead? && i !in s.early
    requires Decent(s, i, s.instances[i], after)
    requires HoldsLock(next) ==> s.lock.None? || s.lock == Some(i)
    requires s.lock == Some(i) || (after == s && !early)
    requires if early then next == Released(false) else Relies(after.processes, after.file, i, Knows(next))
    ensures Safe(Enter(Note(after, i, early), i, next))
  {
    EnterSafe(Note(after, i, early), i, next);
  }

  lemma MoveSafe(s: State, i: Id, move: Move)
    requires Safe(s) && i in s.instances && !s.instances[i].Dead? && !move.Crash?
    requires i !in s.early
    ensures Safe(InstanceStep(s, i, move))
  {
    var phase := s.instances[i];
    EveryoneKnows(s, i);
    EffectDecent(s, i, phase, move);
    AllJustified(s, i, phase, move);
    LockFollows(s, i, phase, move);
    var early := ReleasesEarly(s, i, phase, move);
    assert early ==> NextPhase(s, phase, move) == Released(false) && s.lock == Some(i);
    EnterAfterwards(s, i, Effect(s, i, phase, move), NextPhase(s, phase, move), early);
  }

  /** An instance that is through with the directory takes no step that matters. */
  lemma ReleasedStays(s: State, i: Id, move: Move)
    requires Exclusive(s) && i in s.instances && s.instances[i].Released? && !move.Crash?
    ensures InstanceStep(s, i, move) == s
  {
    assert s.instances[i := s.instances[i]] == s.instances;
  }

  /** Only taking the lock makes an instance a holder, and only a holder touches the world. */
  lemma LockFollows(s: State, i: Id, phase: Phase, move: Move)
    requires Safe(s) && i in s.instances && s.instances[i] == phase && !phase.Dead?
    ensures HoldsLock(NextPhase(s, phase, move)) ==> s.lock.None? || s.lock == Some(i)
    ensures s.lock == Some(i) || Effect(s, i, phase, move) == s
  {
  }

  lemma CrashSafe(s: State, i: Id)
    requires Safe(s) && i in s.instances && !s.instances[i].Dead?
    ensures Safe(InstanceStep(s, i, Crash))
  {
    EnterSafe(s, i, Dead);
  }

  /** A step of the world outside the instances. */
  lemma WorldSafe(s: State, e: Event)
    requires Safe(s) && !e.Moved? && !e.Born?
    ensures Safe(Step(s, e))
  {
    var after := Step(s, e);
    assert forall q :: IsPostmaster(after.processes, q) ==>
             IsPostmaster(s.processes, q) && after.processes[q] == s.processes[q];
    if e.FileDamaged? && !SomePostmaster(s.processes) {
      assert forall q :: !IsPostmaster(s.processes, q);
    }
  }

  lemma BirthSafe(s: State, i: Id)
    requires Safe(s)
    ensures Safe(Step(s, Born(i)))
  {
  }

  lemma StepSafe(s: State, e: Event)
    requires Safe(s)
    ensures Safe(Step(s, e))
  {
    if e.Born? { BirthSafe(s, e.i); }
    else if !e.Moved? { WorldSafe(s, e); }
    else if e.i in s.instances && !s.instances[e.i].Dead? {
      if e.move.Crash? { CrashSafe(s, e.i); }
      else if e.i in s.early { ReleasedStays(s, e.i, e.move); }
      else { MoveSafe(s, e.i, e.move); }
    }
  }

  // ----- all runs

  lemma {:induction false} RunSafe(events: seq<Event>)
    ensures Safe(Run(events))
  {
    if events != [] {
      RunSafe(events[..|events| - 1]);
      StepSafe(Run(events[..|events| - 1]), events[|events| - 1]);
    }
  }

  lemma RunSnoc(events: seq<Event>, e: Event)
    ensures Run(events + [e]) == Step(Run(events), e)
  {
    assert (events + [e])[..|events|] == events;
  }

  /**
   * Over all runs of any number of instances, with crashes, orphans and reused
   * pids: what Stop or the force-kill signals is the postmaster of that very
   * instance; and reaping signals the postmaster of another live instance exactly
   * when that instance had released the lock early.
   */
  lemma SignalsAreProper(events: seq<Event>, g: Signal)
    requires g in Run(events).signals
    ensures !g.kind.ByReapFallback? ==> g.target.Postmaster?
    ensures g.kind.ByStop? ==> g.target.launcher == g.sender
    ensures HitsAnother(g) <==> g.target.Postmaster? && g.target.launcher in g.living && g.target.launcher in g.early
  {
    RunSafe(events);
  }

  predicate Holds(s: State, i: Id) {
    i in s.instances && HoldsLock(s.instances[i])
  }

  /** Two instances never hold the lock at once, and a live postmaster is unique. */
  lemma OneOwnerOnePostmaster(events: seq<Event>)
    ensures var s := Run(events);
            && (forall i, j :: Holds(s, i) && Holds(s, j) ==> i == j)
            && (forall p, q :: IsPostmaster(s.processes, p) && IsPostmaster(s.processes, q) ==> p == q)
  {
    RunSafe(events);
  }

  /** A postmaster that the instance launched is alive. */
  ghost predicate OwnAlive(s: State, i: Id) {
    exists pid :: IsPostmaster(s.processes, pid) && s.processes[pid].launcher == i
  }

  lemma StepReleasesEarly(s: State, e: Event, i: Id)
    requires i !in s.early && i in Step(s, e).early
    ensures e.Moved? && e.i == i && i in s.instances && ReleasesEarly(s, i, s.instances[i], e.move)
  {
  }

  lemma EarlyReleaseLeavesIt(s: State, i: Id, move: Move)
    requires i in s.instances && ReleasesEarly(s, i, s.instances[i], move)
    ensures OwnAlive(Step(s, Moved(i, move)), i)
  {
    var pid := s.instances[i].pid;
    assert Step(s, Moved(i, move)).processes == s.processes;
    assert IsPostmaster(s.processes, pid);
  }

  /**
   * A live instance gives up the lock with a postmaster of its own alive exactly in
   * the probe of a failed start that does not recognise that postmaster: never on a
   * path of Stop, and on no other path of a failed start.
   */
  lemma LockReleasedOnlyWhenDown(events: seq<Event>, e: Event, i: Id)
    requires Run(events).lock == Some(i) && Run(events + [e]).lock != Some(i)
    requires i in Run(events + [e]).instances && !Run(events + [e]).instances[i].Dead?
    ensures i in Run(events).instances
    ensures OwnAlive(Run(events + [e]), i) <==>
            e.Moved? && e.i == i && ReleasesEarly(Run(events), i, Run(events).instances[i], e.move)
  {
    RunSafe(events);
    RunSafe(events + [e]);
    RunSnoc(events, e);
    var s, after := Run(events), Run(events + [e]);
    assert i !in s.early;
    if OwnAlive(after, i) {
      assert i in after.early;
      StepReleasesEarly(s, e, i);
    }
    if e.Moved? && e.i == i && ReleasesEarly(s, i, s.instances[i], e.move) {
      EarlyReleaseLeavesIt(s, i, e.move);
    }
  }

  /** The instance is through, and nothing that it launched is alive. */
  ghost predicate DownForGood(s: State, i: Id) {
    i in s.instances && (s.instances[i] == Released(true) || s.instances[i].Dead?) && !OwnAlive(s, i)
  }

  /** An instance launches postmasters only in its own name. */
  lemma LaunchesItsOwn(s: State, j: Id, phase: Phase, move: Move, pid: Pid)
    requires IsPostmaster(Effect(s, j, phase, move).processes, pid)
    ensures (IsPostmaster(s.processes, pid) && Effect(s, j, phase, move).processes[pid] == s.processes[pid])
            || (phase.Launching? && Effect(s, j, phase, move).processes[pid].launcher == j)
  {
  }

  lemma MoveKeepsDown(s: State, j: Id, move: Move, i: Id)
    requires Exclusive(s) && DownForGood(s, i) && j in s.instances && !s.instances[j].Dead?
    ensures DownForGood(InstanceStep(s, j, move), i)
  {
    if move.Crash? {
      assert InstanceStep(s, j, move).processes == s.processes;
    } else if j == i {
      ReleasedStays(s, i, move);
    } else {
      OthersKeepDown(s, j, move, i);
    }
  }

  lemma OthersKeepDown(s: State, j: Id, move: Move, i: Id)
    requires DownForGood(s, i) && j in s.instances && !s.instances[j].Dead? && !move.Crash? && j != i
    ensures DownForGood(InstanceStep(s, j, move), i)
  {
    var effect, after := Effect(s, j, s.instances[j], move), InstanceStep(s, j, move);
    assert after.processes == effect.processes && after.instances[i] == s.instances[i];
    forall pid | IsPostmaster(effect.processes, pid) ensures effect.processes[pid].launcher != i {
      LaunchesItsOwn(s, j, s.instances[j], move, pid);
      assert IsPostmaster(s.processes, pid) ==> s.processes[pid].launcher != i;
    }
  }

  lemma StepKeepsDown(s: State, e: Event, i: Id)
    requires Exclusive(s) && DownForGood(s, i)
    ensures DownForGood(Step(s, e), i)
  {
    if e.Moved? {
      if e.i in s.instances && !s.instances[e.i].Dead? {
        MoveKeepsDown(s, e.i, e.move, i);
      }
    } else {
      var after := Step(s, e);
      forall pid | IsPostmaster(after.processes, pid) ensures after.processes[pid].launcher != i {
        assert IsPostmaster(s.processes, pid) && s.processes[pid] == after.processes[pid];
      }
    }
  }

  /**
   * Once its first Stop has returned success, no postmaster of the instance is ever
   * alive again, even after the instance has died.
   */
  lemma {:induction false} StoppedMeansGone(events: seq<Event>, more: seq<Event>, i: Id)
    requires i in Run(events).instances && Run(events).instances[i] == Released(true)
    ensures DownForGood(Run(events + more), i)
  {
    if more == [] {
      RunSafe(events);
      assert events + more == events;
    } else {
      var front, last := more[..|more| - 1], more[|more| - 1];
      StoppedMeansGone(events, front, i);
      assert events + front + [last] == events + more;
      RunSnoc(events + front, last);
      RunSafe(events + front);
      StepKeepsDown(Run(events + front), last, i);
    }
  }

  /** The probe of a failed start: it gives up the lock exactly when the check says no, ... */
  lemma ProbeDecides(s: State, i: Id, pid: Pid, answer: bool)
    requires i in s.instances && s.instances[i] == FailChecking(pid) && s.lock == Some(i)
    requires answer ==> IsPostmaster(s.processes, pid)
    ensures var after := Step(s, Moved(i, ProbeAfterFailure(answer)));
            after.processes == s.processes && (after.lock == Some(i) <==> answer)
  {
    var next := NextLock(s, FailChecking(pid), ProbeAfterFailure(answer));
    assert next == if answer then Retained else Released(false);
  }

  /** ... which is early exactly when the process it was asked about is the instance's own postmaster. */
  lemma EarlyReleaseIff(events: seq<Event>, i: Id, pid: Pid, answer: bool)
    requires i in Run(events).instances && Run(events).instances[i] == FailChecking(pid)
    requires answer ==> IsPostmaster(Run(events).processes, pid)
    ensures var s, after := Run(events), Run(events + [Moved(i, ProbeAfterFailure(answer))]);
            (after.lock != Some(i) && OwnAlive(after, i))
            <==> !answer && IsPostmaster(s.processes, pid) && s.processes[pid].launcher == i
  {
    RunSafe(events);
    RunSnoc(events, Moved(i, ProbeAfterFailure(answer)));
    OwnPostmasterIsNamed(Run(events), i, pid);
    ProbeDecides(Run(events), i, pid, answer);
  }

  lemma OwnPostmasterIsNamed(s: State, i: Id, pid: Pid)
    requires Safe(s) && i in s.instances && s.instances[i] == FailChecking(pid)
    ensures s.lock == Some(i)
    ensures forall q :: IsPostmaster(s.processes, q) && s.processes[q].launcher == i ==> q == pid
  {
    assert HoldsLock(FailChecking(pid));
    assert Relies(s.processes, s.file, i, Knows(FailChecking(pid)));
  }

  // ----- runs that reach the limits of those results

  /** A move of the lock holder that leaves the rest of the world as it is. */
  lemma Quiet(events: seq<Event>, i: Id, move: Move, next: Phase)
    requires var s := Run(events); i in s.instances && s.lock == Some(i) && !s.instances[i].Dead?
    requires !move.Crash? && HoldsLock(next)
    requires NextPhase(Run(events), Run(events).instances[i], move) == next
    requires Effect(Run(events), i, Run(events).instances[i], move) == Run(events)
    ensures Run(events + [Moved(i, move)]) == Run(events).(instances := Run(events).instances[i := next])
  {
    RunSnoc(events, Moved(i, move));
  }

  const FIRST := Recovery(0, false, false)
  const FAILURE := StartError(false, false)

  /** A new instance finds the lock free and has it when it first loads the password, ... */
  lemma Locking(before: seq<Event>, i: Id) returns (events: seq<Event>)
    requires i !in Run(before).instances && Run(before).lock == None
    ensures Run(events) == Run(before).(instances := Run(before).instances[i := LoadingPassword], lock := Some(i))
  {
    var born := before + [Born(i)];
    RunSnoc(before, Born(i));
    RunSnoc(born, Moved(i, Lock));
    BornWaiting(Run(before), i);
    TakesFreeLock(Run(born), i);
    events := born + [Moved(i, Lock)];
    assert Run(events).instances == Run(before).instances[i := LoadingPassword];
  }

  lemma BornWaiting(s: State, i: Id)
    requires i !in s.instances && s.lock == None
    ensures Step(s, Born(i)) == s.(instances := s.instances[i := Waiting])
  {
  }

  lemma TakesFreeLock(s: State, i: Id)
    requires i in s.instances && s.instances[i] == Waiting && s.lock == None
    ensures Step(s, Moved(i, Lock)) == s.(instances := s.instances[i := LoadingPassword], lock := Some(i))
  {
  }

  /** ... and goes on to look for an orphan. */
  lemma Starting(before: seq<Event>, i: Id) returns (events: seq<Event>)
    requires i !in Run(before).instances && Run(before).lock == None
    ensures Run(events) ==
            Run(before).(instances := Run(before).instances[i := ReapReading(FIRST, ThenLaunch)], lock := Some(i))
  {
    var known := Run(before).instances;
    var locked := Locking(before, i);
    Quiet(locked, i, ReadPassword(true), AtLoop(FIRST));
    var ready := locked + [Moved(i, ReadPassword(true))];
    Quiet(ready, i, Loop(false), ReapReading(FIRST, ThenLaunch));
    events := ready + [Moved(i, Loop(false))];
    assert Run(ready).instances == known[i := AtLoop(FIRST)];
    assert Run(events).instances == known[i := ReapReading(FIRST, ThenLaunch)];
  }

  /** The first instance of a fresh directory comes to its first launch. */
  lemma ReachesLaunch() returns (events: seq<Event>)
    ensures Run(events) == State(map[], Missing, Some(0), map[0 := Launching(FIRST)], [], {})
  {
    var started := Starting([], 0);
    assert Run(started).instances == map[0 := ReapReading(FIRST, ThenLaunch)];
    Quiet(started, 0, ReadForReap, StaleReading(FIRST, ThenLaunch, false));
    var read := started + [Moved(0, ReadForReap)];
    assert Run(read).instances == map[0 := StaleReading(FIRST, ThenLaunch, false)];
    Quiet(read, 0, ReadForStale, Launching(FIRST));
    events := read + [Moved(0, ReadForStale)];
    assert Run(events).instances == map[0 := Launching(FIRST)];
  }

  /** The launch may fail halfway and leave its postmaster running. */
  lemma ReachesHalfLaunch() returns (events: seq<Event>)
    ensures Run(events) ==
            State(map[7 := Postmaster(0)], Names(7), Some(0), map[0 := LaunchFailed(FIRST, FAILURE)], [], {})
  {
    var before := ReachesLaunch();
    events := before + [Moved(0, LaunchLeaves(7, FAILURE))];
    RunSnoc(before, Moved(0, LaunchLeaves(7, FAILURE)));
    assert map[0 := Launching(FIRST)][0 := LaunchFailed(FIRST, FAILURE)] == map[0 := LaunchFailed(FIRST, FAILURE)];
  }

  lemma ReachesFailure() returns (events: seq<Event>)
    ensures Run(events) == State(map[7 := Postmaster(0)], Names(7), Some(0), map[0 := FailReading], [], {})
  {
    var before := ReachesHalfLaunch();
    Quiet(before, 0, HandleError, FailReading);
    events := before + [Moved(0, HandleError)];
    assert Run(events).instances == map[0 := FailReading];
  }

  /** The failed start then checks the process that the pid file names. */
  lemma ReachesFailedStart() returns (events: seq<Event>)
    ensures Run(events) == State(map[7 := Postmaster(0)], Names(7), Some(0), map[0 := FailChecking(7)], [], {})
  {
    var failed := ReachesFailure();
    Quiet(failed, 0, ReadAfterFailure, FailChecking(7));
    events := failed + [Moved(0, ReadAfterFailure)];
    assert Run(events).instances == map[0 := FailChecking(7)];
  }

  /** If the identity check cannot answer there, the lock goes with the instance and its postmaster both alive. */
  lemma UnansweredProbeReleasesEarly() returns (events: seq<Event>)
    ensures Run(events) == State(map[7 := Postmaster(0)], Names(7), None, map[0 := Released(false)], [], {0})
  {
    var before := ReachesFailedStart();
    events := before + [Moved(0, ProbeAfterFailure(false))];
    RunSnoc(before, Moved(0, ProbeAfterFailure(false)));
    assert map[0 := FailChecking(7)][0 := Released(false)] == map[0 := Released(false)];
    assert IsPostmaster(Run(before).processes, 7);
  }

  /** A new instance finds a live postmaster in the pid file and is about to stop it. */
  lemma Reaping(before: seq<Event>, i: Id, pid: Pid) returns (events: seq<Event>)
    requires i !in Run(before).instances && Run(before).lock == None
    requires Run(before).file == Names(pid) && pid in Run(before).processes
    ensures Run(events) ==
            Run(before).(instances := Run(before).instances[i := ReapStopping(FIRST, ThenLaunch, pid)], lock := Some(i))
  {
    var read := Noticing(before, i, pid);
    Quiet(read, i, ProbeForReap, ReapStopping(FIRST, ThenLaunch, pid));
    events := read + [Moved(i, ProbeForReap)];
    assert Run(events).instances == Run(before).instances[i := ReapStopping(FIRST, ThenLaunch, pid)];
  }

  /** A new instance reads the pid of a postmaster from the pid file. */
  lemma Noticing(before: seq<Event>, i: Id, pid: Pid) returns (events: seq<Event>)
    requires i !in Run(before).instances && Run(before).lock == None && Run(before).file == Names(pid)
    ensures Run(events) ==
            Run(before).(instances := Run(before).instances[i := ReapAliveCheck(FIRST, ThenLaunch, pid)],
                         lock := Some(i))
  {
    var started := Starting(before, i);
    Quiet(started, i, ReadForReap, ReapAliveCheck(FIRST, ThenLaunch, pid));
    events := started + [Moved(i, ReadForReap)];
    assert Run(events).instances == Run(before).instances[i := ReapAliveCheck(FIRST, ThenLaunch, pid)];
  }

  /** After an early release another instance may reap the postmaster of the live one. */
  lemma EarlyReleaseCanBeReaped() returns (events: seq<Event>)
    ensures Run(events).signals == [Signal(1, ByReap, Postmaster(0), {0, 1}, {0})]
    ensures HitsAnother(Run(events).signals[0])
  {
    var released := UnansweredProbeReleasesEarly();
    var before := Reaping(released, 1, 7);
    var s := Run(before);
    events := before + [Moved(1, StopOrphan(true, false))];
    RunSnoc(before, Moved(1, StopOrphan(true, false)));
    LivingTwo(s.instances, Released(false), ReapStopping(FIRST, ThenLaunch, 7));
    OrphanSignalled(s, 1, FIRST, 7);
  }

  /** A recognised postmaster is signalled. */
  lemma OrphanSignalled(s: State, i: Id, r: Recovery, pid: Pid)
    requires i in s.instances && s.instances[i] == ReapStopping(r, ThenLaunch, pid) && IsPostmaster(s.processes, pid)
    ensures Step(s, Moved(i, StopOrphan(true, false))).signals ==
            s.signals + [Signal(i, ByReap, s.processes[pid], Living(s.instances), s.early)]
  {
  }

  lemma LivingTwo(instances: map<Id, Phase>, zero: Phase, one: Phase)
    requires instances == map[0 := zero][1 := one] && !zero.Dead? && !one.Dead?
    ensures Living(instances) == {0, 1}
  {
  }

  // ----- the plain signal after pg_ctl

  /** Between its identity check and its plain signal: pg_ctl runs or has just failed. */
  predicate AwaitsCtl(s: State, i: Id, pid: Pid) {
    && i in s.instances
    && (s.instances[i].ReapCtlWaiting? || s.instances[i].ReapFallback?)
    && s.instances[i].pid == pid
  }

  /** The instance stays there throughout the given steps. */
  ghost predicate AwaitsThroughout(before: seq<Event>, more: seq<Event>, i: Id, pid: Pid) {
    && AwaitsCtl(Run(before + more), i, pid)
    && (more != [] ==> AwaitsThroughout(before, more[..|more| - 1], i, pid))
  }

  /** The plain signal, sent to whatever has the pid. */
  function FallbackSignal(s: State, i: Id, pid: Pid): Signal
    requires pid in s.processes
  {
    Signal(i, ByReapFallback, s.processes[pid], Living(s.instances), s.early)
  }

  predicate Exits(e: Event, pid: Pid) {
    e.Exited? && e.pid == pid
  }

  /** While it waits, only its exit ends the orphan, and no new postmaster takes the pid. */
  lemma WaitingStep(s: State, e: Event, i: Id, pid: Pid)
    requires Safe(s) && AwaitsCtl(s, i, pid) && AwaitsCtl(Step(s, e), i, pid)
    ensures IsPostmaster(Step(s, e).processes, pid) <==> IsPostmaster(s.processes, pid) && !Exits(e, pid)
  {
    assert s.lock == Some(i);
    if e.Moved? && e.i in s.instances && !s.instances[e.i].Dead? {
      LockFollows(s, e.i, s.instances[e.i], e.move);
      if e.i == i {
        assert Effect(s, i, s.instances[i], e.move).processes == s.processes;
      }
    }
  }

  lemma {:induction false} OrphanStays(before: seq<Event>, more: seq<Event>, i: Id, pid: Pid)
    requires AwaitsThroughout(before, more, i, pid) && IsPostmaster(Run(before).processes, pid)
    ensures IsPostmaster(Run(before + more).processes, pid) <==> forall e :: e in more ==> !Exits(e, pid)
  {
    if more == [] {
      assert before + more == before;
    } else {
      var front, last := more[..|more| - 1], more[|more| - 1];
      OrphanStays(before, front, i, pid);
      assert before + front + [last] == before + more;
      RunSnoc(before + front, last);
      RunSafe(before + front);
      WaitingStep(Run(before + front), last, i, pid);
      assert more == front + [last];
    }
  }

  /**
   * The identity check does not cover the plain signal that follows a failed pg_ctl.
   * `checked` ends with that check, `more` leads from it to the signal: what has the
   * pid then is signalled, and it is a postmaster exactly when the orphan has not
   * exited since the check.
   */
  lemma FallbackProperIff(checked: seq<Event>, more: seq<Event>, i: Id, pid: Pid)
    requires IsPostmaster(Run(checked).processes, pid) && AwaitsThroughout(checked, more, i, pid)
    requires Run(checked + more).instances[i].ReapFallback?
    ensures var s, after := Run(checked + more), Run(checked + more + [Moved(i, SignalOrphan)]);
            && after.signals == s.signals + (if pid in s.processes
                                             then [FallbackSignal(s, i, pid)]
                                             else [])
            && (IsPostmaster(s.processes, pid) <==> forall e :: e in more ==> !Exits(e, pid))
  {
    OrphanStays(checked, more, i, pid);
    RunSnoc(checked + more, Moved(i, SignalOrphan));
  }

  /** While pg_ctl runs, the orphan may exit and a stranger may get its pid. */
  lemma PidReusedMeanwhile(events: seq<Event>, pid: Pid) returns (longer: seq<Event>)
    requires pid in Run(events).processes
    ensures Run(longer).instances == Run(events).instances && Run(longer).signals == Run(events).signals
    ensures pid in Run(longer).processes && Run(longer).processes[pid] == Stranger
  {
    var gone := events + [Exited(pid, false)];
    longer := gone + [StrangerBorn(pid)];
    RunSnoc(events, Exited(pid, false));
    RunSnoc(gone, StrangerBorn(pid));
  }

  ghost predicate SignalsAStranger(s: State, i: Id) {
    exists g: Signal :: g in s.signals && g.sender == i && g.kind.ByReapFallback? && g.target == Stranger
  }

  /** So wherever a run waits for pg_ctl, it can go on to signal a stranger. */
  lemma FallbackAfterReuse(events: seq<Event>, i: Id, r: Recovery, after: Resume, pid: Pid)
    returns (longer: seq<Event>)
    requires i in Run(events).instances && Run(events).instances[i] == ReapCtlWaiting(r, after, pid)
    requires pid in Run(events).processes
    ensures SignalsAStranger(Run(longer), i)
  {
    var reused := PidReusedMeanwhile(events, pid);
    var failed := reused + [Moved(i, CtlReturns(false))];
    longer := failed + [Moved(i, SignalOrphan)];
    RunSnoc(reused, Moved(i, CtlReturns(false)));
    RunSnoc(failed, Moved(i, SignalOrphan));
    var s := Run(failed);
    assert s.instances[i] == ReapFallback(r, after, pid) && s.processes == Run(reused).processes;
    var sent := Signal(i, ByReapFallback, Stranger, Living(s.instances), s.early);
    assert sent in Send(s, i, ByReapFallback, pid).signals;
  }

  /** An instance launches its postmaster and is killed. */
  lemma ReachesOrphan() returns (events: seq<Event>)
    ensures Run(events) == State(map[7 := Postmaster(0)], Names(7), None, map[0 := Dead], [], {})
  {
    var before := ReachesLaunch();
    var launched := before + [Moved(0, LaunchSucceeds(7))];
    RunSnoc(before, Moved(0, LaunchSucceeds(7)));
    assert Run(launched).instances == map[0 := Capturing(7)];
    events := launched + [Moved(0, Crash)];
    RunSnoc(launched, Moved(0, Crash));
    assert Run(events).instances == map[0 := Dead];
  }

  /** The next instance recognises the orphan and leaves it to pg_ctl. */
  lemma ReachesCtl() returns (events: seq<Event>)
    ensures 1 in Run(events).instances && Run(events).instances[1] == ReapCtlWaiting(FIRST, ThenLaunch, 7)
    ensures IsPostmaster(Run(events).processes, 7)
  {
    var orphaned := ReachesOrphan();
    var before := Reaping(orphaned, 1, 7);
    events := before + [Moved(1, StopOrphan(true, true))];
    RunSnoc(before, Moved(1, StopOrphan(true, true)));
    assert IsPostmaster(Run(before).processes, 7);
  }

  /** From a fresh directory a run can come to signal a stranger. */
  lemma FallbackCanSignalAStranger() returns (events: seq<Event>)
    ensures SignalsAStranger(Run(events), 1)
  {
    var waiting := ReachesCtl();
    events := FallbackAfterReuse(waiting, 1, FIRST, ThenLaunch, 7);
  }
}
