/**
 * What starting and stopping come to (internal/embedded/postgres.go): from any state
 * in which their conditions hold, the steps that lead to a running postmaster of the
 * instance, past orphans and stale files, and those that lead to its end.
 */
module OwnershipRuns {
  import opened Options
  import opened Ownership

  /** The state after more steps. */
  function Steps(s: State, more: seq<Event>): State {
    if more == [] then s else Step(Steps(s, more[..|more| - 1]), more[|more| - 1])
  }

  lemma StepsSnoc(s: State, more: seq<Event>, e: Event)
    ensures Steps(s, more + [e]) == Step(Steps(s, more), e)
  {
    assert (more + [e])[..|more|] == more;
  }

  lemma {:induction false} StepsAppend(s: State, one: seq<Event>, more: seq<Event>)
    ensures Steps(s, one + more) == Steps(Steps(s, one), more)
  {
    if more == [] {
      assert one + more == one;
    } else {
      var front, last := more[..|more| - 1], more[|more| - 1];
      StepsAppend(s, one, front);
      StepsSnoc(s, one + front, last);
      assert one + front + [last] == one + more;
    }
  }

  lemma {:induction false} RunSteps(events: seq<Event>, more: seq<Event>)
    ensures Run(events + more) == Steps(Run(events), more)
  {
    if more == [] {
      assert events + more == events;
    } else {
      var front, last := more[..|more| - 1], more[|more| - 1];
      RunSteps(events, front);
      RunSnoc(events + front, last);
      assert events + front + [last] == events + more;
    }
  }

  /** The instance holds the lock and stands here. */
  predicate At(s: State, i: Id, phase: Phase) {
    i in s.instances && s.instances[i] == phase && s.lock == Some(i)
  }

  function To(s: State, i: Id, phase: Phase): State {
    s.(instances := s.instances[i := phase])
  }

  /** One more step of an instance that changes nothing but its phase. */
  lemma Then(s: State, more: seq<Event>, i: Id, phase: Phase, move: Move, next: Phase) returns (longer: seq<Event>)
    requires At(Steps(s, more), i, phase) && HoldsLock(phase) && HoldsLock(next) && !move.Crash?
    requires NextPhase(Steps(s, more), phase, move) == next
    requires Effect(Steps(s, more), i, phase, move) == Steps(s, more)
    ensures Steps(s, longer) == To(Steps(s, more), i, next) && At(Steps(s, longer), i, next)
  {
    longer := more + [Moved(i, move)];
    StepsSnoc(s, more, Moved(i, move));
  }

  // ----- starting

  lemma Begins(s: State, i: Id) returns (more: seq<Event>)
    requires i !in s.instances && s.lock == None
    ensures Steps(s, more) == To(s, i, LoadingPassword).(lock := Some(i))
  {
    var born := [Born(i)];
    StepsSnoc(s, [], Born(i));
    assert [] + born == born;
    BornWaiting(s, i);
    more := Locks(s, born, i);
    assert Steps(s, more).instances == s.instances[i := LoadingPassword];
  }

  lemma Locks(s: State, more: seq<Event>, i: Id) returns (longer: seq<Event>)
    requires var t := Steps(s, more); i in t.instances && t.instances[i] == Waiting && t.lock == None
    ensures Steps(s, longer) == To(Steps(s, more), i, LoadingPassword).(lock := Some(i))
  {
    longer := more + [Moved(i, Lock)];
    StepsSnoc(s, more, Moved(i, Lock));
    TakesFreeLock(Steps(s, more), i);
  }

  lemma LooksForOrphan(s: State, i: Id) returns (more: seq<Event>)
    requires i !in s.instances && s.lock == None
    ensures Steps(s, more) == To(s, i, ReapReading(FIRST, ThenLaunch)).(lock := Some(i))
  {
    more := Begins(s, i);
    more := Then(s, more, i, LoadingPassword, ReadPassword(true), AtLoop(FIRST));
    more := Then(s, more, i, AtLoop(FIRST), Loop(false), ReapReading(FIRST, ThenLaunch));
    assert Steps(s, more).instances == s.instances[i := ReapReading(FIRST, ThenLaunch)];
  }

  /** A pid file that names nobody, or a process that is not recognised, is no orphan. */
  lemma FindsNoOrphan(s: State, i: Id, r: Recovery, after: Resume) returns (more: seq<Event>)
    requires At(s, i, ReapReading(r, after)) && !SomePostmaster(s.processes)
    ensures Steps(s, more) == To(s, i, StaleReading(r, after, false))
  {
    if s.file.Names? {
      more := JudgesNamed(s, i, r, after, s.file.pid);
    } else {
      more := Then(s, [], i, ReapReading(r, after), ReadForReap, StaleReading(r, after, false));
    }
  }

  lemma JudgesNamed(s: State, i: Id, r: Recovery, after: Resume, pid: Pid) returns (more: seq<Event>)
    requires At(s, i, ReapReading(r, after)) && s.file == Names(pid) && !IsPostmaster(s.processes, pid)
    ensures Steps(s, more) == To(s, i, StaleReading(r, after, false))
  {
    more := Then(s, [], i, ReapReading(r, after), ReadForReap, ReapAliveCheck(r, after, pid));
    if pid in s.processes {
      more := LeavesStranger(s, more, i, r, after, pid);
    } else {
      more := Then(s, more, i, ReapAliveCheck(r, after, pid), ProbeForReap, StaleReading(r, after, false));
    }
    assert Steps(s, more).instances == s.instances[i := StaleReading(r, after, false)];
  }

  lemma LeavesStranger(s: State, more: seq<Event>, i: Id, r: Recovery, after: Resume, pid: Pid)
    returns (longer: seq<Event>)
    requires At(Steps(s, more), i, ReapAliveCheck(r, after, pid)) && pid in Steps(s, more).processes
    ensures Steps(s, longer) == To(Steps(s, more), i, StaleReading(r, after, false))
  {
    longer := Then(s, more, i, ReapAliveCheck(r, after, pid), ProbeForReap, ReapStopping(r, after, pid));
    longer := Then(s, longer, i, ReapStopping(r, after, pid), StopOrphan(false, false), StaleReading(r, after, false));
    assert Steps(s, longer).instances == Steps(s, more).instances[i := StaleReading(r, after, false)];
  }

  /** Something was removed: the file cannot be parsed or names a dead process. */
  predicate IsStale(s: State) {
    s.file.Unreadable? || (s.file.Names? && s.file.pid !in s.processes)
  }

  lemma RemovesFile(s: State, more: seq<Event>, i: Id, r: Recovery, after: Resume) returns (longer: seq<Event>)
    requires At(Steps(s, more), i, StaleRemoving(r, after)) && HoldsLock(Resumed(r, after, true))
    ensures Steps(s, longer) == To(Steps(s, more), i, Resumed(r, after, true)).(file := Missing)
  {
    longer := more + [Moved(i, RemoveFile)];
    StepsSnoc(s, more, Moved(i, RemoveFile));
  }

  /** A stale pid file is removed, and any other left alone; either counts towards the recovery only if removed. */
  lemma ClearsFile(s: State, i: Id, r: Recovery, after: Resume, reaped: bool) returns (more: seq<Event>)
    requires At(s, i, StaleReading(r, after, reaped))
    ensures Steps(s, more) ==
            To(s, i, Resumed(r, after, reaped || IsStale(s))).(file := if IsStale(s) then Missing else s.file)
  {
    match s.file
    case Missing => more := Then(s, [], i, StaleReading(r, after, reaped), ReadForStale, Resumed(r, after, reaped));
    case Unreadable =>
      more := Then(s, [], i, StaleReading(r, after, reaped), ReadForStale, StaleRemoving(r, after));
      more := RemovesFile(s, more, i, r, after);
      assert Steps(s, more).instances == s.instances[i := Resumed(r, after, true)];
    case Names(pid) => more := ClearsNamed(s, i, r, after, reaped, pid);
  }

  lemma ClearsNamed(s: State, i: Id, r: Recovery, after: Resume, reaped: bool, pid: Pid) returns (more: seq<Event>)
    requires At(s, i, StaleReading(r, after, reaped)) && s.file == Names(pid)
    ensures Steps(s, more) ==
            To(s, i, Resumed(r, after, reaped || IsStale(s))).(file := if IsStale(s) then Missing else s.file)
  {
    more := Then(s, [], i, StaleReading(r, after, reaped), ReadForStale, StaleAliveCheck(r, after, reaped, pid));
    if pid in s.processes {
      more := Then(s, more, i, StaleAliveCheck(r, after, reaped, pid), ProbeForStale, Resumed(r, after, reaped));
      assert Steps(s, more).instances == s.instances[i := Resumed(r, after, reaped)];
    } else {
      more := ClearsDead(s, more, i, r, after, reaped, pid);
      assert Steps(s, more).instances == s.instances[i := Resumed(r, after, true)];
    }
  }

  lemma ClearsDead(s: State, more: seq<Event>, i: Id, r: Recovery, after: Resume, reaped: bool, pid: Pid)
    returns (longer: seq<Event>)
    requires At(Steps(s, more), i, StaleAliveCheck(r, after, reaped, pid)) && pid !in Steps(s, more).processes
    ensures Steps(s, longer) == To(Steps(s, more), i, Resumed(r, after, true)).(file := Missing)
  {
    longer := Then(s, more, i, StaleAliveCheck(r, after, reaped, pid), ProbeForStale, StaleRemoving(r, after));
    longer := RemovesFile(s, longer, i, r, after);
    assert Steps(s, longer).instances == Steps(s, more).instances[i := Resumed(r, after, true)];
  }

  /** On every run, an instance that captures its pid while its postmaster is alive runs at that very pid. */
  lemma CapturesItsOwn(events: seq<Event>, i: Id)
    requires i in Run(events).instances && Run(events).instances[i].Capturing? && OwnAlive(Run(events), i)
    ensures var s, after := Run(events), Run(events + [Moved(i, CapturePid)]);
            var pid := s.instances[i].pid;
            && IsPostmaster(s.processes, pid) && s.processes[pid].launcher == i
            && At(after, i, Running(pid)) && after.processes == s.processes && after.file == Names(pid)
  {
    RunSafe(events);
    RunSnoc(events, Moved(i, CapturePid));
    CapturingKnows(Run(events), i, Run(events).instances[i].pid);
    PidIsCaptured(Run(events), i, Run(events).instances[i].pid);
  }

  lemma CapturingKnows(s: State, i: Id, pid: Pid)
    requires Safe(s) && i in s.instances && s.instances[i] == Capturing(pid) && OwnAlive(s, i)
    ensures s.lock == Some(i) && s.file == Names(pid)
    ensures IsPostmaster(s.processes, pid) && s.processes[pid].launcher == i
  {
    assert HoldsLock(Capturing(pid));
    assert Relies(s.processes, s.file, i, Knows(Capturing(pid)));
    var q :| IsPostmaster(s.processes, q) && s.processes[q].launcher == i;
  }

  lemma PidIsCaptured(s: State, i: Id, pid: Pid)
    requires At(s, i, Capturing(pid)) && s.file == Names(pid)
    ensures Step(s, Moved(i, CapturePid)) == To(s, i, Running(pid))
  {
  }

  /** The instance runs, and its postmaster is the one it captured. */
  ghost predicate Runs(s: State, i: Id, pid: Pid) {
    && At(s, i, Running(pid)) && IsPostmaster(s.processes, pid) && s.processes[pid].launcher == i
    && s.file == Names(pid)
  }

  lemma LaunchesAndRuns(s: State, i: Id, r: Recovery, pid: Pid) returns (more: seq<Event>)
    requires At(s, i, Launching(r)) && !SomePostmaster(s.processes) && pid !in s.processes
    ensures Runs(Steps(s, more), i, pid)
    ensures Steps(s, more).processes == s.processes[pid := Postmaster(i)] && Steps(s, more).signals == s.signals
  {
    var launched := [Moved(i, LaunchSucceeds(pid))];
    StepsSnoc(s, [], Moved(i, LaunchSucceeds(pid)));
    assert [] + launched == launched;
    more := Then(s, launched, i, Capturing(pid), CapturePid, Running(pid));
  }

  /** Where no postmaster lives and the lock is free a new instance can start one, whatever the pid file holds. */
  lemma StartSucceeds(s: State, i: Id, pid: Pid) returns (more: seq<Event>)
    requires i !in s.instances && s.lock == None && !SomePostmaster(s.processes) && pid !in s.processes
    ensures Runs(Steps(s, more), i, pid)
    ensures Steps(s, more).processes == s.processes[pid := Postmaster(i)] && Steps(s, more).signals == s.signals
  {
    var looking := LooksForOrphan(s, i);
    var checking := FindsNoOrphan(Steps(s, looking), i, FIRST, ThenLaunch);
    StepsAppend(s, looking, checking);
    var ready := StartsCleared(Steps(s, looking + checking), i, pid);
    StepsAppend(s, looking + checking, ready);
    more := looking + checking + ready;
  }

  lemma StartsCleared(s: State, i: Id, pid: Pid) returns (more: seq<Event>)
    requires At(s, i, StaleReading(FIRST, ThenLaunch, false)) && !SomePostmaster(s.processes) && pid !in s.processes
    ensures Runs(Steps(s, more), i, pid)
    ensures Steps(s, more).processes == s.processes[pid := Postmaster(i)] && Steps(s, more).signals == s.signals
  {
    var clearing := ClearsFile(s, i, FIRST, ThenLaunch, false);
    var launching := LaunchesAndRuns(Steps(s, clearing), i, Resumed(FIRST, ThenLaunch, IsStale(s)).r, pid);
    StepsAppend(s, clearing, launching);
    more := clearing + launching;
  }

  // ----- reaping

  /** The signal that reaping sends to a recognised orphan, with pg_ctl or without. */
  function ReapSignal(s: State, i: Id, pid: Pid): Signal
    requires pid in s.processes
  {
    Signal(i, ByReap, s.processes[pid], Living(s.instances), s.early)
  }

  lemma SignalsOrphan(s: State, i: Id, r: Recovery, after: Resume, pid: Pid, usesCtl: bool) returns (more: seq<Event>)
    requires At(s, i, ReapStopping(r, after, pid)) && IsPostmaster(s.processes, pid)
    ensures Steps(s, more) ==
            To(s, i, if usesCtl then ReapCtlWaiting(r, after, pid) else ReapWaiting(r, after, pid)).
              (signals := s.signals + [ReapSignal(s, i, pid)])
  {
    more := [Moved(i, StopOrphan(true, usesCtl))];
    StepsSnoc(s, [], Moved(i, StopOrphan(true, usesCtl)));
    assert [] + more == more;
  }

  lemma OrphanExits(s: State, more: seq<Event>, pid: Pid) returns (longer: seq<Event>)
    requires pid in Steps(s, more).processes
    ensures Steps(s, longer) == Steps(s, more).(processes := Steps(s, more).processes - {pid})
  {
    longer := more + [Exited(pid, false)];
    StepsSnoc(s, more, Exited(pid, false));
  }

  /** Once the orphan has exited its file is removed. */
  lemma OrphanIsGone(s: State, i: Id, r: Recovery, after: Resume, pid: Pid, usesCtl: bool) returns (more: seq<Event>)
    requires At(s, i, if usesCtl then ReapCtlWaiting(r, after, pid) else ReapWaiting(r, after, pid))
    requires pid !in s.processes
    ensures Steps(s, more) == To(s, i, StaleReading(r, after, true)).(file := Missing)
  {
    if usesCtl {
      more := Then(s, [], i, ReapCtlWaiting(r, after, pid), CtlReturns(true), ReapRemoving(r, after));
    } else {
      more := Then(s, [], i, ReapWaiting(r, after, pid), AwaitOrphan(false), ReapRemoving(r, after));
    }
    more := RemovesReaped(s, more, i, r, after);
    assert Steps(s, more).instances == s.instances[i := StaleReading(r, after, true)];
  }

  lemma RemovesReaped(s: State, more: seq<Event>, i: Id, r: Recovery, after: Resume) returns (longer: seq<Event>)
    requires At(Steps(s, more), i, ReapRemoving(r, after))
    ensures Steps(s, longer) == To(Steps(s, more), i, StaleReading(r, after, true)).(file := Missing)
  {
    longer := more + [Moved(i, RemoveFile)];
    StepsSnoc(s, more, Moved(i, RemoveFile));
  }

  lemma ReapsOrphan(s: State, i: Id, r: Recovery, after: Resume, pid: Pid, usesCtl: bool) returns (more: seq<Event>)
    requires At(s, i, ReapStopping(r, after, pid)) && IsPostmaster(s.processes, pid)
    ensures var t := Steps(s, more);
            && At(t, i, StaleReading(r, after, true)) && t.file == Missing && t.processes == s.processes - {pid}
            && t.signals == s.signals + [ReapSignal(s, i, pid)]
  {
    var signalled := SignalsOrphan(s, i, r, after, pid, usesCtl);
    var exited := OrphanExits(s, signalled, pid);
    var gone := OrphanIsGone(Steps(s, exited), i, r, after, pid, usesCtl);
    StepsAppend(s, exited, gone);
    more := exited + gone;
  }

  /** When pg_ctl fails, the plain signal follows, and the orphan's exit is awaited all the same. */
  lemma FallsBack(s: State, i: Id, r: Recovery, after: Resume, pid: Pid) returns (more: seq<Event>)
    requires At(s, i, ReapCtlWaiting(r, after, pid)) && pid in s.processes
    ensures var t := Steps(s, more);
            && At(t, i, StaleReading(r, after, true)) && t.file == Missing && t.processes == s.processes - {pid}
            && t.signals == s.signals + [FallbackSignal(s, i, pid)]
  {
    var sent := SendsPlainSignal(s, i, r, after, pid);
    var exited := OrphanExits(s, sent, pid);
    var gone := OrphanIsGone(Steps(s, exited), i, r, after, pid, false);
    StepsAppend(s, exited, gone);
    more := exited + gone;
  }

  lemma SendsPlainSignal(s: State, i: Id, r: Recovery, after: Resume, pid: Pid) returns (more: seq<Event>)
    requires At(s, i, ReapCtlWaiting(r, after, pid)) && pid in s.processes
    ensures Steps(s, more) ==
            To(s, i, ReapWaiting(r, after, pid)).(signals := s.signals + [FallbackSignal(s, i, pid)])
  {
    more := Then(s, [], i, ReapCtlWaiting(r, after, pid), CtlReturns(false), ReapFallback(r, after, pid));
    assert Living(Steps(s, more).instances) == Living(s.instances);
    StepsSnoc(s, more, Moved(i, SignalOrphan));
    more := more + [Moved(i, SignalOrphan)];
    assert Steps(s, more).instances == s.instances[i := ReapWaiting(r, after, pid)];
  }

  /** An orphan that does not exit in time fails the start. */
  lemma OrphanStaysOn(s: State, i: Id, r: Recovery, after: Resume, pid: Pid)
    requires At(s, i, ReapWaiting(r, after, pid)) && pid in s.processes
    ensures Step(s, Moved(i, AwaitOrphan(true))) == To(s, i, FailReading)
  {
  }

  lemma NoticesOrphan(s: State, i: Id, pid: Pid) returns (more: seq<Event>)
    requires i !in s.instances && s.lock == None && s.file == Names(pid) && pid in s.processes
    ensures Steps(s, more) == To(s, i, ReapStopping(FIRST, ThenLaunch, pid)).(lock := Some(i))
  {
    more := LooksForOrphan(s, i);
    more := Then(s, more, i, ReapReading(FIRST, ThenLaunch), ReadForReap, ReapAliveCheck(FIRST, ThenLaunch, pid));
    more := Then(s, more, i, ReapAliveCheck(FIRST, ThenLaunch, pid), ProbeForReap,
                 ReapStopping(FIRST, ThenLaunch, pid));
    assert Steps(s, more).instances == s.instances[i := ReapStopping(FIRST, ThenLaunch, pid)];
  }

  /** And over a live orphan: it is signalled once, and when it has exited the instance starts its own postmaster. */
  lemma StartsOverOrphan(s: State, i: Id, orphan: Pid, pid: Pid, usesCtl: bool) returns (more: seq<Event>)
    requires Safe(s) && i !in s.instances && s.lock == None
    requires IsPostmaster(s.processes, orphan) && pid !in s.processes
    ensures Runs(Steps(s, more), i, pid)
    ensures |Steps(s, more).signals| == |s.signals| + 1
    ensures var g := Steps(s, more).signals[|s.signals|];
            g.sender == i && g.kind.ByReap? && g.target == s.processes[orphan]
  {
    var noticed := NoticesOrphan(s, i, orphan);
    var reaped := ReapsOrphan(Steps(s, noticed), i, FIRST, ThenLaunch, orphan, usesCtl);
    StepsAppend(s, noticed, reaped);
    var started := StartsReaped(Steps(s, noticed + reaped), i, pid);
    StepsAppend(s, noticed + reaped, started);
    more := noticed + reaped + started;
  }

  lemma StartsReaped(s: State, i: Id, pid: Pid) returns (more: seq<Event>)
    requires At(s, i, StaleReading(FIRST, ThenLaunch, true)) && s.file == Missing
    requires !SomePostmaster(s.processes) && pid !in s.processes
    ensures Runs(Steps(s, more), i, pid) && Steps(s, more).signals == s.signals
  {
    var clearing := ClearsFile(s, i, FIRST, ThenLaunch, true);
    var launching := LaunchesAndRuns(Steps(s, clearing), i, Resumed(FIRST, ThenLaunch, true).r, pid);
    StepsAppend(s, clearing, launching);
    more := clearing + launching;
  }

  // ----- a failed launch

  /** A launch that failed is tried again once for a stale pid file and once for a taken port, and else given up. */
  lemma FailedLaunch(s: State, i: Id, r: Recovery, err: StartError)
    requires At(s, i, LaunchFailed(r, err))
    ensures Step(s, Moved(i, HandleError)) ==
            To(s, i, if err.stalePidFile && !r.staleRecovered then ReapReading(r, ThenRetry(err.portTaken))
                     else if err.portTaken && !r.portRetried
                     then AtLoop(Recovery(r.attempts + 1, r.staleRecovered, true))
                     else FailReading)
  {
  }

  /** A stale pid file behind a failed launch is removed, and the launch tried again; a live one is not retried for. */
  lemma RecoversFromStale(s: State, i: Id, r: Recovery, err: StartError) returns (more: seq<Event>)
    requires At(s, i, LaunchFailed(r, err)) && err.stalePidFile && !r.staleRecovered && !SomePostmaster(s.processes)
    ensures var t := Steps(s, more);
            && i in t.instances && t.lock == Some(i)
            && t.instances[i] == (if IsStale(s) then AtLoop(Recovery(r.attempts + 1, true, r.portRetried))
                                  else RetryPort(r, err.portTaken))
            && t.file == (if IsStale(s) then Missing else s.file)
  {
    var reading := [Moved(i, HandleError)];
    FailedLaunch(s, i, r, err);
    StepsSnoc(s, [], Moved(i, HandleError));
    assert [] + reading == reading;
    var checked := FindsNoOrphan(Steps(s, reading), i, r, ThenRetry(err.portTaken));
    StepsAppend(s, reading, checked);
    var cleared := ClearsFile(Steps(s, reading + checked), i, r, ThenRetry(err.portTaken), false);
    StepsAppend(s, reading + checked, cleared);
    more := reading + checked + cleared;
  }

  /** With a recovery behind it the loop launches without another look at the file; a cancelled start fails. */
  lemma LoopHead(s: State, i: Id, r: Recovery, cancelled: bool)
    requires At(s, i, AtLoop(r)) && r.attempts < MAX_ATTEMPTS
    ensures Step(s, Moved(i, Loop(cancelled))) ==
            To(s, i, if cancelled then FailReading
                     else if r.staleRecovered then Launching(r) else ReapReading(r, ThenLaunch))
  {
  }

  /** An instance that gets no lock, or no password, ends without either. */
  lemma EarlyErrors(s: State, i: Id)
    requires i in s.instances && s.lock != Some(i) && s.instances[i].Waiting?
    ensures Step(s, Moved(i, GiveUp)) == To(s, i, Released(false))
    ensures s.lock.Some? ==> Step(s, Moved(i, Lock)) == s
  {
    assert s.instances[i := Waiting] == s.instances;
  }

  lemma NoPassword(s: State, i: Id)
    requires At(s, i, LoadingPassword)
    ensures Step(s, Moved(i, ReadPassword(false))) == To(s, i, Released(false)).(lock := None)
  {
  }

  /** A launch that the library refuses leaves nothing behind; one that fails later leaves its postmaster. */
  lemma LaunchErrors(s: State, i: Id, r: Recovery, err: StartError, pid: Pid)
    requires At(s, i, Launching(r))
    ensures Step(s, Moved(i, LaunchRefused(err))) == To(s, i, LaunchFailed(r, err))
    ensures !SomePostmaster(s.processes) && pid !in s.processes ==>
              Step(s, Moved(i, LaunchLeaves(pid, err))) ==
              To(s, i, LaunchFailed(r, err)).(processes := s.processes[pid := Postmaster(i)], file := Names(pid))
  {
  }

  /** The counters of the start loop, where the instance has them. */
  function Counters(phase: Phase): Option<Recovery> {
    match phase
    case AtLoop(r) => Some(r)
    case ReapReading(r, _) => Some(r)
    case ReapAliveCheck(r, _, _) => Some(r)
    case ReapStopping(r, _, _) => Some(r)
    case ReapCtlWaiting(r, _, _) => Some(r)
    case ReapFallback(r, _, _) => Some(r)
    case ReapWaiting(r, _, _) => Some(r)
    case ReapRemoving(r, _) => Some(r)
    case StaleReading(r, _, _) => Some(r)
    case StaleAliveCheck(r, _, _, _) => Some(r)
    case StaleRemoving(r, _) => Some(r)
    case Launching(r) => Some(r)
    case LaunchFailed(r, _) => Some(r)
    case _ => None
  }

  predicate RetriesStale(phase: Phase) {
    match phase
    case ReapReading(_, after) => after.ThenRetry?
    case ReapAliveCheck(_, after, _) => after.ThenRetry?
    case ReapStopping(_, after, _) => after.ThenRetry?
    case ReapCtlWaiting(_, after, _) => after.ThenRetry?
    case ReapFallback(_, after, _) => after.ThenRetry?
    case ReapWaiting(_, after, _) => after.ThenRetry?
    case ReapRemoving(_, after) => after.ThenRetry?
    case StaleReading(_, after, _) => after.ThenRetry?
    case StaleAliveCheck(_, after, _, _) => after.ThenRetry?
    case StaleRemoving(_, after) => after.ThenRetry?
    case _ => false
  }

  /** Every further attempt has a recovery of its own behind it. */
  predicate Accounted(phase: Phase) {
    match Counters(phase)
    case None => true
    case Some(r) =>
      && r.attempts <= (if r.staleRecovered then 1 else 0) + (if r.portRetried then 1 else 0)
      && (RetriesStale(phase) ==> !r.staleRecovered)
  }

  lemma ReapAccounted(s: State, phase: Phase, move: Move)
    requires Accounted(phase) && InReap(phase)
    ensures Accounted(NextReap(s, phase, move))
  {
  }

  lemma LaunchAccounted(s: State, phase: Phase, move: Move)
    requires Accounted(phase) && InLaunch(phase)
    ensures Accounted(NextLaunch(s, phase, move))
  {
  }

  lemma StopAccounted(s: State, phase: Phase, move: Move)
    requires InStop(phase)
    ensures Accounted(NextStop(s, phase, move))
  {
    assert Counters(NextStop(s, phase, move)) == None;
  }

  lemma NextAccounted(s: State, phase: Phase, move: Move)
    requires Accounted(phase)
    ensures Accounted(NextPhase(s, phase, move))
  {
    if InReap(phase) { ReapAccounted(s, phase, move); }
    else if InLaunch(phase) { LaunchAccounted(s, phase, move); }
    else if InStop(phase) { StopAccounted(s, phase, move); }
  }

  lemma EnteredPhases(s: State, e: Event, i: Id)
    requires i in Step(s, e).instances
    ensures var after := Step(s, e).instances[i];
            || (i in s.instances && after == s.instances[i])
            || (i in s.instances && e.Moved? && after == NextPhase(s, s.instances[i], e.move))
            || after.Waiting? || after.Dead?
  {
    if e.Moved? {
      assert e.i != i ==> i in s.instances && Step(s, e).instances[i] == s.instances[i];
    }
  }

  lemma {:induction false} AllAccounted(events: seq<Event>, i: Id)
    requires i in Run(events).instances
    ensures Accounted(Run(events).instances[i])
  {
    var s, e := Run(events[..|events| - 1]), events[|events| - 1];
    EnteredPhases(s, e, i);
    if i in s.instances {
      AllAccounted(events[..|events| - 1], i);
      if e.Moved? {
        NextAccounted(s, s.instances[i], e.move);
      }
    }
  }

  /** So the start loop never runs out of attempts: of its errors, that one is never returned. */
  lemma AttemptsNeverRunOut(events: seq<Event>, i: Id)
    requires i in Run(events).instances && Run(events).instances[i].AtLoop?
    ensures Run(events).instances[i].r.attempts < MAX_ATTEMPTS
  {
    AllAccounted(events, i);
  }

  // ----- stopping

  /** The signal that Stop or the force-kill sends to the instance's own postmaster. */
  function StopSignal(s: State, i: Id): Signal {
    Signal(i, ByStop, Postmaster(i), Living(s.instances), s.early)
  }

  lemma VerifiesItsOwn(s: State, i: Id, pid: Pid) returns (more: seq<Event>)
    requires Runs(s, i, pid)
    ensures Steps(s, more) == To(s, i, StopSignalling(pid))
  {
    more := BeginsToStop(s, i, pid);
    more := Then(s, more, i, StopVerifying(pid), Verify(true), StopSignalling(pid));
    assert Steps(s, more).instances == s.instances[i := StopSignalling(pid)];
  }

  lemma BeginsToStop(s: State, i: Id, pid: Pid) returns (more: seq<Event>)
    requires At(s, i, Running(pid))
    ensures Steps(s, more) == To(s, i, if s.file == Names(pid) then StopVerifying(pid) else Deciding(pid, false))
  {
    more := Then(s, [], i, Running(pid), CallStop, StopOwnership(pid));
    if s.file == Names(pid) {
      more := Then(s, more, i, StopOwnership(pid), ReadOwnership, StopVerifying(pid));
    } else {
      more := Then(s, more, i, StopOwnership(pid), ReadOwnership, Deciding(pid, false));
    }
    assert Steps(s, more).instances ==
           s.instances[i := if s.file == Names(pid) then StopVerifying(pid) else Deciding(pid, false)];
  }

  /** When the check does not recognise the process, Stop looks whether there is one at all. */
  lemma LooksWhetherAlive(s: State, i: Id, pid: Pid) returns (more: seq<Event>)
    requires At(s, i, Running(pid)) && s.file == Names(pid)
    ensures Steps(s, more) == To(s, i, Deciding(pid, pid !in s.processes))
  {
    more := BeginsToStop(s, i, pid);
    more := Then(s, more, i, StopVerifying(pid), Verify(false), StopAliveCheck(pid));
    more := Then(s, more, i, StopAliveCheck(pid), ProbeAfterVerify, Deciding(pid, pid !in s.processes));
    assert Steps(s, more).instances == s.instances[i := Deciding(pid, pid !in s.processes)];
  }

  lemma Interrupts(s: State, more: seq<Event>, i: Id, pid: Pid) returns (longer: seq<Event>)
    requires var t := Steps(s, more);
             At(t, i, StopSignalling(pid)) && IsPostmaster(t.processes, pid) && t.processes[pid].launcher == i
    ensures Steps(s, longer) ==
            To(Steps(s, more), i, StopWaiting(pid)).
              (signals := Steps(s, more).signals + [StopSignal(Steps(s, more), i)])
  {
    longer := more + [Moved(i, Interrupt(true, true))];
    StepsSnoc(s, more, Moved(i, Interrupt(true, true)));
  }

  lemma Kills(s: State, more: seq<Event>, i: Id, pid: Pid) returns (longer: seq<Event>)
    requires var t := Steps(s, more);
             At(t, i, Killing(pid)) && IsPostmaster(t.processes, pid) && t.processes[pid].launcher == i
    ensures Steps(s, longer) ==
            To(Steps(s, more), i, KillWaiting(pid)).
              (signals := Steps(s, more).signals + [StopSignal(Steps(s, more), i)])
  {
    longer := more + [Moved(i, Kill(true, true))];
    StepsSnoc(s, more, Moved(i, Kill(true, true)));
  }

  /** The lock is given up exactly when the stop succeeded or nothing has the pid any more; else it is kept for good. */
  lemma Decides(s: State, more: seq<Event>, i: Id, pid: Pid, ok: bool) returns (longer: seq<Event>)
    requires At(Steps(s, more), i, Deciding(pid, ok))
    ensures var t, after := Steps(s, more), Steps(s, longer);
            && after.processes == t.processes && after.signals == t.signals && i in after.instances
            && (ok || pid !in t.processes ==> after.lock == None && after.instances[i] == Released(ok))
            && (!ok && pid in t.processes ==> At(after, i, Retained))
  {
    longer := more + [Moved(i, Decide)];
    StepsSnoc(s, more, Moved(i, Decide));
  }

  /** Stop ends the instance's own postmaster with one signal, returns nil and gives up the lock. */
  lemma StopSucceeds(s: State, i: Id, pid: Pid) returns (more: seq<Event>)
    requires Runs(s, i, pid)
    ensures var t := Steps(s, more);
            && i in t.instances && t.instances[i] == Released(true) && t.lock == None
            && |t.signals| == |s.signals| + 1
            && t.signals[|s.signals|].kind.ByStop? && t.signals[|s.signals|].target == Postmaster(i)
            && pid !in t.processes
  {
    more := VerifiesItsOwn(s, i, pid);
    more := Interrupts(s, more, i, pid);
    more := OrphanExits(s, more, pid);
    more := Then(s, more, i, StopWaiting(pid), AwaitExit(false), Deciding(pid, true));
    more := Decides(s, more, i, pid, true);
  }

  /** When the postmaster does not exit in time it is killed, with a second signal. */
  lemma ExpiresToKill(s: State, i: Id, pid: Pid) returns (more: seq<Event>)
    requires Runs(s, i, pid)
    ensures var t := Steps(s, more);
            && At(t, i, KillWaiting(pid)) && t.processes == s.processes
            && |t.signals| == |s.signals| + 2
            && forall k :: |s.signals| <= k < |t.signals| ==>
                 t.signals[k].kind.ByStop? && t.signals[k].target == Postmaster(i)
  {
    more := VerifiesItsOwn(s, i, pid);
    more := Interrupts(s, more, i, pid);
    more := Then(s, more, i, StopWaiting(pid), AwaitExit(true), Killing(pid));
    more := Kills(s, more, i, pid);
  }

  lemma KillSucceeds(s: State, i: Id, pid: Pid) returns (more: seq<Event>)
    requires Runs(s, i, pid)
    ensures var t := Steps(s, more);
            && i in t.instances && t.instances[i] == Released(true) && t.lock == None
            && |t.signals| == |s.signals| + 2
            && (forall k :: |s.signals| <= k < |t.signals| ==>
                  t.signals[k].kind.ByStop? && t.signals[k].target == Postmaster(i))
            && pid !in t.processes
  {
    more := ExpiresToKill(s, i, pid);
    more := OrphanExits(s, more, pid);
    more := Then(s, more, i, KillWaiting(pid), AwaitKill(false, false), Deciding(pid, true));
    more := Decides(s, more, i, pid, true);
  }

  /** A postmaster that survives the kill keeps the directory locked. */
  lemma KillFails(s: State, i: Id, pid: Pid) returns (more: seq<Event>)
    requires Runs(s, i, pid)
    ensures At(Steps(s, more), i, Retained) && Steps(s, more).processes == s.processes
  {
    more := ExpiresToKill(s, i, pid);
    more := Then(s, more, i, KillWaiting(pid), AwaitKill(true, false), Deciding(pid, false));
    more := Decides(s, more, i, pid, false);
  }

  /** A signal that cannot be delivered makes Stop fail, and the lock is kept while the postmaster lives. */
  lemma SignalRefused(s: State, i: Id, pid: Pid) returns (more: seq<Event>)
    requires Runs(s, i, pid)
    ensures At(Steps(s, more), i, Retained) && Steps(s, more).processes == s.processes
  {
    more := VerifiesItsOwn(s, i, pid);
    StepsSnoc(s, more, Moved(i, Interrupt(true, false)));
    more := more + [Moved(i, Interrupt(true, false))];
    more := Decides(s, more, i, pid, false);
  }

  /** When the process has gone by the time of the signal, Stop succeeds without one. */
  lemma InterruptFindsItGone(s: State, i: Id, pid: Pid) returns (more: seq<Event>)
    requires At(s, i, StopSignalling(pid)) && pid !in s.processes
    ensures var t := Steps(s, more);
            i in t.instances && t.instances[i] == Released(true) && t.lock == None && t.signals == s.signals
  {
    more := Then(s, [], i, StopSignalling(pid), Interrupt(false, true), StopAliveCheck(pid));
    more := Then(s, more, i, StopAliveCheck(pid), ProbeAfterVerify, Deciding(pid, true));
    more := Decides(s, more, i, pid, true);
  }

  /** And so it does when the process has gone by the time of the kill. */
  lemma KillFindsItGone(s: State, i: Id, pid: Pid) returns (more: seq<Event>)
    requires At(s, i, Killing(pid)) && pid !in s.processes
    ensures var t := Steps(s, more);
            i in t.instances && t.instances[i] == Released(true) && t.lock == None && t.signals == s.signals
  {
    more := Then(s, [], i, Killing(pid), Kill(false, true), KillAliveCheck(pid));
    more := Then(s, more, i, KillAliveCheck(pid), ProbeAfterKill, KillWaiting(pid));
    more := Then(s, more, i, KillWaiting(pid), AwaitKill(false, false), Deciding(pid, true));
    more := Decides(s, more, i, pid, true);
  }

  /** A process that is not recognised by then is not killed, and keeps the directory locked. */
  lemma KillFindsAStranger(s: State, i: Id, pid: Pid) returns (more: seq<Event>)
    requires At(s, i, Killing(pid)) && pid in s.processes
    ensures At(Steps(s, more), i, Retained) && Steps(s, more).signals == s.signals
  {
    more := Then(s, [], i, Killing(pid), Kill(false, true), KillAliveCheck(pid));
    more := Then(s, more, i, KillAliveCheck(pid), ProbeAfterKill, Deciding(pid, false));
    more := Decides(s, more, i, pid, false);
  }

  lemma KillRefused(s: State, i: Id, pid: Pid) returns (more: seq<Event>)
    requires At(s, i, Killing(pid)) && IsPostmaster(s.processes, pid)
    ensures At(Steps(s, more), i, Retained) && Steps(s, more).processes == s.processes
  {
    more := [Moved(i, Kill(true, false))];
    StepsSnoc(s, [], Moved(i, Kill(true, false)));
    assert [] + more == more;
    more := Decides(s, more, i, pid, false);
  }

  /** A Stop that is cancelled while it waits for the kill reports that, but gives up the lock when all is gone. */
  lemma KillCancelled(s: State, i: Id, pid: Pid) returns (more: seq<Event>)
    requires Runs(s, i, pid)
    ensures var t := Steps(s, more);
            i in t.instances && t.instances[i] == Released(false) && t.lock == None && pid !in t.processes
  {
    more := ExpiresToKill(s, i, pid);
    more := OrphanExits(s, more, pid);
    more := Then(s, more, i, KillWaiting(pid), AwaitKill(false, true), Deciding(pid, false));
    more := Decides(s, more, i, pid, false);
  }

  /** Stop after the postmaster has died by itself: nil when the file still names it, else an error, and no signal. */
  lemma StopFindsItDead(s: State, i: Id, pid: Pid) returns (more: seq<Event>)
    requires At(s, i, Running(pid)) && pid !in s.processes
    ensures var t := Steps(s, more);
            && i in t.instances && t.instances[i] == Released(s.file == Names(pid))
            && t.lock == None && t.signals == s.signals
  {
    if s.file == Names(pid) {
      more := LooksWhetherAlive(s, i, pid);
    } else {
      more := BeginsToStop(s, i, pid);
    }
    more := Decides(s, more, i, pid, s.file == Names(pid));
  }

  /** A stranger at the captured pid is never signalled: Stop reports that it does not own it and keeps the lock. */
  lemma StopFindsAStranger(s: State, i: Id, pid: Pid) returns (more: seq<Event>)
    requires At(s, i, Running(pid)) && pid in s.processes && s.processes[pid].Stranger?
    ensures At(Steps(s, more), i, Retained) && Steps(s, more).signals == s.signals
  {
    if s.file == Names(pid) {
      more := LooksWhetherAlive(s, i, pid);
    } else {
      more := BeginsToStop(s, i, pid);
    }
    more := Decides(s, more, i, pid, false);
  }

  /** A failed start that recognises its own postmaster keeps the lock; without a pid in the file it gives it up. */
  lemma FailedStart(s: State, i: Id) returns (more: seq<Event>)
    requires At(s, i, FailReading) && (s.file.Names? ==> IsPostmaster(s.processes, s.file.pid))
    ensures s.file.Names? ==> At(Steps(s, more), i, Retained)
    ensures !s.file.Names? ==>
              var t := Steps(s, more); i in t.instances && t.instances[i] == Released(false) && t.lock == None
  {
    if s.file.Names? {
      more := KeepsItsOwn(s, i, s.file.pid);
    } else {
      more := GivesUp(s, i);
    }
  }

  lemma GivesUp(s: State, i: Id) returns (more: seq<Event>)
    requires At(s, i, FailReading) && !s.file.Names?
    ensures Steps(s, more) == To(s, i, Released(false)).(lock := None)
  {
    more := [Moved(i, ReadAfterFailure)];
    StepsSnoc(s, [], Moved(i, ReadAfterFailure));
    assert [] + more == more;
  }

  lemma KeepsItsOwn(s: State, i: Id, pid: Pid) returns (more: seq<Event>)
    requires At(s, i, FailReading) && s.file == Names(pid) && IsPostmaster(s.processes, pid)
    ensures At(Steps(s, more), i, Retained)
  {
    more := Then(s, [], i, FailReading, ReadAfterFailure, FailChecking(pid));
    more := Then(s, more, i, FailChecking(pid), ProbeAfterFailure(true), Retained);
  }

  /** What an exited postmaster leaves behind: its file, or none; and any file may be damaged when none lives. */
  lemma FilesLeftBehind(s: State, i: Id, pid: Pid, removesFile: bool)
    requires Runs(s, i, pid) && Safe(s)
    ensures var t := Step(s, Exited(pid, removesFile));
            && t.processes == s.processes - {pid} && t.file == (if removesFile then Missing else Names(pid))
            && IsStale(t) == !removesFile
            && Step(t, FileDamaged).file == Unreadable && IsStale(Step(t, FileDamaged))
  {
    assert forall q :: IsPostmaster(s.processes, q) ==> q == pid;
  }

  // ----- whole lives

  /** On a fresh directory an instance can start, stop with one signal to its own postmaster, and be done. */
  lemma FullLife() returns (running: seq<Event>, stopped: seq<Event>)
    ensures Runs(Run(running), 0, 7)
    ensures var s := Run(stopped);
            && 0 in s.instances && s.instances[0] == Released(true)
            && |s.signals| == 1 && s.signals[0].kind.ByStop? && s.signals[0].target == Postmaster(0)
  {
    running := StartSucceeds(INITIAL, 0, 7);
    RunSteps([], running);
    assert [] + running == running;
    var more := StopSucceeds(Run(running), 0, 7);
    RunSteps(running, more);
    stopped := running + more;
  }

  /** Or be stopped by force. */
  lemma FullLifeByForce() returns (stopped: seq<Event>)
    ensures var s := Run(stopped);
            && 0 in s.instances && s.instances[0] == Released(true) && |s.signals| == 2
            && forall k :: 0 <= k < 2 ==> s.signals[k].kind.ByStop? && s.signals[k].target == Postmaster(0)
  {
    var running, _ := FullLife();
    var started := StartSucceeds(INITIAL, 0, 7);
    RunSteps([], started);
    assert [] + started == started;
    var more := KillSucceeds(Run(started), 0, 7);
    RunSteps(started, more);
    stopped := started + more;
  }
}
