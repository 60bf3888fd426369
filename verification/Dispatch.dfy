/**
 * The hand-off between the utterance machine and its transcription goroutines
 * (internal/pluginkit/streaming.go). Every critical section of the mutex is one
 * step; the steps of all goroutines may interleave in any order.
 */
module Dispatch {
  import opened Segmentation
  import opened Intervals

  const MAX_PENDING_COMMITS := 2

  /** A trigger with its position in the trace of triggers. */
  datatype Job = Job(index: nat, trigger: Trigger)

  /** A goroutine transcribes, emits, takes the mutex to hand off, and signals the wait group. */
  datatype Phase = Transcribing | Emitted | Retired | Done

  /**
   * The guarded fields, and the history that the properties speak about:
   * goroutine k runs launched[k] and is in phases[k].
   */
  datatype Dispatch = Dispatch(
    offered: seq<Trigger>,
    inFlight: bool,
    pendingCommits: seq<Job>,
    waitGroup: int,
    launched: seq<Job>,
    phases: seq<Phase>,
    attempted: seq<Job>,
    emitted: seq<Job>,
    evicted: seq<Job>)

  const IDLE := Dispatch([], false, [], 0, [], [], [], [], [])

  // ----- the steps

  function Launch(d: Dispatch, job: Job): Dispatch {
    d.(inFlight := true,
       waitGroup := d.waitGroup + 1,
       launched := d.launched + [job],
       phases := d.phases + [Transcribing])
  }

  function QueueCommit(d: Dispatch, job: Job): Dispatch {
    if |d.pendingCommits| >= MAX_PENDING_COMMITS
    then d.(evicted := d.evicted + [d.pendingCommits[0]], pendingCommits := d.pendingCommits[1..] + [job])
    else d.(pendingCommits := d.pendingCommits + [job])
  }

  /** A trigger is launched, or queued if it is a commit, or dropped. */
  function Offer(d: Dispatch, t: Trigger): Dispatch {
    var job := Job(|d.offered|, t);
    var noted := d.(offered := d.offered + [t]);
    if !d.inFlight then Launch(noted, job)
    else if t.final then QueueCommit(noted, job)
    else noted
  }

  function OfferAll(d: Dispatch, ts: seq<Trigger>): Dispatch {
    if ts == [] then d else Offer(OfferAll(d, ts[..|ts| - 1]), ts[|ts| - 1])
  }

  /** The transcription of goroutine k ends; its text may be empty, and then nothing is emitted. */
  function Complete(d: Dispatch, k: nat, delivered: bool): Dispatch
    requires k < |d.phases| == |d.launched|
  {
    d.(phases := d.phases[k := Emitted],
       attempted := d.attempted + [d.launched[k]],
       emitted := if delivered then d.emitted + [d.launched[k]] else d.emitted)
  }

  /** Under the mutex, goroutine k launches the oldest queued commit or clears the flag. */
  function HandOff(d: Dispatch, k: nat): Dispatch
    requires k < |d.phases|
  {
    var left := d.(phases := d.phases[k := Retired]);
    if d.pendingCommits == [] then left.(inFlight := false)
    else Launch(left.(pendingCommits := d.pendingCommits[1..]), d.pendingCommits[0])
  }

  function SignalDone(d: Dispatch, k: nat): Dispatch
    requires k < |d.phases|
  {
    d.(phases := d.phases[k := Done], waitGroup := d.waitGroup - 1)
  }

  datatype Event =
    | Offered(trigger: Trigger)
    | Completed(k: nat, delivered: bool)
    | HandedOff(k: nat)
    | Signalled(k: nat)

  /** One step; a step that the goroutine it names cannot take changes nothing. */
  function Step(d: Dispatch, e: Event): Dispatch {
    if e.Offered? then Offer(d, e.trigger)
    else if !(e.k < |d.phases| == |d.launched|) then d
    else match e
      case Completed(k, delivered) => if d.phases[k].Transcribing? then Complete(d, k, delivered) else d
      case HandedOff(k) => if d.phases[k].Emitted? then HandOff(d, k) else d
      case Signalled(k) => if d.phases[k].Retired? then SignalDone(d, k) else d
  }

  // ----- one transcription at a time

  /** How many goroutines have not signalled the wait group. */
  function Unfinished(phases: seq<Phase>): nat {
    if phases == [] then 0
    else Unfinished(phases[..|phases| - 1]) + if phases[|phases| - 1].Done? then 0 else 1
  }

  lemma {:induction false} UnfinishedUpdate(phases: seq<Phase>, k: nat, p: Phase)
    requires k < |phases|
    ensures Unfinished(phases[k := p]) ==
            Unfinished(phases) - (if phases[k].Done? then 0 else 1) + (if p.Done? then 0 else 1)
  {
    var last := |phases| - 1;
    if k < last {
      UnfinishedUpdate(phases[..last], k, p);
      assert phases[k := p][..last] == phases[..last][k := p];
    } else {
      assert phases[k := p][..last] == phases[..last];
    }
  }

  lemma UnfinishedSnoc(phases: seq<Phase>, p: Phase)
    ensures Unfinished(phases + [p]) == Unfinished(phases) + if p.Done? then 0 else 1
  {
    assert (phases + [p])[..|phases|] == phases;
  }

  predicate Busy(p: Phase) {
    p.Transcribing? || p.Emitted?
  }

  /** At most the newest goroutine is at work, the flag says so, and only behind it do commits wait. */
  ghost predicate Serial(d: Dispatch) {
    && |d.phases| == |d.launched|
    && (forall k :: 0 <= k < |d.phases| ==> (Busy(d.phases[k]) <==> k == |d.phases| - 1 && d.inFlight))
    && (d.inFlight ==> d.phases != [])
    && (!d.inFlight ==> d.pendingCommits == [])
    && |d.pendingCommits| <= MAX_PENDING_COMMITS
    && d.waitGroup == Unfinished(d.phases)
  }

  lemma HandOffSerial(d: Dispatch, k: nat)
    requires Serial(d) && k < |d.phases| && d.phases[k].Emitted?
    ensures Serial(HandOff(d, k))
  {
    UnfinishedUpdate(d.phases, k, Retired);
    UnfinishedSnoc(d.phases[k := Retired], Transcribing);
  }

  lemma StepSerial(d: Dispatch, e: Event)
    requires Serial(d)
    ensures Serial(Step(d, e))
  {
    match e
    case Offered(_) => UnfinishedSnoc(d.phases, Transcribing);
    case Completed(k, _) => if k < |d.phases| { UnfinishedUpdate(d.phases, k, Emitted); }
    case HandedOff(k) => if k < |d.phases| && d.phases[k].Emitted? { HandOffSerial(d, k); }
    case Signalled(k) => if k < |d.phases| { UnfinishedUpdate(d.phases, k, Done); }
  }

  // ----- order

  ghost predicate Increasing(jobs: seq<Job>) {
    forall i, j :: 0 <= i < j < |jobs| ==> jobs[i].index < jobs[j].index
  }

  ghost predicate Genuine(offered: seq<Trigger>, jobs: seq<Job>) {
    forall j :: j in jobs ==> j.index < |offered| && offered[j.index] == j.trigger
  }

  /** What still has to be transcribed follows what was launched, in the order of the triggers. */
  ghost predicate Ordered(d: Dispatch) {
    && Increasing(d.launched + d.pendingCommits)
    && Genuine(d.offered, d.launched + d.pendingCommits)
    && (forall j :: j in d.pendingCommits ==> j.trigger.final)
  }

  lemma StepOrdered(d: Dispatch, e: Event)
    requires Serial(d) && Ordered(d)
    ensures Ordered(Step(d, e))
  {
    match e
    case Offered(t) => OfferOrdered(d, t);
    case HandedOff(k) =>
      if d.pendingCommits != [] {
        assert d.launched + d.pendingCommits == d.launched + [d.pendingCommits[0]] + d.pendingCommits[1..];
      }
    case Completed(_, _) =>
    case Signalled(_) =>
  }

  lemma IncreasingSnoc(offered: seq<Trigger>, t: Trigger, jobs: seq<Job>)
    requires Increasing(jobs) && Genuine(offered, jobs)
    ensures Genuine(offered + [t], jobs)
    ensures Increasing(jobs + [Job(|offered|, t)]) && Genuine(offered + [t], jobs + [Job(|offered|, t)])
  {
    assert forall i :: 0 <= i < |jobs| ==> jobs[i] in jobs;
  }

  lemma IncreasingDrop(offered: seq<Trigger>, front: seq<Job>, dropped: Job, rest: seq<Job>)
    requires Increasing(front + ([dropped] + rest)) && Genuine(offered, front + ([dropped] + rest))
    ensures Increasing(front + rest) && Genuine(offered, front + rest)
  {
    var jobs, kept := front + ([dropped] + rest), front + rest;
    assert forall i :: 0 <= i < |kept| ==> kept[i] == jobs[if i < |front| then i else i + 1];
    assert forall j :: j in kept ==> j in jobs;
  }

  lemma OfferOrdered(d: Dispatch, t: Trigger)
    requires Serial(d) && Ordered(d)
    ensures Ordered(Offer(d, t))
  {
    var job := Job(|d.offered|, t);
    IncreasingSnoc(d.offered, t, d.launched + d.pendingCommits);
    if !d.inFlight {
      assert d.launched + [job] + [] == d.launched + d.pendingCommits + [job];
    } else if t.final {
      if |d.pendingCommits| >= MAX_PENDING_COMMITS {
        var kept := d.pendingCommits[1..];
        assert d.pendingCommits == [d.pendingCommits[0]] + kept;
        IncreasingDrop(d.offered, d.launched, d.pendingCommits[0], kept);
        IncreasingSnoc(d.offered, t, d.launched + kept);
        assert d.launched + (kept + [job]) == d.launched + kept + [job];
      } else {
        assert d.launched + (d.pendingCommits + [job]) == d.launched + d.pendingCommits + [job];
      }
    }
  }

  /** Attempts follow the order of the launches; only the newest may still be missing. */
  ghost predicate InLaunchOrder(d: Dispatch) {
    && |d.attempted| <= |d.launched| == |d.phases|
    && d.attempted == d.launched[..|d.attempted|]
    && |d.attempted| == |d.launched| - (if d.phases != [] && d.phases[|d.phases| - 1].Transcribing? then 1 else 0)
  }

  lemma StepInLaunchOrder(d: Dispatch, e: Event)
    requires Serial(d) && InLaunchOrder(d)
    ensures InLaunchOrder(Step(d, e))
  {
  }

  /** Emitted results are some of the attempts, in the same order. */
  ghost predicate EmittedInOrder(d: Dispatch) {
    && Increasing(d.emitted)
    && (forall j :: j in d.emitted ==> j in d.attempted)
  }

  lemma StepEmittedInOrder(d: Dispatch, e: Event)
    requires Serial(d) && Ordered(d) && InLaunchOrder(d) && EmittedInOrder(d)
    ensures EmittedInOrder(Step(d, e))
  {
    if e.Completed? && e.k < |d.phases| && d.phases[e.k].Transcribing? {
      var job := d.launched[e.k];
      forall j | j in d.emitted ensures j.index < job.index {
        var i :| 0 <= i < |d.attempted| && d.attempted[i] == j;
        var jobs := d.launched + d.pendingCommits;
        assert jobs[i] == j && jobs[e.k] == job && i < e.k;
      }
    }
  }

  // ----- nothing is lost but evictions

  ghost predicate Overtaken(offered: seq<Trigger>, index: nat) {
    exists a, b :: index < a < b < |offered| && offered[a].final && offered[b].final
  }

  /** An evicted commit will not be launched, and two newer commits were queued behind it. */
  ghost predicate FairlyEvicted(d: Dispatch, j: Job) {
    && j.index < |d.offered| && d.offered[j.index] == j.trigger && j.trigger.final
    && j !in d.launched && j !in d.pendingCommits
    && Overtaken(d.offered, j.index)
  }

  /** A commit is launched, still queued, or was evicted by two newer ones: exactly one of the three. */
  ghost predicate Accounted(d: Dispatch) {
    && (forall i :: 0 <= i < |d.offered| && d.offered[i].final ==>
          var job := Job(i, d.offered[i]);
          job in d.launched || job in d.pendingCommits || job in d.evicted)
    && (forall j :: j in d.evicted ==> FairlyEvicted(d, j))
  }

  lemma OvertakenStays(offered: seq<Trigger>, t: Trigger, index: nat)
    requires Overtaken(offered, index)
    ensures Overtaken(offered + [t], index)
  {
    var a, b :| index < a < b < |offered| && offered[a].final && offered[b].final;
    assert (offered + [t])[a].final && (offered + [t])[b].final;
  }

  lemma StepAccounted(d: Dispatch, e: Event)
    requires Serial(d) && Ordered(d) && Accounted(d)
    ensures Accounted(Step(d, e))
  {
    match e
    case Offered(t) => OfferAccounted(d, t);
    case HandedOff(k) => if k < |d.phases| && d.pendingCommits != [] { HandOffAccounted(d, k); }
    case Completed(_, _) =>
    case Signalled(_) =>
  }

  lemma HandOffAccounted(d: Dispatch, k: nat)
    requires k < |d.phases| && d.pendingCommits != [] && Accounted(d)
    ensures Accounted(HandOff(d, k))
  {
    var after := HandOff(d, k);
    var first := d.pendingCommits[0];
    assert d.pendingCommits == [first] + after.pendingCommits;
    assert forall j :: j in d.launched || j in d.pendingCommits <==> j in after.launched || j in after.pendingCommits;
  }

  /** A new trigger leaves what is already accounted for in place. */
  lemma NotedAccounted(d: Dispatch, t: Trigger)
    requires Accounted(d)
    ensures forall j :: j in d.evicted ==> Overtaken(d.offered + [t], j.index)
    ensures Job(|d.offered|, t) !in d.evicted
    ensures !t.final ==> Accounted(d.(offered := d.offered + [t]))
  {
    forall j | j in d.evicted ensures Overtaken(d.offered + [t], j.index) {
      OvertakenStays(d.offered, t, j.index);
    }
  }

  lemma OldestFairlyEvicted(d: Dispatch, t: Trigger)
    requires Ordered(d) && |d.pendingCommits| >= 2 && t.final
    ensures FairlyEvicted(QueueCommit(d.(offered := d.offered + [t]), Job(|d.offered|, t)), d.pendingCommits[0])
  {
    var first, second, jobs := d.pendingCommits[0], d.pendingCommits[1], d.launched + d.pendingCommits;
    assert jobs[|d.launched|] == first && jobs[|d.launched| + 1] == second;
    assert first in jobs && second in jobs && second in d.pendingCommits && first in d.pendingCommits;
    assert forall i :: 0 <= i < |d.launched| ==> d.launched[i] == jobs[i] && jobs[i].index < first.index;
    var kept := d.pendingCommits[1..];
    assert forall i :: 0 <= i < |kept| ==> kept[i] == jobs[|d.launched| + 1 + i] && first.index < kept[i].index;
    var offered := d.offered + [t];
    assert offered[second.index].final && offered[|d.offered|].final;
    assert Overtaken(offered, first.index);
  }

  lemma EvictionAccounted(d: Dispatch, t: Trigger)
    requires Ordered(d) && Accounted(d)
    requires |d.pendingCommits| >= MAX_PENDING_COMMITS && t.final
    ensures Accounted(QueueCommit(d.(offered := d.offered + [t]), Job(|d.offered|, t)))
  {
    var noted := d.(offered := d.offered + [t]);
    var after, oldest := QueueCommit(noted, Job(|d.offered|, t)), d.pendingCommits[0];
    NotedAccounted(d, t);
    OldestFairlyEvicted(d, t);
    assert d.pendingCommits == [oldest] + d.pendingCommits[1..];
    assert after.pendingCommits == d.pendingCommits[1..] + [Job(|d.offered|, t)];
    assert after.evicted == d.evicted + [oldest] && after.launched == d.launched;
    forall i | 0 <= i < |after.offered| && after.offered[i].final
      ensures var job := Job(i, after.offered[i]);
              job in after.launched || job in after.pendingCommits || job in after.evicted
    {
      if i < |d.offered| {
        assert after.offered[i] == d.offered[i];
      }
    }
    forall j | j in after.evicted ensures FairlyEvicted(after, j) {
      if j in d.evicted {
        StillFairlyEvicted(d, t, j);
      }
    }
  }

  /** A commit evicted before stays so when the next one is evicted. */
  lemma StillFairlyEvicted(d: Dispatch, t: Trigger, j: Job)
    requires Ordered(d) && |d.pendingCommits| >= MAX_PENDING_COMMITS && FairlyEvicted(d, j)
    ensures FairlyEvicted(QueueCommit(d.(offered := d.offered + [t]), Job(|d.offered|, t)), j)
  {
    OvertakenStays(d.offered, t, j.index);
  }

  lemma OfferAccounted(d: Dispatch, t: Trigger)
    requires Serial(d) && Ordered(d) && Accounted(d)
    ensures Accounted(Offer(d, t))
  {
    NotedAccounted(d, t);
    if d.inFlight && t.final && |d.pendingCommits| >= MAX_PENDING_COMMITS {
      EvictionAccounted(d, t);
    }
  }

  // ----- all runs

  ghost predicate Invariant(d: Dispatch) {
    Serial(d) && Ordered(d) && InLaunchOrder(d) && EmittedInOrder(d) && Accounted(d)
  }

  lemma StepInvariant(d: Dispatch, e: Event)
    requires Invariant(d)
    ensures Invariant(Step(d, e))
  {
    StepSerial(d, e);
    StepOrdered(d, e);
    StepInLaunchOrder(d, e);
    StepEmittedInOrder(d, e);
    StepAccounted(d, e);
  }

  function Run(events: seq<Event>): Dispatch {
    if events == [] then IDLE else Step(Run(events[..|events| - 1]), events[|events| - 1])
  }

  lemma {:induction false} RunInvariant(events: seq<Event>)
    ensures Invariant(Run(events))
  {
    if events != [] {
      RunInvariant(events[..|events| - 1]);
      StepInvariant(Run(events[..|events| - 1]), events[|events| - 1]);
    }
  }

  // ----- what is launched, and what comes of it

  lemma RunSnoc(events: seq<Event>, e: Event)
    ensures Run(events + [e]) == Step(Run(events), e)
  {
    assert (events + [e])[..|events|] == events;
  }

  /** The job whose transcription ends with this event; an event out of turn ends none. */
  function Ended(d: Dispatch, e: Event): seq<Job> {
    if e.Completed? && e.k < |d.phases| == |d.launched| && d.phases[e.k].Transcribing? then [d.launched[e.k]] else []
  }

  /** The jobs whose transcriptions have ended, in the order in which they did. */
  function Attempts(events: seq<Event>): seq<Job> {
    if events == [] then []
    else
      var front := events[..|events| - 1];
      Attempts(front) + Ended(Run(front), events[|events| - 1])
  }

  /** Those of them that had something to deliver. */
  function Deliveries(events: seq<Event>): seq<Job> {
    if events == [] then []
    else
      var front, last := events[..|events| - 1], events[|events| - 1];
      Deliveries(front) + if last.Completed? && last.delivered then Ended(Run(front), last) else []
  }

  /** Every transcription that ends with something to deliver is emitted at that moment, and nothing else is. */
  lemma {:induction false} EmittedIsDelivered(events: seq<Event>)
    ensures Run(events).attempted == Attempts(events)
    ensures Run(events).emitted == Deliveries(events)
  {
    if events != [] {
      var front := events[..|events| - 1];
      EmittedIsDelivered(front);
      EndsAsDescribed(Run(front), events[|events| - 1]);
    }
  }

  lemma EndsAsDescribed(d: Dispatch, e: Event)
    ensures Step(d, e).attempted == d.attempted + Ended(d, e)
    ensures Step(d, e).emitted == d.emitted + if e.Completed? && e.delivered then Ended(d, e) else []
  {
    match e
    case Offered(t) => assert Offer(d, t).attempted == d.attempted && Offer(d, t).emitted == d.emitted;
    case Completed(k, delivered) =>
    case HandedOff(k) => assert Step(d, e).attempted == d.attempted && Step(d, e).emitted == d.emitted;
    case Signalled(k) =>
  }

  ghost predicate SomeBusy(d: Dispatch) {
    exists k :: 0 <= k < |d.phases| && Busy(d.phases[k])
  }

  /**
   * On every run a trigger, preview or commit, is launched at once exactly when no
   * goroutine is at work; behind one a commit is the last to wait, and a preview is
   * dropped without a trace.
   */
  lemma LaunchedIffIdle(events: seq<Event>, t: Trigger)
    ensures var d, after := Run(events), Run(events + [Offered(t)]);
            var job := Job(|d.offered|, t);
            && after.launched == d.launched + (if SomeBusy(d) then [] else [job])
            && after.phases == d.phases + (if SomeBusy(d) then [] else [Transcribing])
            && (SomeBusy(d) && t.final ==>
                  after.pendingCommits != [] && after.pendingCommits[|after.pendingCommits| - 1] == job)
            && (SomeBusy(d) && !t.final ==> after == d.(offered := d.offered + [t]))
  {
    RunInvariant(events);
    RunSnoc(events, Offered(t));
    var d := Run(events);
    assert d.inFlight ==> Busy(d.phases[|d.phases| - 1]);
    assert d.launched + [] == d.launched && d.phases + [] == d.phases;
  }

  /** On every run the goroutine that hands off starts the commit that has waited longest, if any waits. */
  lemma LongestWaitingIsNext(events: seq<Event>, k: nat)
    requires k < |Run(events).phases| && Run(events).phases[k].Emitted?
    ensures var d, after := Run(events), Run(events + [HandedOff(k)]);
            && (d.pendingCommits == [] ==> after.launched == d.launched && !SomeBusy(after))
            && (d.pendingCommits != [] ==>
                  && after.launched == d.launched + [d.pendingCommits[0]]
                  && after.pendingCommits == d.pendingCommits[1..]
                  && after.phases[|after.phases| - 1].Transcribing?)
  {
    RunInvariant(events);
    RunSnoc(events, HandedOff(k));
    RunInvariant(events + [HandedOff(k)]);
  }

  /** At most one transcription runs, whatever the interleaving. */
  lemma OneTranscriptionAtATime(events: seq<Event>, k: nat, m: nat)
    requires k < |Run(events).phases| && m < |Run(events).phases|
    requires Busy(Run(events).phases[k]) && Busy(Run(events).phases[m])
    ensures k == m && |Run(events).launched| == |Run(events).phases|
  {
    RunInvariant(events);
  }

  lemma {:induction false} LaterWindow(triggers: seq<Trigger>, i: nat, j: nat)
    requires i < j < |triggers| && triggers[i].final
    ensures WindowIds(triggers)[i] < WindowIds(triggers)[j]
  {
    var front := triggers[..|triggers| - 1];
    if j < |front| {
      LaterWindow(front, i, j);
    } else {
      CommittedBefore(front, i);
    }
  }

  lemma {:induction false} CommittedBefore(triggers: seq<Trigger>, i: nat)
    requires i < |triggers| && triggers[i].final
    ensures WindowIds(triggers)[i] < Commits(triggers)
  {
    if i < |triggers| - 1 {
      CommittedBefore(triggers[..|triggers| - 1], i);
    }
  }

  /**
   * Results come out in the order of their triggers, so once the final of a
   * window has been emitted only later windows follow.
   */
  lemma NothingFollowsAFinalOfItsWindow(events: seq<Event>, i: nat, j: nat)
    requires i < j < |Run(events).emitted|
    ensures var d := Run(events);
            && d.emitted[i].index < d.emitted[j].index < |d.offered|
            && (d.emitted[i].trigger.final ==>
                  WindowIds(d.offered)[d.emitted[i].index] < WindowIds(d.offered)[d.emitted[j].index])
  {
    RunInvariant(events);
    var d := Run(events);
    EmittedGenuine(d, i);
    EmittedGenuine(d, j);
    if d.emitted[i].trigger.final {
      LaterWindow(d.offered, d.emitted[i].index, d.emitted[j].index);
    }
  }

  lemma EmittedGenuine(d: Dispatch, i: nat)
    requires Invariant(d) && i < |d.emitted|
    ensures d.emitted[i].index < |d.offered| && d.offered[d.emitted[i].index] == d.emitted[i].trigger
  {
    assert d.emitted[i] in d.attempted && d.emitted[i] in d.launched + d.pendingCommits;
  }

  /** Wait and Finish return only when nothing runs or waits and every commit was attempted or evicted. */
  lemma WaitMeansAllDone(events: seq<Event>)
    requires Run(events).waitGroup == 0
    ensures var d := Run(events);
            && !d.inFlight && d.pendingCommits == [] && d.attempted == d.launched
            && (forall i :: 0 <= i < |d.offered| && d.offered[i].final ==>
                  Job(i, d.offered[i]) in d.attempted || Job(i, d.offered[i]) in d.evicted)
  {
    RunInvariant(events);
    var d := Run(events);
    if d.phases != [] {
      assert d.phases[|d.phases| - 1].Done?;
    }
  }

  // ----- Wait does return

  function Effort(p: Phase): nat {
    match p
    case Transcribing => 3
    case Emitted => 2
    case Retired => 1
    case Done => 0
  }

  function TotalEffort(phases: seq<Phase>): nat {
    if phases == [] then 0 else TotalEffort(phases[..|phases| - 1]) + Effort(phases[|phases| - 1])
  }

  /** How many goroutine steps separate this state from the return of Wait. */
  function StepsLeft(d: Dispatch): nat {
    TotalEffort(d.phases) + 3 * |d.pendingCommits|
  }

  lemma {:induction false} EffortUpdate(phases: seq<Phase>, k: nat, p: Phase)
    requires k < |phases|
    ensures TotalEffort(phases[k := p]) == TotalEffort(phases) - Effort(phases[k]) + Effort(p)
  {
    var last := |phases| - 1;
    if k < last {
      EffortUpdate(phases[..last], k, p);
      assert phases[k := p][..last] == phases[..last][k := p];
    } else {
      assert phases[k := p][..last] == phases[..last];
    }
  }

  /** Each step of a goroutine brings the end one step closer: the number of steps does not depend on their order. */
  lemma GoroutineStepsCountDown(d: Dispatch, e: Event)
    requires Serial(d) && !e.Offered?
    ensures Step(d, e) == d || StepsLeft(Step(d, e)) == StepsLeft(d) - 1
  {
    if e.k < |d.phases| {
      EffortUpdate(d.phases, e.k, Emitted);
      EffortUpdate(d.phases, e.k, Retired);
      EffortUpdate(d.phases, e.k, Done);
      var retired := d.phases[e.k := Retired];
      assert (retired + [Transcribing])[..|retired|] == retired;
    }
  }

  lemma {:induction false} EffortLeft(phases: seq<Phase>)
    ensures TotalEffort(phases) == 0 <==> Unfinished(phases) == 0
    ensures TotalEffort(phases) > 0 ==> exists k :: 0 <= k < |phases| && !phases[k].Done?
  {
    if phases != [] {
      var front := phases[..|phases| - 1];
      EffortLeft(front);
      if TotalEffort(front) > 0 {
        var k :| 0 <= k < |front| && !front[k].Done?;
        assert !phases[k].Done?;
      }
    }
  }

  /** While Wait blocks some goroutine can step, and it returns once all have. */
  lemma WaitNeverSticks(events: seq<Event>)
    ensures var d := Run(events);
            && (d.waitGroup == 0 <==> StepsLeft(d) == 0)
            && (d.waitGroup > 0 ==> exists e: Event :: !e.Offered? && Step(d, e) != d)
  {
    RunInvariant(events);
    var d := Run(events);
    EffortLeft(d.phases);
    if d.waitGroup > 0 {
      var k :| 0 <= k < |d.phases| && !d.phases[k].Done?;
      var e := if d.phases[k].Transcribing? then Completed(k, true)
               else if d.phases[k].Emitted? then HandedOff(k)
               else Signalled(k);
      assert Step(d, e).phases != d.phases by {
        assert d.phases[k := Retired][k] == Retired;
      }
    }
  }
}
