/**
 * A whole session from the audio fed to what reached a transcription
 * (internal/pluginkit/streaming.go).
 */
module Transcripts {
  import opened Sequences
  import opened Segmentation
  import opened Framing
  import opened Dispatch
  import opened SessionRuns

  /** The commits of a trace, in order, with their positions. */
  function FinalJobs(triggers: seq<Trigger>): seq<Job> {
    if triggers == [] then []
    else
      var last := |triggers| - 1;
      FinalJobs(triggers[..last]) + if triggers[last].final then [Job(last, triggers[last])] else []
  }

  /** Those jobs of a list that are commits. */
  function FinalsAmong(jobs: seq<Job>): seq<Job> {
    if jobs == [] then []
    else FinalsAmong(jobs[..|jobs| - 1]) + if jobs[|jobs| - 1].trigger.final then [jobs[|jobs| - 1]] else []
  }

  /** What the jobs transcribe, one after the other. */
  function Audio(jobs: seq<Job>): Frame {
    if jobs == [] then [] else Audio(jobs[..|jobs| - 1]) + jobs[|jobs| - 1].trigger.samples
  }

  predicate IsFinalOf(triggers: seq<Trigger>, j: Job) {
    j.index < |triggers| && triggers[j.index] == j.trigger && j.trigger.final
  }

  lemma {:induction false} FinalJobsAreTheFinals(triggers: seq<Trigger>)
    ensures Increasing(FinalJobs(triggers))
    ensures forall j :: j in FinalJobs(triggers) <==> IsFinalOf(triggers, j)
  {
    if triggers != [] {
      var front := triggers[..|triggers| - 1];
      var before := FinalJobs(front);
      FinalJobsAreTheFinals(front);
      assert forall i :: 0 <= i < |before| ==> before[i] in before && IsFinalOf(front, before[i]);
    }
  }

  lemma {:induction false} FinalJobsHoldTheAudio(triggers: seq<Trigger>)
    ensures Audio(FinalJobs(triggers)) == CommittedAudio(triggers)
  {
    if triggers != [] {
      var last := |triggers| - 1;
      var before := FinalJobs(triggers[..last]);
      FinalJobsHoldTheAudio(triggers[..last]);
      assert (before + [Job(last, triggers[last])])[..|before|] == before;
      assert before + [] == before;
      assert CommittedAudio(triggers[..last]) + [] == CommittedAudio(triggers[..last]);
    }
  }

  lemma {:induction false} CommitsAreThose(jobs: seq<Job>)
    requires Increasing(jobs)
    ensures Increasing(FinalsAmong(jobs))
    ensures forall j :: j in FinalsAmong(jobs) <==> j in jobs && j.trigger.final
  {
    if jobs != [] {
      CommitsAreThose(jobs[..|jobs| - 1]);
    }
  }

  /** Ordered lists with the same jobs are the same. */
  lemma {:induction false} SameJobsSameOrder(one: seq<Job>, other: seq<Job>)
    requires Increasing(one) && Increasing(other)
    requires forall j :: j in one <==> j in other
    ensures one == other
    decreases |one|
  {
    if one == [] {
      assert forall i :: 0 <= i < |other| ==> other[i] in other;
    } else {
      assert one[0] in other;
      var last, otherLast := one[|one| - 1], other[|other| - 1];
      LastIsGreatest(one, otherLast);
      LastIsGreatest(other, last);
      var front, otherFront := one[..|one| - 1], other[..|other| - 1];
      FrontHasTheRest(one);
      FrontHasTheRest(other);
      assert last == otherLast;
      forall j ensures j in front <==> j in otherFront {
        assert j in one <==> j in other;
      }
      SameJobsSameOrder(front, otherFront);
      assert one == front + [last] && other == otherFront + [otherLast];
    }
  }

  lemma LastIsGreatest(jobs: seq<Job>, j: Job)
    requires Increasing(jobs) && j in jobs
    ensures j.index <= jobs[|jobs| - 1].index
    ensures j.index == jobs[|jobs| - 1].index ==> j == jobs[|jobs| - 1]
  {
  }

  lemma FrontHasTheRest(jobs: seq<Job>)
    requires Increasing(jobs) && jobs != []
    ensures Increasing(jobs[..|jobs| - 1])
    ensures forall j :: j in jobs[..|jobs| - 1] <==> j in jobs && j != jobs[|jobs| - 1]
  {
  }

  /** When the wait group is done, the commits are those attempted and those evicted. */
  lemma DoneMeansHandled(d: Dispatch, j: Job)
    requires Invariant(d) && d.attempted == d.launched && d.pendingCommits == []
    ensures IsFinalOf(d.offered, j) <==> j.trigger.final && (j in d.attempted || j in d.evicted)
    ensures j in d.evicted ==> j !in d.attempted
  {
    assert d.launched + d.pendingCommits == d.launched;
    if IsFinalOf(d.offered, j) {
      assert j == Job(j.index, d.offered[j.index]);
    }
  }

  /**
   * From end to end: when Finish has returned, the speech accepted from the fed audio
   * is exactly the audio of the commits in their order; each of them was transcribed
   * or evicted, never both; and without evictions the commits transcribed, in the
   * order in which they were, hold all of it.
   */
  lemma AllSpeechIsHandled(l: Limits, detect: Detector, actions: seq<Action>, chunks: seq<Frame>)
    requires l.Valid() && Calls(actions) == Recording(chunks) + [Finished]
    requires RunSystem(l, detect, actions).dispatch.waitGroup == 0
    ensures var d := RunSystem(l, detect, actions).dispatch;
            var speech := AcceptedAudio(l, detect, FramesFinished(l, chunks));
            && Increasing(FinalJobs(d.offered)) && Audio(FinalJobs(d.offered)) == speech
            && (forall j :: j in FinalJobs(d.offered) <==> j.trigger.final && (j in d.attempted || j in d.evicted))
            && (forall j :: j in d.evicted ==> j !in d.attempted)
            && (d.evicted == [] ==> Audio(FinalsAmong(d.attempted)) == speech)
  {
    var d := RunSystem(l, detect, actions).dispatch;
    TimingDoesNotMatter(l, detect, actions);
    ServeRecording(l, detect, chunks);
    SystemIsADispatcherRun(l, detect, actions);
    SessionConservesAudio(l, detect, chunks);
    FinalJobsHoldTheAudio(d.offered);
    FinalJobsAreTheFinals(d.offered);
    var events := EventsOf(l, detect, actions);
    RunInvariant(events);
    WaitMeansAllDone(events);
    forall j ensures IsFinalOf(d.offered, j) <==> j.trigger.final && (j in d.attempted || j in d.evicted)
             ensures j in d.evicted ==> j !in d.attempted
    {
      DoneMeansHandled(d, j);
    }
    if d.evicted == [] {
      NoEvictionsNoLoss(d);
    }
  }

  lemma NoEvictionsNoLoss(d: Dispatch)
    requires Ordered(d) && d.attempted == d.launched && d.pendingCommits == []
    requires forall j :: IsFinalOf(d.offered, j) <==> j.trigger.final && j in d.attempted
    ensures FinalsAmong(d.attempted) == FinalJobs(d.offered)
  {
    assert d.launched + d.pendingCommits == d.launched;
    CommitsAreThose(d.attempted);
    FinalJobsAreTheFinals(d.offered);
    SameJobsSameOrder(FinalsAmong(d.attempted), FinalJobs(d.offered));
  }
}
