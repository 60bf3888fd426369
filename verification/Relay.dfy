/**
 * The filter that keeps a client from seeing a segment again once it is final
 * (internal/api/stream_relay_state.go), and the stream it is applied to.
 */
module Relay {
  import opened Sequences
  import opened Segmentation
  import opened Intervals
  import opened Framing
  import opened Dispatch
  import opened SessionRuns
  import opened Timestamps

  /** A segment event of a plugin: its start in seconds, and whether it is final. */
  datatype SegmentEvent = SegmentEvent(t0: real, final: bool)

  /** Rounds half away from zero, like the rounding of the Go library. */
  function Round(x: real): int {
    if x >= 0.0 then (x + 0.5).Floor else -(0.5 - x).Floor
  }

  /** The nearest integer; of two the one further from zero. */
  lemma RoundIsNearest(x: real)
    ensures x - 0.5 <= Round(x) as real <= x + 0.5
    ensures x >= 0.0 ==> Round(x) as real > x - 0.5
    ensures x < 0.0 ==> Round(x) as real < x + 0.5
    ensures Round(-x) == -Round(x)
  {
  }

  function SecondsToMS(seconds: real): int {
    Round(seconds * 1000.0)
  }

  class StreamingSegmentRelayState {
    var finalizedByT0: set<int>

    constructor ()
      ensures finalizedByT0 == {}
    {
      finalizedByT0 := {};
    }

    method ShouldRelay(ev: SegmentEvent) returns (relay: bool)
      modifies this
      ensures (relay, finalizedByT0) == Admit(old(finalizedByT0), ev)
    {
      var key := SecondsToMS(ev.t0);
      if key in finalizedByT0 {
        return false;
      }
      if ev.final {
        finalizedByT0 := finalizedByT0 + {key};
      }
      return true;
    }
  }

  /** The verdict on one event and the keys finalized after it. */
  function Admit(finalized: set<int>, ev: SegmentEvent): (bool, set<int>) {
    var key := SecondsToMS(ev.t0);
    if key in finalized then (false, finalized)
    else (true, if ev.final then finalized + {key} else finalized)
  }

  function FinalizedBy(events: seq<SegmentEvent>): set<int> {
    if events == [] then {}
    else Admit(FinalizedBy(events[..|events| - 1]), events[|events| - 1]).1
  }

  /** Whether the filter passes event k of a stream it has watched from the start. */
  predicate Relayed(events: seq<SegmentEvent>, k: nat)
    requires k < |events|
  {
    Admit(FinalizedBy(events[..k]), events[k]).0
  }

  lemma {:induction false} FinalizedKeys(events: seq<SegmentEvent>)
    ensures forall key :: key in FinalizedBy(events) <==>
              exists j :: 0 <= j < |events| && events[j].final && SecondsToMS(events[j].t0) == key
  {
    if events != [] {
      var front, last := events[..|events| - 1], events[|events| - 1];
      FinalizedKeys(front);
      forall key
        ensures key in FinalizedBy(events) <==>
                exists j :: 0 <= j < |events| && events[j].final && SecondsToMS(events[j].t0) == key
      {
        if key in FinalizedBy(front) {
          var j :| 0 <= j < |front| && front[j].final && SecondsToMS(front[j].t0) == key;
          assert events[j].final && SecondsToMS(events[j].t0) == key;
        } else if key in FinalizedBy(events) {
          assert events[|events| - 1].final && SecondsToMS(last.t0) == key;
        }
      }
    }
  }

  /**
   * For any plugin: an event passes exactly when no final with its start came
   * before it, so a start has at most one final, and nothing after it.
   */
  lemma RelayedIffNotFinalized(events: seq<SegmentEvent>, k: nat)
    requires k < |events|
    ensures Relayed(events, k) <==>
            forall j :: 0 <= j < k && events[j].final ==> SecondsToMS(events[j].t0) != SecondsToMS(events[k].t0)
  {
    FinalizedKeys(events[..k]);
    if j :| 0 <= j < k && events[j].final && SecondsToMS(events[j].t0) == SecondsToMS(events[k].t0) {
      assert events[..k][j].final;
    }
  }

  // ----- the sessions of the built-in segmenter

  /** How a plugin reports the result of a job. */
  function EventOf(job: Job, sampleRate: int): SegmentEvent
    requires sampleRate > 0
  {
    SegmentEvent(SamplesToMS(job.trigger.start, sampleRate) as real / 1000.0, job.trigger.final)
  }

  lemma KeyIsTheStart(job: Job, sampleRate: int)
    requires sampleRate > 0
    ensures SecondsToMS(EventOf(job, sampleRate).t0) == SamplesToMS(job.trigger.start, sampleRate)
  {
    var ms := SamplesToMS(job.trigger.start, sampleRate);
    assert ms as real / 1000.0 * 1000.0 == ms as real;
    assert (ms as real + 0.5).Floor == ms;
    assert (0.5 - ms as real).Floor == -ms;
  }

  function EventsReported(jobs: seq<Job>, sampleRate: int): seq<SegmentEvent>
    requires sampleRate > 0
  {
    seq(|jobs|, i requires 0 <= i < |jobs| => EventOf(jobs[i], sampleRate))
  }

  /**
   * With frames of a millisecond or more the filter hides nothing that a session
   * reports, whatever the chunks, the schedule and the empty results.
   */
  lemma SessionIsRelayedInFull(l: Limits, detect: Detector, actions: seq<Action>, chunks: seq<Frame>,
                               sampleRate: int, k: nat)
    requires sampleRate > 0 && l.subframe * 1000 >= sampleRate
    requires Calls(actions) == Recording(chunks) || Calls(actions) == Recording(chunks) + [Finished]
    requires k < |RunSystem(l, detect, actions).dispatch.emitted|
    ensures Relayed(EventsReported(RunSystem(l, detect, actions).dispatch.emitted, sampleRate), k)
  {
    TimingDoesNotMatter(l, detect, actions);
    ServeRecording(l, detect, chunks);
    SessionSpreadsOut(l, detect, chunks);
    SystemIsADispatcherRun(l, detect, actions);
    var run := EventsOf(l, detect, actions);
    var d := RunSystem(l, detect, actions).dispatch;
    RunInvariant(run);
    var events := EventsReported(d.emitted, sampleRate);
    forall j | 0 <= j < k && events[j].final
      ensures SecondsToMS(events[j].t0) != SecondsToMS(events[k].t0)
    {
      NothingFollowsAFinalOfItsWindow(run, j, k);
      EmittedGenuine(d, j);
      EmittedGenuine(d, k);
      KeyIsTheStart(d.emitted[j], sampleRate);
      KeyIsTheStart(d.emitted[k], sampleRate);
      MillisecondsApart(d.emitted[j].trigger.start, d.emitted[k].trigger.start, l.subframe, sampleRate);
    }
    RelayedIffNotFinalized(events, k);
  }
}
