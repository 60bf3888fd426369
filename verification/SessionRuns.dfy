/**
 * A whole session: calls of Feed and Finish interleaved with the transcription
 * goroutines (internal/pluginkit/streaming.go).
 */
module SessionRuns {
  import opened Sequences
  import opened Segmentation
  import opened Framing
  import opened Dispatch

  datatype System = System(session: Session, dispatch: Dispatch)

  /** What may happen next: a call by the client, or a step of some goroutine. */
  datatype Action = Fed(chunk: Frame) | Finished | Worked(step: Event)

  const NEW_SYSTEM := System(NEW_SESSION, IDLE)

  function NewTriggers(before: Session, after: Session): seq<Trigger> {
    if |before.track.triggers| <= |after.track.triggers|
    then after.track.triggers[|before.track.triggers|..] else []
  }

  /** A call holds the mutex: its triggers are offered without a goroutine step in between. */
  function Call(s: System, after: Session): System {
    System(after, OfferAll(s.dispatch, NewTriggers(s.session, after)))
  }

  function Act(l: Limits, detect: Detector, s: System, a: Action): System {
    match a
    case Fed(chunk) => Call(s, Feed(l, detect, s.session, chunk))
    case Finished => Call(s, Finish(l, detect, s.session))
    case Worked(step) => if step.Offered? then s else s.(dispatch := Step(s.dispatch, step))
  }

  function RunSystem(l: Limits, detect: Detector, actions: seq<Action>): System {
    if actions == [] then NEW_SYSTEM
    else Act(l, detect, RunSystem(l, detect, actions[..|actions| - 1]), actions[|actions| - 1])
  }

  // ----- the session sees only the calls

  function Calls(actions: seq<Action>): seq<Action> {
    if actions == [] then []
    else
      var last := actions[|actions| - 1];
      Calls(actions[..|actions| - 1]) + if last.Worked? then [] else [last]
  }

  function Serve(l: Limits, detect: Detector, calls: seq<Action>): Session {
    if calls == [] then NEW_SESSION
    else
      var s := Serve(l, detect, calls[..|calls| - 1]);
      match calls[|calls| - 1]
      case Fed(chunk) => Feed(l, detect, s, chunk)
      case Finished => Finish(l, detect, s)
      case Worked(_) => s
  }

  /** The segmentation state never depends on when transcriptions start, end or hand off. */
  lemma {:induction false} TimingDoesNotMatter(l: Limits, detect: Detector, actions: seq<Action>)
    ensures RunSystem(l, detect, actions).session == Serve(l, detect, Calls(actions))
  {
    if actions != [] {
      var front, last := actions[..|actions| - 1], actions[|actions| - 1];
      TimingDoesNotMatter(l, detect, front);
      assert (Calls(front) + [last])[..|Calls(front)|] == Calls(front);
      assert Calls(front) + [] == Calls(front);
    }
  }

  // ----- the dispatcher sees the triggers of the session

  lemma JudgeExtends(l: Limits, detect: Detector, t: Track, frame: Frame)
    ensures t.triggers <= Judge(l, detect)(t, frame).triggers
  {
    ClassifyRaisesAtMostOne(l, detect, t, frame);
  }

  lemma {:induction false} DrainExtends(judge: (Track, Frame) -> Track, n: int, pending: Frame, t: Track)
    requires n > 0
    requires forall u: Track, f: Frame :: u.triggers <= judge(u, f).triggers
    ensures t.triggers <= Drain(judge, n, pending, t).1.triggers
    decreases |pending|
  {
    if |pending| >= n {
      DrainExtends(judge, n, pending[n..], judge(t, pending[..n]));
    }
  }

  lemma FeedExtends(l: Limits, detect: Detector, s: Session, chunk: Frame)
    ensures s.track.triggers <= Feed(l, detect, s, chunk).track.triggers
  {
    forall t: Track, f: Frame ensures t.triggers <= Judge(l, detect)(t, f).triggers {
      JudgeExtends(l, detect, t, f);
    }
    if l.subframe > 0 {
      DrainExtends(Judge(l, detect), l.subframe, s.pending + chunk, s.track);
    } else {
      assert Judge(l, detect)(s.track, chunk) == Classify(l, detect, s.track, chunk);
    }
  }

  lemma FinishExtends(l: Limits, detect: Detector, s: Session)
    ensures s.track.triggers <= Finish(l, detect, s).track.triggers
  {
    ClassifyRaisesAtMostOne(l, detect, s.track, s.pending);
  }

  /** The steps of the dispatcher that a run consists of. */
  function EventsOf(l: Limits, detect: Detector, actions: seq<Action>): seq<Event> {
    if actions == [] then []
    else
      var front, last := actions[..|actions| - 1], actions[|actions| - 1];
      var s := RunSystem(l, detect, front);
      EventsOf(l, detect, front) +
      match last
      case Worked(step) => if step.Offered? then [] else [step]
      case _ => Offers(NewTriggers(s.session, Act(l, detect, s, last).session))
  }

  function Offers(ts: seq<Trigger>): seq<Event> {
    seq(|ts|, i requires 0 <= i < |ts| => Offered(ts[i]))
  }

  lemma {:induction false} OfferAllOffers(d: Dispatch, ts: seq<Trigger>)
    ensures OfferAll(d, ts).offered == d.offered + ts
  {
    if ts != [] {
      OfferAllOffers(d, ts[..|ts| - 1]);
    }
  }

  lemma {:induction false} RunOffers(events: seq<Event>, ts: seq<Trigger>)
    ensures Run(events + Offers(ts)) == OfferAll(Run(events), ts)
  {
    if ts == [] {
      assert events + Offers(ts) == events;
    } else {
      var front, last := ts[..|ts| - 1], ts[|ts| - 1];
      RunOffers(events, front);
      RunSnoc(events + Offers(front), Offered(last));
      assert events + Offers(ts) == events + Offers(front) + [Offered(last)];
    }
  }

  /** A call adds its triggers to the run of the dispatcher. */
  lemma CallOffers(s: System, after: Session, events: seq<Event>)
    requires s.dispatch == Run(events) && s.dispatch.offered == s.session.track.triggers <= after.track.triggers
    ensures Call(s, after).dispatch == Run(events + Offers(NewTriggers(s.session, after)))
    ensures Call(s, after).dispatch.offered == after.track.triggers
  {
    RunOffers(events, NewTriggers(s.session, after));
    OfferAllOffers(s.dispatch, NewTriggers(s.session, after));
  }

  lemma WorkOffersNothing(d: Dispatch, e: Event)
    requires !e.Offered?
    ensures Step(d, e).offered == d.offered
  {
  }

  /** Every run of a session is a run of the dispatcher, whose offers are the session's triggers. */
  lemma {:induction false} SystemIsADispatcherRun(l: Limits, detect: Detector, actions: seq<Action>)
    ensures RunSystem(l, detect, actions).dispatch == Run(EventsOf(l, detect, actions))
    ensures RunSystem(l, detect, actions).dispatch.offered == RunSystem(l, detect, actions).session.track.triggers
  {
    if actions != [] {
      var front, last := actions[..|actions| - 1], actions[|actions| - 1];
      SystemIsADispatcherRun(l, detect, front);
      var s, events := RunSystem(l, detect, front), EventsOf(l, detect, front);
      match last
      case Fed(chunk) =>
        FeedExtends(l, detect, s.session, chunk);
        CallOffers(s, Feed(l, detect, s.session, chunk), events);
      case Finished =>
        FinishExtends(l, detect, s.session);
        CallOffers(s, Finish(l, detect, s.session), events);
      case Worked(step) =>
        assert events + [] == events;
        if !step.Offered? {
          RunSnoc(events, step);
          WorkOffersNothing(s.dispatch, step);
        }
    }
  }

  // ----- the client's view

  /** A well-formed session: chunks, then one Finish. */
  function Recording(chunks: seq<Frame>): seq<Action> {
    seq(|chunks|, i requires 0 <= i < |chunks| => Fed(chunks[i]))
  }

  lemma {:induction false} ServeRecording(l: Limits, detect: Detector, chunks: seq<Frame>)
    ensures Serve(l, detect, Recording(chunks)) == FeedAll(l, detect, chunks)
    ensures Serve(l, detect, Recording(chunks) + [Finished]) == Finish(l, detect, FeedAll(l, detect, chunks))
  {
    var calls := Recording(chunks);
    if chunks != [] {
      ServeRecording(l, detect, chunks[..|chunks| - 1]);
      assert calls[..|calls| - 1] == Recording(chunks[..|chunks| - 1]);
    }
    assert (calls + [Finished])[..|calls|] == calls;
  }

  /**
   * Two sessions given the same audio raise the same triggers, however it was
   * chunked and however the transcriptions were scheduled.
   */
  lemma SameAudioSameTriggers(l: Limits, detect: Detector, one: seq<Action>, other: seq<Action>,
                              chunks: seq<Frame>, others: seq<Frame>)
    requires l.subframe > 0 && Flat(chunks) == Flat(others)
    requires Calls(one) == Recording(chunks) + [Finished] && Calls(other) == Recording(others) + [Finished]
    ensures RunSystem(l, detect, one).session == RunSystem(l, detect, other).session
    ensures RunSystem(l, detect, one).dispatch.offered == RunSystem(l, detect, other).dispatch.offered
  {
    TimingDoesNotMatter(l, detect, one);
    TimingDoesNotMatter(l, detect, other);
    ServeRecording(l, detect, chunks);
    ServeRecording(l, detect, others);
    ChunkingDoesNotMatter(l, detect, chunks, others);
    SystemIsADispatcherRun(l, detect, one);
    SystemIsADispatcherRun(l, detect, other);
  }
}
