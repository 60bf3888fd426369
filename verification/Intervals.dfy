/**
 * Where the transcription triggers of a session lie on the sample clock
 * (internal/pluginkit/streaming.go).
 */
module Intervals {
  import opened Segmentation

  /** How many segments the trace has committed. */
  function Commits(triggers: seq<Trigger>): nat {
    if triggers == [] then 0
    else Commits(triggers[..|triggers| - 1]) + if triggers[|triggers| - 1].final then 1 else 0
  }

  /** Numbers the triggers by window: those between two commits, and the commit closing them, share one. */
  function WindowIds(triggers: seq<Trigger>): (ids: seq<nat>)
    ensures |ids| == |triggers|
    ensures forall i :: 0 <= i < |ids| ==> ids[i] <= Commits(triggers)
  {
    if triggers == [] then []
    else
      var front := triggers[..|triggers| - 1];
      WindowIds(front) + [Commits(front)]
  }

  // ----- the layout of a trace

  ghost predicate Sound(t: Trigger) {
    t.samples != [] && 0 <= t.start && t.start + |t.samples| <= t.end
  }

  /** Two triggers of one window share their start, and the earlier is a preview of the later. */
  ghost predicate Previews(earlier: Trigger, later: Trigger) {
    !earlier.final && earlier.start == later.start && earlier.end <= later.end && earlier.samples <= later.samples
  }

  /**
   * Any two triggers of a trace either belong to one window, and then the earlier
   * previews the later, or cover disjoint intervals of the clock, in order.
   */
  ghost predicate LaidOut(triggers: seq<Trigger>) {
    && (forall i :: 0 <= i < |triggers| ==> Sound(triggers[i]))
    && (forall i, j :: 0 <= i < j < |triggers| ==>
          if WindowIds(triggers)[i] == WindowIds(triggers)[j]
          then Previews(triggers[i], triggers[j])
          else triggers[i].end <= triggers[j].start)
  }

  // ----- the same, one trigger at a time

  /** Where a trace may go on: after its last commit, and extending its open preview. */
  datatype Frontier = Broken | After(end: int) | Extending(end: int, preview: Trigger)

  ghost predicate MayFollow(f: Frontier, t: Trigger) {
    && Sound(t)
    && match f
       case Broken => false
       case After(end) => end <= t.start
       case Extending(end, preview) => end <= t.start && Previews(preview, t)
  }

  ghost function FrontierOf(triggers: seq<Trigger>): Frontier {
    if triggers == [] then After(0)
    else
      var front, last := FrontierOf(triggers[..|triggers| - 1]), triggers[|triggers| - 1];
      if !MayFollow(front, last) then Broken
      else if last.final then After(last.end)
      else Extending(front.end, last)
  }

  lemma FrontierSnoc(triggers: seq<Trigger>, t: Trigger)
    requires MayFollow(FrontierOf(triggers), t)
    ensures FrontierOf(triggers + [t]) == if t.final then After(t.end) else Extending(FrontierOf(triggers).end, t)
  {
    assert (triggers + [t])[..|triggers|] == triggers;
  }

  /** The frontier sums up every trigger before it. */
  lemma {:induction false} FrontierSumsUp(triggers: seq<Trigger>)
    requires !FrontierOf(triggers).Broken?
    ensures forall i :: 0 <= i < |triggers| ==>
              if WindowIds(triggers)[i] < Commits(triggers)
              then triggers[i].end <= FrontierOf(triggers).end
              else FrontierOf(triggers).Extending? &&
                   (triggers[i] == FrontierOf(triggers).preview || Previews(triggers[i], FrontierOf(triggers).preview))
  {
    if triggers != [] {
      FrontierSumsUp(triggers[..|triggers| - 1]);
    }
  }

  /** Whatever the frontier allows is laid out properly. */
  lemma {:induction false} FrontierLaysOut(triggers: seq<Trigger>)
    requires !FrontierOf(triggers).Broken?
    ensures LaidOut(triggers)
  {
    if triggers != [] {
      FrontierLaysOut(triggers[..|triggers| - 1]);
      FrontierSumsUp(triggers[..|triggers| - 1]);
    }
  }

  ghost predicate WellPlaced(t: Track) {
    var f := FrontierOf(t.triggers);
    && !f.Broken?
    && 0 <= f.end <= t.totalSamples
    && (!t.active ==> t.window == [])
    && (t.active ==> f.end <= t.windowStart && t.windowStart + |t.window| <= t.lastSpeechEnd <= t.totalSamples)
    && (f.Extending? ==> t.window != [] && Previews(f.preview, Trigger(true, t.window, t.windowStart, t.lastSpeechEnd)))
  }

  /** Audio added since the last preview of the open window. */
  function SinceLastPreview(t: Track): int {
    |t.window| - if EndsWithPreview(t.triggers) then |t.triggers[|t.triggers| - 1].samples| else 0
  }

  predicate EndsWithPreview(triggers: seq<Trigger>) {
    triggers != [] && !triggers[|triggers| - 1].final
  }

  /** The preview clock holds what was added since the last preview, and is never overdue. */
  predicate Paced(l: Limits, t: Track) {
    && t.speechSincePartial == SinceLastPreview(t) < l.partialInterval
    && (!t.active ==> t.window == [])
    && (EndsWithPreview(t.triggers) ==> t.window != [])
  }

  /** Raising a trigger for a well-placed window keeps the trace laid out. */
  lemma TriggerKeepsPlace(t: Track, final: bool)
    requires WellPlaced(t)
    ensures !final ==> WellPlaced(StartTranscription(t, final))
    ensures final && t.active ==> WellPlaced(BeginNextWindow(StartTranscription(t, final)))
    ensures final ==> WellPlaced(ResetUtterance(StartTranscription(t, final)))
  {
    if t.window != [] {
      FrontierSnoc(t.triggers, Trigger(final, t.window, t.windowStart, t.lastSpeechEnd));
    }
  }

  /** A frame joins the window, which it may have to open first. */
  lemma AppendSpeechPlaced(l: Limits, t: Track, begun: Track, frame: Frame)
    requires WellPlaced(t)
    requires begun.active && begun.triggers == t.triggers && begun.window == t.window
    requires begun.totalSamples == t.totalSamples + |frame|
    requires if t.active
             then begun.windowStart == t.windowStart && begun.lastSpeechEnd == t.lastSpeechEnd
             else begun.windowStart == t.totalSamples
    ensures WellPlaced(AppendSpeech(l, begun, frame))
  {
    var grown := GrowWindow(begun, frame);
    assert WellPlaced(grown);
    TriggerKeepsPlace(grown, true);
    var bounded := BoundWindow(l, grown);
    assert WellPlaced(bounded);
    TriggerKeepsPlace(bounded.(speechSincePartial := 0), false);
  }

  lemma SilencePlaced(l: Limits, t: Track, frame: Frame)
    requires WellPlaced(t) && t.active
    ensures WellPlaced(Silence(l, Hear(t, frame).(lowEnergy := t.lowEnergy + |frame|)))
  {
    var low := t.lowEnergy + |frame|;
    TriggerKeepsPlace(Hear(t, frame).(lowEnergy := low, continuousSilence := low - l.hysteresis), true);
  }

  /** While speech goes on, low energy is either tolerated or taken for silence. */
  lemma LowEnergyForks(l: Limits, t: Track, frame: Frame)
    requires t.active
    ensures var dipped := t.(lowEnergy := t.lowEnergy + |frame|);
            OnLowEnergy(l, t, frame) ==
            if t.lowEnergy + |frame| <= l.hysteresis then AppendSpeech(l, dipped, frame) else Silence(l, dipped)
  {
  }

  lemma OnLowEnergyPlaced(l: Limits, t: Track, frame: Frame)
    requires WellPlaced(t)
    ensures WellPlaced(OnLowEnergy(l, Hear(t, frame), frame))
  {
    if !t.active {
      HeardPlaced(l, t, frame);
    } else if t.lowEnergy + |frame| <= l.hysteresis {
      DipPlaced(l, t, frame);
    } else {
      LongSilencePlaced(l, t, frame);
    }
  }

  lemma HeardPlaced(l: Limits, t: Track, frame: Frame)
    requires WellPlaced(t) && !t.active
    ensures WellPlaced(OnLowEnergy(l, Hear(t, frame), frame))
  {
    assert OnLowEnergy(l, Hear(t, frame), frame) == Hear(t, frame);
  }

  lemma LongSilencePlaced(l: Limits, t: Track, frame: Frame)
    requires WellPlaced(t) && t.active && t.lowEnergy + |frame| > l.hysteresis
    ensures WellPlaced(OnLowEnergy(l, Hear(t, frame), frame))
  {
    LowEnergyForks(l, Hear(t, frame), frame);
    SilencePlaced(l, t, frame);
  }

  lemma DipPlaced(l: Limits, t: Track, frame: Frame)
    requires WellPlaced(t) && t.active && t.lowEnergy + |frame| <= l.hysteresis
    ensures WellPlaced(OnLowEnergy(l, Hear(t, frame), frame))
  {
    LowEnergyForks(l, Hear(t, frame), frame);
    AppendSpeechPlaced(l, t, Hear(t, frame).(lowEnergy := t.lowEnergy + |frame|), frame);
  }

  lemma ClassifyPlaced(l: Limits, detect: Detector, t: Track, frame: Frame)
    requires WellPlaced(t)
    ensures WellPlaced(Classify(l, detect, t, frame))
  {
    if detect(t.heard + [frame]) {
      AppendSpeechPlaced(l, t, BeginUtterance(Hear(t, frame), t.totalSamples), frame);
    } else {
      OnLowEnergyPlaced(l, t, frame);
    }
  }

  lemma {:induction false} AllPlaced(l: Limits, detect: Detector, frames: seq<Frame>)
    ensures WellPlaced(ClassifyAll(l, detect, frames))
  {
    if frames != [] {
      var front := frames[..|frames| - 1];
      AllPlaced(l, detect, front);
      ClassifyPlaced(l, detect, ClassifyAll(l, detect, front), frames[|frames| - 1]);
    }
  }

  /** At any moment, and after Finish, the trace of a session is laid out in order. */
  lemma TriggersLaidOut(l: Limits, detect: Detector, frames: seq<Frame>)
    ensures LaidOut(ClassifyAll(l, detect, frames).triggers)
    ensures LaidOut(Flush(ClassifyAll(l, detect, frames)).triggers)
  {
    AllPlaced(l, detect, frames);
    var t := ClassifyAll(l, detect, frames);
    TriggerKeepsPlace(t, true);
    FrontierLaysOut(t.triggers);
    FrontierLaysOut(Flush(t).triggers);
  }

  // ----- the pace of previews

  lemma AppendSpeechPaced(l: Limits, t: Track, frame: Frame)
    requires l.Valid() && t.active && Paced(l, t)
    ensures Paced(l, AppendSpeech(l, t, frame))
  {
    var grown := t.(speechSincePartial := t.speechSincePartial + |frame|,
                    lastSpeechEnd := t.totalSamples,
                    window := t.window + frame);
    assert grown.speechSincePartial == SinceLastPreview(grown);
    if |grown.window| > l.maxWindow {
      assert !EndsWithPreview(StartTranscription(grown, true).triggers);
    }
  }

  lemma ClassifyPaced(l: Limits, detect: Detector, t: Track, frame: Frame)
    requires l.Valid() && Paced(l, t)
    ensures Paced(l, Classify(l, detect, t, frame))
  {
    var seen := Hear(t, frame);
    if detect(seen.heard) {
      AppendSpeechPaced(l, BeginUtterance(seen, t.totalSamples), frame);
    } else if t.active {
      AppendSpeechPaced(l, seen.(lowEnergy := seen.lowEnergy + |frame|), frame);
    }
  }

  /** The preview clock counts the audio gathered since the last preview, and is never overdue. */
  lemma {:induction false} AllPaced(l: Limits, detect: Detector, frames: seq<Frame>)
    requires l.Valid()
    ensures Paced(l, ClassifyAll(l, detect, frames))
  {
    if frames != [] {
      var front := frames[..|frames| - 1];
      AllPaced(l, detect, front);
      ClassifyPaced(l, detect, ClassifyAll(l, detect, front), frames[|frames| - 1]);
    }
  }

  predicate RaisesPreview(before: Track, after: Track) {
    |after.triggers| > |before.triggers| && !after.triggers[|after.triggers| - 1].final
  }

  /** A frame that joins the window completes a preview interval and does not overfill the window. */
  predicate DueWith(l: Limits, t: Track, frame: Frame) {
    |t.window| + |frame| <= l.maxWindow && SinceLastPreview(t) + |frame| >= l.partialInterval
  }

  lemma AppendSpeechPreviews(l: Limits, t: Track, frame: Frame)
    requires l.Valid() && t.active && Paced(l, t)
    ensures RaisesPreview(t, AppendSpeech(l, t, frame)) <==> DueWith(l, t, frame)
  {
    var grown := GrowWindow(t, frame);
    assert grown.speechSincePartial == SinceLastPreview(t) + |frame|;
    assert |grown.window| == |t.window| + |frame|;
  }

  lemma LowEnergyPreviews(l: Limits, t: Track, frame: Frame)
    requires l.Valid() && Paced(l, t)
    ensures RaisesPreview(t, OnLowEnergy(l, Hear(t, frame), frame)) <==>
            t.active && t.lowEnergy + |frame| <= l.hysteresis && DueWith(l, t, frame)
  {
    if t.active && t.lowEnergy + |frame| <= l.hysteresis {
      AppendSpeechPreviews(l, Hear(t, frame).(lowEnergy := t.lowEnergy + |frame|), frame);
    }
  }

  lemma FramePreviews(l: Limits, detect: Detector, frames: seq<Frame>, t: Track, frame: Frame)
    requires l.Valid() && InStep(l, detect, frames, t) && Paced(l, t)
    ensures RaisesPreview(t, Classify(l, detect, t, frame)) <==>
            Tolerated(l, detect, frames + [frame]) && DueWith(l, t, frame)
  {
    DescriptionsSnoc(l, detect, frames, frame);
    if detect(frames + [frame]) {
      AppendSpeechPreviews(l, BeginUtterance(Hear(t, frame), t.totalSamples), frame);
    } else {
      LowEnergyPreviews(l, t, frame);
    }
  }

  /**
   * A preview is raised exactly when an accepted frame brings the audio since the last
   * one to a full interval and leaves the window within its bound.
   */
  lemma PreviewsComeOnTime(l: Limits, detect: Detector, frames: seq<Frame>, frame: Frame)
    requires l.Valid()
    ensures var t := ClassifyAll(l, detect, frames);
            RaisesPreview(t, ClassifyAll(l, detect, frames + [frame])) <==>
            Tolerated(l, detect, frames + [frame]) && DueWith(l, t, frame)
  {
    AudioConserved(l, detect, frames);
    AllPaced(l, detect, frames);
    ClassifyAllSnoc(l, detect, frames, frame);
    FramePreviews(l, detect, frames, ClassifyAll(l, detect, frames), frame);
  }
}
