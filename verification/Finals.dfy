/**
 * When a session commits a segment, what the segment holds, and when it starts and
 * ends (internal/pluginkit/streaming.go).
 */
module Finals {
  import opened Segmentation
  import opened Intervals

  // ----- an independent description of the times

  /** The end of the last frame that was speech or tolerated. */
  function SpokenUntil(l: Limits, detect: Detector, frames: seq<Frame>): nat {
    if frames == [] then 0
    else if Tolerated(l, detect, frames) then Duration(frames)
    else SpokenUntil(l, detect, frames[..|frames| - 1])
  }

  /** The start of the frame that opened the utterance, as long as it is open. */
  function OpenedAt(l: Limits, detect: Detector, frames: seq<Frame>): nat {
    if frames == [] then 0
    else
      var front := frames[..|frames| - 1];
      if UtteranceOpen(l, detect, front) then OpenedAt(l, detect, front) else Duration(front)
  }

  /** The end of the last commit. */
  function CommittedUntil(triggers: seq<Trigger>): int {
    if triggers == [] then 0
    else
      var last := triggers[|triggers| - 1];
      if last.final then last.end else CommittedUntil(triggers[..|triggers| - 1])
  }

  function Later(a: int, b: int): int {
    if a >= b then a else b
  }

  /** A window starts with its utterance, or where the last commit left off within it. */
  function WindowStart(l: Limits, detect: Detector, frames: seq<Frame>, triggers: seq<Trigger>): int {
    Later(OpenedAt(l, detect, frames), CommittedUntil(triggers))
  }

  lemma CommittedUntilSnoc(triggers: seq<Trigger>, x: Trigger)
    ensures CommittedUntil(triggers + [x]) == if x.final then x.end else CommittedUntil(triggers)
  {
    assert (triggers + [x])[..|triggers|] == triggers;
  }

  /** Frames one longer. */
  lemma TimesSnoc(l: Limits, detect: Detector, frames: seq<Frame>, frame: Frame)
    ensures var next := frames + [frame];
            && SpokenUntil(l, detect, next) ==
                 (if Tolerated(l, detect, next) then Duration(frames) + |frame| else SpokenUntil(l, detect, frames))
            && OpenedAt(l, detect, next) ==
                 (if UtteranceOpen(l, detect, frames) then OpenedAt(l, detect, frames) else Duration(frames))
  {
    assert (frames + [frame])[..|frames|] == frames;
    DescriptionsSnoc(l, detect, frames, frame);
  }

  // ----- the machine agrees with it

  /** What the machine knows of the times, while an utterance is open. */
  ghost predicate OnTime(l: Limits, detect: Detector, frames: seq<Frame>, t: Track) {
    && InStep(l, detect, frames, t)
    && CommittedUntil(t.triggers) <= Duration(frames)
    && SpokenUntil(l, detect, frames) <= Duration(frames)
    && (t.active ==>
          && t.lastSpeechEnd == SpokenUntil(l, detect, frames)
          && t.windowStart == WindowStart(l, detect, frames, t.triggers))
  }

  predicate Overfills(l: Limits, t: Track, frame: Frame) {
    |t.window| + |frame| > l.maxWindow
  }

  /** The commit that a frame causes when it joins the window. */
  function FullWindow(t: Track, frame: Frame): Trigger {
    Trigger(true, t.window + frame, t.windowStart, t.totalSamples)
  }

  /** A frame that overfills the window commits it, the frame included, and the next window starts there. */
  lemma AppendCommits(l: Limits, t: Track, frame: Frame)
    requires l.Valid() && Overfills(l, t, frame)
    ensures var after := AppendSpeech(l, t, frame);
            && after.triggers == t.triggers + [FullWindow(t, frame)]
            && after.lastSpeechEnd == after.windowStart == t.totalSamples && after.window == []
            && CommittedUntil(after.triggers) == t.totalSamples
  {
    var grown := GrowWindow(t, frame);
    assert BoundWindow(l, grown).speechSincePartial == 0;
    CommittedUntilSnoc(t.triggers, FullWindow(t, frame));
  }

  /** Any other frame that joins the window raises a preview or nothing. */
  lemma AppendPreviews(l: Limits, t: Track, frame: Frame)
    requires l.Valid() && !Overfills(l, t, frame)
    ensures var after := AppendSpeech(l, t, frame);
            && (after.triggers == t.triggers
                || after.triggers == t.triggers + [Trigger(false, t.window + frame, t.windowStart, t.totalSamples)])
            && after.lastSpeechEnd == t.totalSamples && after.windowStart == t.windowStart
            && CommittedUntil(after.triggers) == CommittedUntil(t.triggers)
  {
    CommittedUntilSnoc(t.triggers, Trigger(false, t.window + frame, t.windowStart, t.totalSamples));
  }

  /** A frame joins the window of an utterance that opened at `start`. */
  lemma AppendOnTime(l: Limits, t: Track, frame: Frame, start: int)
    requires l.Valid() && CommittedUntil(t.triggers) <= t.totalSamples && start <= t.totalSamples
    requires t.windowStart == Later(start, CommittedUntil(t.triggers))
    ensures var after := AppendSpeech(l, t, frame);
            && after.lastSpeechEnd == t.totalSamples
            && after.windowStart == Later(start, CommittedUntil(after.triggers))
            && CommittedUntil(after.triggers) <= t.totalSamples
  {
    if Overfills(l, t, frame) {
      AppendCommits(l, t, frame);
    } else {
      AppendPreviews(l, t, frame);
    }
  }

  lemma {:induction false} OpenedBefore(l: Limits, detect: Detector, frames: seq<Frame>)
    ensures OpenedAt(l, detect, frames) <= Duration(frames)
  {
    if frames != [] {
      OpenedBefore(l, detect, frames[..|frames| - 1]);
    }
  }

  lemma SpeechOnTime(l: Limits, detect: Detector, frames: seq<Frame>, t: Track, frame: Frame)
    requires l.Valid() && OnTime(l, detect, frames, t) && detect(frames + [frame])
    ensures OnTime(l, detect, frames + [frame], AppendSpeech(l, BeginUtterance(Hear(t, frame), t.totalSamples), frame))
  {
    var begun := BeginUtterance(Hear(t, frame), t.totalSamples);
    SpeechInStep(l, detect, frames, t, frame);
    DescriptionsSnoc(l, detect, frames, frame);
    TimesSnoc(l, detect, frames, frame);
    OpenedBefore(l, detect, frames);
    AppendOnTime(l, begun, frame, OpenedAt(l, detect, frames + [frame]));
  }

  lemma DipOnTime(l: Limits, detect: Detector, frames: seq<Frame>, t: Track, frame: Frame)
    requires l.Valid() && OnTime(l, detect, frames, t) && !detect(frames + [frame])
    requires t.active && t.lowEnergy + |frame| <= l.hysteresis
    ensures OnTime(l, detect, frames + [frame],
                   AppendSpeech(l, Hear(t, frame).(lowEnergy := t.lowEnergy + |frame|), frame))
  {
    LowEnergyInStep(l, detect, frames, t, frame);
    DescriptionsSnoc(l, detect, frames, frame);
    TimesSnoc(l, detect, frames, frame);
    OpenedBefore(l, detect, frames);
    AppendOnTime(l, Hear(t, frame).(lowEnergy := t.lowEnergy + |frame|), frame, OpenedAt(l, detect, frames + [frame]));
  }

  /** The commit that the end of an utterance causes. */
  function ClosingWindow(t: Track): Trigger {
    Trigger(true, t.window, t.windowStart, t.lastSpeechEnd)
  }

  /** Beyond the hysteresis nothing is raised until the silence has lasted, and then the window is committed. */
  lemma SilenceCommits(l: Limits, t: Track, frame: Frame)
    requires t.active && t.lowEnergy + |frame| > l.hysteresis
    ensures var after := OnLowEnergy(l, Hear(t, frame), frame);
            && after.triggers == t.triggers
                 + (if t.lowEnergy + |frame| - l.hysteresis >= l.silence && t.window != [] then [ClosingWindow(t)]
                    else [])
            && (t.lowEnergy + |frame| - l.hysteresis < l.silence ==>
                  after.active && after.window == t.window
                  && after.lastSpeechEnd == t.lastSpeechEnd && after.windowStart == t.windowStart)
            && (t.lowEnergy + |frame| - l.hysteresis >= l.silence ==> !after.active)
  {
  }

  lemma SilenceOnTime(l: Limits, detect: Detector, frames: seq<Frame>, t: Track, frame: Frame)
    requires l.Valid() && OnTime(l, detect, frames, t) && !detect(frames + [frame])
    requires t.active && t.lowEnergy + |frame| > l.hysteresis
    ensures OnTime(l, detect, frames + [frame], OnLowEnergy(l, Hear(t, frame), frame))
  {
    LowEnergyInStep(l, detect, frames, t, frame);
    DescriptionsSnoc(l, detect, frames, frame);
    TimesSnoc(l, detect, frames, frame);
    SilenceCommits(l, t, frame);
    CommittedUntilSnoc(t.triggers, ClosingWindow(t));
    assert t.triggers + [] == t.triggers;
  }

  lemma QuietOnTime(l: Limits, detect: Detector, frames: seq<Frame>, t: Track, frame: Frame)
    requires l.Valid() && OnTime(l, detect, frames, t) && !detect(frames + [frame]) && !t.active
    ensures OnTime(l, detect, frames + [frame], OnLowEnergy(l, Hear(t, frame), frame))
  {
    LowEnergyInStep(l, detect, frames, t, frame);
    DescriptionsSnoc(l, detect, frames, frame);
    TimesSnoc(l, detect, frames, frame);
  }

  lemma ClassifyOnTime(l: Limits, detect: Detector, frames: seq<Frame>, t: Track, frame: Frame)
    requires l.Valid() && OnTime(l, detect, frames, t)
    ensures OnTime(l, detect, frames + [frame], Classify(l, detect, t, frame))
  {
    if detect(frames + [frame]) {
      SpeechOnTime(l, detect, frames, t, frame);
    } else if !t.active {
      QuietOnTime(l, detect, frames, t, frame);
    } else if t.lowEnergy + |frame| <= l.hysteresis {
      DipOnTime(l, detect, frames, t, frame);
    } else {
      SilenceOnTime(l, detect, frames, t, frame);
    }
  }

  lemma {:induction false} AllOnTime(l: Limits, detect: Detector, frames: seq<Frame>)
    requires l.Valid()
    ensures OnTime(l, detect, frames, ClassifyAll(l, detect, frames))
  {
    if frames != [] {
      var front, last := frames[..|frames| - 1], frames[|frames| - 1];
      AllOnTime(l, detect, front);
      ClassifyOnTime(l, detect, front, ClassifyAll(l, detect, front), last);
      assert front + [last] == frames;
    }
  }

  // ----- which frame commits, and what

  /** The frame at which the silence has lasted long enough. */
  predicate Closes(l: Limits, detect: Detector, frames: seq<Frame>, frame: Frame) {
    UtteranceOpen(l, detect, frames) && !UtteranceOpen(l, detect, frames + [frame])
  }

  /** What the window holds when the frame has been judged, before any commit. */
  function WindowWith(l: Limits, detect: Detector, frames: seq<Frame>, t: Track, frame: Frame): Frame {
    t.window + if Tolerated(l, detect, frames + [frame]) then frame else []
  }

  /** The trigger that a frame raises, by the description. */
  function Described(l: Limits, detect: Detector, frames: seq<Frame>, t: Track, frame: Frame, final: bool): Trigger {
    var next := frames + [frame];
    Trigger(final, WindowWith(l, detect, frames, t, frame),
            WindowStart(l, detect, next, t.triggers), SpokenUntil(l, detect, next))
  }

  /** The commit is due: the window overflows, or the utterance closes with something in it. */
  predicate CommitDue(l: Limits, detect: Detector, frames: seq<Frame>, t: Track, frame: Frame) {
    || (Tolerated(l, detect, frames + [frame]) && Overfills(l, t, frame))
    || (Closes(l, detect, frames, frame) && t.window != [])
  }

  lemma SpeechRaises(l: Limits, detect: Detector, frames: seq<Frame>, t: Track, frame: Frame)
    requires l.Valid() && OnTime(l, detect, frames, t) && detect(frames + [frame])
    ensures RaisesAsDescribed(l, detect, frames, t, frame)
  {
    var begun := BeginUtterance(Hear(t, frame), t.totalSamples);
    DescriptionsSnoc(l, detect, frames, frame);
    TimesSnoc(l, detect, frames, frame);
    JoinRaises(l, begun, frame);
  }

  lemma DipRaises(l: Limits, detect: Detector, frames: seq<Frame>, t: Track, frame: Frame)
    requires l.Valid() && OnTime(l, detect, frames, t) && !detect(frames + [frame])
    requires t.active && t.lowEnergy + |frame| <= l.hysteresis
    ensures RaisesAsDescribed(l, detect, frames, t, frame)
  {
    DescriptionsSnoc(l, detect, frames, frame);
    TimesSnoc(l, detect, frames, frame);
    JoinRaises(l, Hear(t, frame).(lowEnergy := t.lowEnergy + |frame|), frame);
  }

  lemma JoinRaises(l: Limits, t: Track, frame: Frame)
    requires l.Valid()
    ensures var after := AppendSpeech(l, t, frame).triggers;
            if Overfills(l, t, frame) then after == t.triggers + [FullWindow(t, frame)]
            else after == t.triggers
                 || after == t.triggers + [Trigger(false, t.window + frame, t.windowStart, t.totalSamples)]
  {
    if Overfills(l, t, frame) {
      AppendCommits(l, t, frame);
    } else {
      AppendPreviews(l, t, frame);
    }
  }

  lemma SilenceRaises(l: Limits, detect: Detector, frames: seq<Frame>, t: Track, frame: Frame)
    requires l.Valid() && OnTime(l, detect, frames, t) && !detect(frames + [frame])
    requires t.active && t.lowEnergy + |frame| > l.hysteresis
    ensures RaisesAsDescribed(l, detect, frames, t, frame)
  {
    DescriptionsSnoc(l, detect, frames, frame);
    TimesSnoc(l, detect, frames, frame);
    SilenceCommits(l, t, frame);
    assert t.window + [] == t.window && t.triggers + [] == t.triggers;
  }

  lemma QuietRaises(l: Limits, detect: Detector, frames: seq<Frame>, t: Track, frame: Frame)
    requires l.Valid() && OnTime(l, detect, frames, t) && !detect(frames + [frame]) && !t.active
    ensures RaisesAsDescribed(l, detect, frames, t, frame)
  {
    DescriptionsSnoc(l, detect, frames, frame);
  }

  /** One frame raises the described commit exactly when it is due, and otherwise a preview or nothing. */
  ghost predicate RaisesAsDescribed(l: Limits, detect: Detector, frames: seq<Frame>, t: Track, frame: Frame) {
    var after := Classify(l, detect, t, frame).triggers;
    if CommitDue(l, detect, frames, t, frame)
    then after == t.triggers + [Described(l, detect, frames, t, frame, true)]
    else after == t.triggers || after == t.triggers + [Described(l, detect, frames, t, frame, false)]
  }

  /**
   * A commit is raised exactly when an accepted frame overfills the window, or when the
   * silence behind an utterance has lasted and its window is not empty; it holds the
   * window, starts with the utterance or at the last commit within it, and ends with
   * the last accepted frame. A preview is described in the same way.
   */
  lemma CommitsComeOnTime(l: Limits, detect: Detector, frames: seq<Frame>, frame: Frame)
    requires l.Valid()
    ensures var t, after := ClassifyAll(l, detect, frames), ClassifyAll(l, detect, frames + [frame]);
            if CommitDue(l, detect, frames, t, frame)
            then after.triggers == t.triggers + [Described(l, detect, frames, t, frame, true)]
            else after.triggers == t.triggers
                 || after.triggers == t.triggers + [Described(l, detect, frames, t, frame, false)]
  {
    var t := ClassifyAll(l, detect, frames);
    AllOnTime(l, detect, frames);
    ClassifyAllSnoc(l, detect, frames, frame);
    if detect(frames + [frame]) {
      SpeechRaises(l, detect, frames, t, frame);
    } else if !t.active {
      QuietRaises(l, detect, frames, t, frame);
    } else if t.lowEnergy + |frame| <= l.hysteresis {
      DipRaises(l, detect, frames, t, frame);
    } else {
      SilenceRaises(l, detect, frames, t, frame);
    }
  }

  /** Finish commits the open window, if there is one, and nothing else. */
  lemma FlushCommits(l: Limits, detect: Detector, frames: seq<Frame>)
    requires l.Valid()
    ensures var t := ClassifyAll(l, detect, frames);
            var start, end := WindowStart(l, detect, frames, t.triggers), SpokenUntil(l, detect, frames);
            Flush(t).triggers == t.triggers + if t.window == [] then [] else [Trigger(true, t.window, start, end)]
  {
    AllOnTime(l, detect, frames);
    var t := ClassifyAll(l, detect, frames);
    assert t.triggers + [] == t.triggers;
  }
}
