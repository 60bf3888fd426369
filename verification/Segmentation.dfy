/**
 * The utterance machine of StreamingSession as a function of the frames it is
 * given (internal/pluginkit/streaming.go). A frame is what the detector judges
 * in one call; how audio is cut into frames is the business of module Framing.
 */
module Segmentation {
  import opened Sequences

  type Sample = real
  type Frame = seq<Sample>

  /**
   * A deterministic detector: its verdict on the newest frame is a function of
   * every frame it has been shown so far, so it may keep any state it likes.
   */
  type Detector = seq<Frame> -> bool

  /** The session's durations, converted to numbers of samples. */
  datatype Limits = Limits(maxWindow: int, partialInterval: int, silence: int, hysteresis: int, subframe: int) {
    predicate Valid() {
      maxWindow > 0 && partialInterval > 0 && silence > 0 && hysteresis >= 0 && subframe >= 0
    }
  }

  /** One request to transcribe the window: a preview, or the commit of a segment. */
  datatype Trigger = Trigger(final: bool, samples: Frame, start: int, end: int)

  /** The machine's state, with the trace of every trigger it has raised. */
  datatype Track = Track(
    heard: seq<Frame>,
    window: Frame,
    totalSamples: int,
    windowStart: int,
    lastSpeechEnd: int,
    speechSincePartial: int,
    continuousSilence: int,
    lowEnergy: int,
    active: bool,
    triggers: seq<Trigger>)

  const START := Track([], [], 0, 0, 0, 0, 0, 0, false, [])

  // ----- the transitions

  function StartTranscription(t: Track, final: bool): Track {
    if t.window == [] then t
    else t.(triggers := t.triggers + [Trigger(final, t.window, t.windowStart, t.lastSpeechEnd)])
  }

  function BeginNextWindow(t: Track): Track {
    t.(window := [], speechSincePartial := 0, windowStart := t.totalSamples, lastSpeechEnd := t.totalSamples)
  }

  function ResetUtterance(t: Track): Track {
    t.(window := [], active := false, continuousSilence := 0, lowEnergy := 0,
       speechSincePartial := 0, windowStart := 0, lastSpeechEnd := 0)
  }

  function BoundWindow(l: Limits, t: Track): Track {
    if |t.window| <= l.maxWindow then t else BeginNextWindow(StartTranscription(t, true))
  }

  function GrowWindow(t: Track, frame: Frame): Track {
    t.(speechSincePartial := t.speechSincePartial + |frame|,
       lastSpeechEnd := t.totalSamples,
       window := t.window + frame)
  }

  /** A partial is due when enough speech has gathered since the last one. */
  function DuePartial(l: Limits, t: Track): Track {
    if t.speechSincePartial >= l.partialInterval
    then StartTranscription(t.(speechSincePartial := 0), false)
    else t
  }

  function AppendSpeech(l: Limits, t: Track, frame: Frame): Track {
    DuePartial(l, BoundWindow(l, GrowWindow(t, frame)))
  }

  /** A frame reaches the detector and moves the clock. */
  function Hear(t: Track, frame: Frame): Track {
    t.(heard := t.heard + [frame], totalSamples := t.totalSamples + |frame|)
  }

  /** Speech opens the utterance if need be and restarts the silence clocks. */
  function BeginUtterance(t: Track, frameStart: int): Track {
    t.(active := true,
       windowStart := if t.active then t.windowStart else frameStart,
       continuousSilence := 0,
       lowEnergy := 0)
  }

  /** Low energy beyond the hysteresis runs down the clock that ends the utterance. */
  function Silence(l: Limits, t: Track): Track {
    var silent := t.(continuousSilence := t.lowEnergy - l.hysteresis);
    if silent.continuousSilence >= l.silence then ResetUtterance(StartTranscription(silent, true)) else silent
  }

  function OnLowEnergy(l: Limits, t: Track, frame: Frame): Track {
    if !t.active then t
    else
      var dipped := t.(lowEnergy := t.lowEnergy + |frame|);
      if dipped.lowEnergy <= l.hysteresis then AppendSpeech(l, dipped, frame) else Silence(l, dipped)
  }

  function Classify(l: Limits, detect: Detector, t: Track, frame: Frame): Track {
    var seen := Hear(t, frame);
    if detect(seen.heard)
    then AppendSpeech(l, BeginUtterance(seen, t.totalSamples), frame)
    else OnLowEnergy(l, seen, frame)
  }

  /** What Finish does once the remainder has been classified. */
  function Flush(t: Track): Track {
    if t.active && t.window != [] then ResetUtterance(StartTranscription(t, true)) else t
  }

  /** The state after judging `frames` in order, from a new session. */
  function ClassifyAll(l: Limits, detect: Detector, frames: seq<Frame>): Track {
    if frames == [] then START
    else Classify(l, detect, ClassifyAll(l, detect, frames[..|frames| - 1]), frames[|frames| - 1])
  }

  lemma ClassifyAllSnoc(l: Limits, detect: Detector, frames: seq<Frame>, frame: Frame)
    ensures ClassifyAll(l, detect, frames + [frame]) == Classify(l, detect, ClassifyAll(l, detect, frames), frame)
  {
    assert (frames + [frame])[..|frames|] == frames;
  }

  // ----- an independent description of the speech that must be transcribed

  datatype Dip = NoSpeechYet | SilentFor(samples: nat)

  /** How much audio has passed since the last frame judged to be speech. */
  function DipAfter(detect: Detector, frames: seq<Frame>): Dip {
    if frames == [] then NoSpeechYet
    else if detect(frames) then SilentFor(0)
    else match DipAfter(detect, frames[..|frames| - 1])
      case NoSpeechYet => NoSpeechYet
      case SilentFor(n) => SilentFor(n + |frames[|frames| - 1]|)
  }

  /** The newest frame is speech, or belongs to a dip no longer than the hysteresis. */
  predicate Tolerated(l: Limits, detect: Detector, frames: seq<Frame>) {
    match DipAfter(detect, frames)
    case NoSpeechYet => false
    case SilentFor(n) => n <= l.hysteresis
  }

  /** All the audio that has to reach a transcription, in order. */
  function AcceptedAudio(l: Limits, detect: Detector, frames: seq<Frame>): Frame {
    if frames == [] then []
    else
      AcceptedAudio(l, detect, frames[..|frames| - 1]) +
      if Tolerated(l, detect, frames) then frames[|frames| - 1] else []
  }

  /** An utterance is open from a speech frame until the silence clock runs out. */
  predicate UtteranceOpen(l: Limits, detect: Detector, frames: seq<Frame>) {
    match DipAfter(detect, frames)
    case NoSpeechYet => false
    case SilentFor(n) => n - l.hysteresis < l.silence
  }

  /** The audio of all final triggers, in the order they were raised. */
  function CommittedAudio(triggers: seq<Trigger>): Frame {
    if triggers == [] then []
    else
      var last := triggers[|triggers| - 1];
      CommittedAudio(triggers[..|triggers| - 1]) + if last.final then last.samples else []
  }

  lemma CommittedSnoc(triggers: seq<Trigger>, t: Trigger)
    ensures CommittedAudio(triggers + [t]) == CommittedAudio(triggers) + if t.final then t.samples else []
  {
    assert (triggers + [t])[..|triggers|] == triggers;
  }

  /** The total length of the frames: the stream's clock. */
  function Duration(frames: seq<Frame>): nat {
    if frames == [] then 0 else Duration(frames[..|frames| - 1]) + |frames[|frames| - 1]|
  }

  // ----- what one frame can do to the trace

  /** Each frame raises at most one trigger, and a commit leaves the window empty. */
  ghost predicate RaisesAtMostOne(before: Track, after: Track) {
    || after.triggers == before.triggers
    || (exists t: Trigger ::
          && after.triggers == before.triggers + [t]
          && t.samples != []
          && (t.final ==> after.window == [])
          && (!t.final ==> t == Trigger(false, after.window, after.windowStart, after.lastSpeechEnd)))
  }

  lemma AppendSpeechRaisesAtMostOne(l: Limits, t: Track, frame: Frame)
    ensures RaisesAtMostOne(t, AppendSpeech(l, t, frame))
  {
    var after := AppendSpeech(l, t, frame);
    if |after.triggers| > |t.triggers| {
      assert after.triggers == t.triggers + [after.triggers[|t.triggers|]];
    }
  }

  lemma ClassifyRaisesAtMostOne(l: Limits, detect: Detector, t: Track, frame: Frame)
    ensures RaisesAtMostOne(t, Classify(l, detect, t, frame))
  {
    var seen := Hear(t, frame);
    if detect(seen.heard) {
      AppendSpeechRaisesAtMostOne(l, BeginUtterance(seen, t.totalSamples), frame);
    } else if t.active {
      var dipped := seen.(lowEnergy := seen.lowEnergy + |frame|);
      if dipped.lowEnergy <= l.hysteresis {
        AppendSpeechRaisesAtMostOne(l, dipped, frame);
      } else if |Silence(l, dipped).triggers| > |t.triggers| {
        assert Silence(l, dipped).triggers == t.triggers + [Silence(l, dipped).triggers[|t.triggers|]];
      }
    }
  }

  // ----- audio conservation

  /** The clocks and the activity flag describe the frames judged so far. */
  ghost predicate InStep(l: Limits, detect: Detector, frames: seq<Frame>, t: Track) {
    && t.heard == frames
    && t.totalSamples == Duration(frames)
    && t.active == UtteranceOpen(l, detect, frames)
    && (t.active ==> t.lowEnergy == DipAfter(detect, frames).samples)
    && (!t.active ==> t.window == [])
    && |t.window| <= l.maxWindow
  }

  /** All committed audio, then the audio still in the window. */
  function HeldAudio(t: Track): Frame {
    CommittedAudio(t.triggers) + t.window
  }

  lemma StartTranscriptionHolds(t: Track, final: bool)
    ensures !final ==> HeldAudio(StartTranscription(t, final)) == HeldAudio(t)
    ensures final ==> CommittedAudio(StartTranscription(t, final).triggers) == HeldAudio(t)
  {
    CommittedSnoc(t.triggers, Trigger(final, t.window, t.windowStart, t.lastSpeechEnd));
  }

  lemma AppendSpeechHolds(l: Limits, t: Track, frame: Frame)
    ensures HeldAudio(AppendSpeech(l, t, frame)) == HeldAudio(t) + frame
  {
    var grown := t.(speechSincePartial := t.speechSincePartial + |frame|,
                    lastSpeechEnd := t.totalSamples,
                    window := t.window + frame);
    assert HeldAudio(grown) == HeldAudio(t) + frame;
    StartTranscriptionHolds(grown, true);
    var bounded := BoundWindow(l, grown);
    assert HeldAudio(bounded) == HeldAudio(grown);
    StartTranscriptionHolds(bounded.(speechSincePartial := 0), false);
  }

  lemma OnLowEnergyHolds(l: Limits, t: Track, frame: Frame)
    requires t.active || t.window == []
    ensures HeldAudio(OnLowEnergy(l, t, frame)) ==
              HeldAudio(t) + if t.active && t.lowEnergy + |frame| <= l.hysteresis then frame else []
  {
    if t.active {
      var dipped := t.(lowEnergy := t.lowEnergy + |frame|);
      AppendSpeechHolds(l, dipped, frame);
      StartTranscriptionHolds(dipped.(continuousSilence := dipped.lowEnergy - l.hysteresis), true);
    }
  }

  /** Frames one longer: what the three descriptions say of the newest. */
  lemma DescriptionsSnoc(l: Limits, detect: Detector, frames: seq<Frame>, frame: Frame)
    ensures var next := frames + [frame];
            && Duration(next) == Duration(frames) + |frame|
            && DipAfter(detect, next) ==
                 (if detect(next) then SilentFor(0)
                  else match DipAfter(detect, frames)
                    case NoSpeechYet => NoSpeechYet
                    case SilentFor(n) => SilentFor(n + |frame|))
            && AcceptedAudio(l, detect, next) ==
                 AcceptedAudio(l, detect, frames) + (if Tolerated(l, detect, next) then frame else [])
  {
    var next := frames + [frame];
    assert next[..|next| - 1] == frames && next[|next| - 1] == frame;
  }

  lemma SpeechInStep(l: Limits, detect: Detector, frames: seq<Frame>, t: Track, frame: Frame)
    requires l.Valid() && InStep(l, detect, frames, t) && detect(frames + [frame])
    ensures InStep(l, detect, frames + [frame],
                   AppendSpeech(l, BeginUtterance(Hear(t, frame), t.totalSamples), frame))
  {
    DescriptionsSnoc(l, detect, frames, frame);
  }

  lemma LowEnergyInStep(l: Limits, detect: Detector, frames: seq<Frame>, t: Track, frame: Frame)
    requires l.Valid() && InStep(l, detect, frames, t) && !detect(frames + [frame])
    ensures InStep(l, detect, frames + [frame], OnLowEnergy(l, Hear(t, frame), frame))
  {
    DescriptionsSnoc(l, detect, frames, frame);
  }

  /**
   * Nothing accepted is lost or repeated: after any frames, the committed audio
   * followed by the open window is exactly the accepted audio, the window never
   * exceeds its bound, and an utterance is open exactly while it should be.
   */
  lemma {:induction false} AudioConserved(l: Limits, detect: Detector, frames: seq<Frame>)
    requires l.Valid()
    ensures var t := ClassifyAll(l, detect, frames);
            InStep(l, detect, frames, t) && HeldAudio(t) == AcceptedAudio(l, detect, frames)
  {
    if frames != [] {
      var front, last := frames[..|frames| - 1], frames[|frames| - 1];
      assert frames == front + [last];
      AudioConserved(l, detect, front);
      var t := ClassifyAll(l, detect, front);
      DescriptionsSnoc(l, detect, front, last);
      if detect(frames) {
        SpeechInStep(l, detect, front, t, last);
        AppendSpeechHolds(l, BeginUtterance(Hear(t, last), t.totalSamples), last);
      } else {
        LowEnergyInStep(l, detect, front, t, last);
        OnLowEnergyHolds(l, Hear(t, last), last);
      }
    }
  }

  /** After Finish every accepted sample has been committed and the window is empty. */
  lemma FinishCommitsEverything(l: Limits, detect: Detector, frames: seq<Frame>)
    requires l.Valid()
    ensures var done := Flush(ClassifyAll(l, detect, frames));
            CommittedAudio(done.triggers) == AcceptedAudio(l, detect, frames) && done.window == []
  {
    AudioConserved(l, detect, frames);
    StartTranscriptionHolds(ClassifyAll(l, detect, frames), true);
  }
}
