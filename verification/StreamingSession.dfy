/** The session object and its methods (internal/pluginkit/streaming.go). */
module Streaming {
  import opened Segmentation
  import opened Framing
  import opened Dispatch
  import opened SessionRuns

  /** Durations are nanoseconds. */
  datatype Config = Config(
    sampleRate: int,
    maxWindow: int,
    partialInterval: int,
    silenceDuration: int,
    energyThreshold: real,
    silenceHysteresis: int,
    vadFrame: int)

  datatype Verdict =
    | Accepted
    | SampleRateNotPositive
    | MaxWindowNotPositive
    | PartialIntervalNotPositive
    | SilenceDurationNotPositive
    | EnergyThresholdNegative
    | HysteresisNegative
    | FrameNegative
    | FrameBelowOneSample
    | DurationBelowOneSample

  const SECOND := 1_000_000_000

  function DurationSamples(d: int, sampleRate: int): int {
    d * sampleRate / SECOND
  }

  function LimitsOf(c: Config): Limits {
    Limits(DurationSamples(c.maxWindow, c.sampleRate),
           DurationSamples(c.partialInterval, c.sampleRate),
           DurationSamples(c.silenceDuration, c.sampleRate),
           DurationSamples(c.silenceHysteresis, c.sampleRate),
           DurationSamples(c.vadFrame, c.sampleRate))
  }

  /** The checks of the constructor, in its order. */
  function Check(c: Config): Verdict {
    var l := LimitsOf(c);
    if c.sampleRate <= 0 then SampleRateNotPositive
    else if c.maxWindow <= 0 then MaxWindowNotPositive
    else if c.partialInterval <= 0 then PartialIntervalNotPositive
    else if c.silenceDuration <= 0 then SilenceDurationNotPositive
    else if c.energyThreshold < 0.0 then EnergyThresholdNegative
    else if c.silenceHysteresis < 0 then HysteresisNegative
    else if c.vadFrame < 0 then FrameNegative
    else if c.vadFrame > 0 && l.subframe == 0 then FrameBelowOneSample
    else if l.maxWindow == 0 || l.partialInterval == 0 || l.silence == 0 then DurationBelowOneSample
    else Accepted
  }

  lemma DurationNonNegative(d: int, sampleRate: int)
    requires d >= 0 && sampleRate > 0
    ensures DurationSamples(d, sampleRate) >= 0
  {
  }

  /** A number of samples is the duration at that rate, rounded down. */
  lemma SamplesBetween(d: int, sampleRate: int)
    ensures DurationSamples(d, sampleRate) * SECOND <= d * sampleRate < (DurationSamples(d, sampleRate) + 1) * SECOND
  {
  }

  /** Each limit is its own duration in samples. */
  lemma LimitsAreTheDurations(c: Config)
    ensures var l := LimitsOf(c);
            && l.maxWindow * SECOND <= c.maxWindow * c.sampleRate < (l.maxWindow + 1) * SECOND
            && l.partialInterval * SECOND <= c.partialInterval * c.sampleRate < (l.partialInterval + 1) * SECOND
            && l.silence * SECOND <= c.silenceDuration * c.sampleRate < (l.silence + 1) * SECOND
            && l.hysteresis * SECOND <= c.silenceHysteresis * c.sampleRate < (l.hysteresis + 1) * SECOND
            && l.subframe * SECOND <= c.vadFrame * c.sampleRate < (l.subframe + 1) * SECOND
  {
    SamplesBetween(c.maxWindow, c.sampleRate);
    SamplesBetween(c.partialInterval, c.sampleRate);
    SamplesBetween(c.silenceDuration, c.sampleRate);
    SamplesBetween(c.silenceHysteresis, c.sampleRate);
    SamplesBetween(c.vadFrame, c.sampleRate);
  }

  /** At least a sample long. */
  predicate SpansASample(d: int, sampleRate: int) {
    d * sampleRate >= SECOND
  }

  lemma SpansIffPositive(d: int, sampleRate: int)
    ensures SpansASample(d, sampleRate) <==> DurationSamples(d, sampleRate) > 0
  {
  }

  /**
   * The constructor accepts exactly the configurations with a positive rate, three
   * durations and, if set, a frame of at least a sample each, and nothing negative.
   */
  lemma AcceptedIff(c: Config)
    ensures Check(c) == Accepted <==>
            && c.sampleRate > 0 && c.energyThreshold >= 0.0 && c.silenceHysteresis >= 0
            && SpansASample(c.maxWindow, c.sampleRate) && SpansASample(c.partialInterval, c.sampleRate)
            && SpansASample(c.silenceDuration, c.sampleRate)
            && (c.vadFrame == 0 || SpansASample(c.vadFrame, c.sampleRate))
  {
    SpansIffPositive(c.maxWindow, c.sampleRate);
    SpansIffPositive(c.partialInterval, c.sampleRate);
    SpansIffPositive(c.silenceDuration, c.sampleRate);
    SpansIffPositive(c.vadFrame, c.sampleRate);
    PositiveSpan(c.maxWindow, c.sampleRate);
    PositiveSpan(c.partialInterval, c.sampleRate);
    PositiveSpan(c.silenceDuration, c.sampleRate);
    PositiveSpan(c.vadFrame, c.sampleRate);
  }

  /** At a positive rate only a positive duration spans a sample, and one that spans none has no samples. */
  lemma PositiveSpan(d: int, sampleRate: int)
    ensures sampleRate > 0 && SpansASample(d, sampleRate) ==> d > 0
    ensures sampleRate > 0 && d > 0 ==> DurationSamples(d, sampleRate) >= 0
  {
  }

  /** What the constructor accepts can drive the utterance machine, and a set frame really reframes. */
  lemma AcceptedMeansUsable(c: Config)
    requires Check(c) == Accepted
    ensures LimitsOf(c).Valid() && (c.vadFrame > 0 <==> LimitsOf(c).subframe > 0)
  {
    DurationNonNegative(c.maxWindow, c.sampleRate);
    DurationNonNegative(c.partialInterval, c.sampleRate);
    DurationNonNegative(c.silenceDuration, c.sampleRate);
    DurationNonNegative(c.silenceHysteresis, c.sampleRate);
    DurationNonNegative(c.vadFrame, c.sampleRate);
  }

  lemma {:induction false} OfferAllAppend(d: Dispatch, one: seq<Trigger>, more: seq<Trigger>)
    ensures OfferAll(d, one + more) == OfferAll(OfferAll(d, one), more)
    decreases |more|
  {
    if more == [] {
      assert one + more == one;
    } else {
      var front := more[..|more| - 1];
      OfferAllAppend(d, one, front);
      assert (one + more)[..|one + more| - 1] == one + front;
    }
  }

  function WithTrack(s: System, t: Track): System {
    s.(session := s.session.(track := t))
  }

  /** The dispatcher has been offered exactly the triggers raised in between. */
  ghost predicate OffersNew(before: System, after: System) {
    && before.session.track.triggers <= after.session.track.triggers
    && after.dispatch == OfferAll(before.dispatch, after.session.track.triggers[|before.session.track.triggers|..])
  }

  /** The machine is now in state t, and its new triggers have been offered. */
  ghost predicate Advances(before: System, after: System, t: Track) {
    after.session == before.session.(track := t) && OffersNew(before, after)
  }

  /** Offering what came before a moment, then what came after it, is offering all. */
  lemma OfferInTwoSteps(before: System, between: System, after: System)
    requires OffersNew(before, between) && OffersNew(between, after)
    ensures OffersNew(before, after)
  {
    var first, middle, last :=
      before.session.track.triggers, between.session.track.triggers, after.session.track.triggers;
    OfferAllAppend(before.dispatch, middle[|first|..], last[|middle|..]);
    assert last[|first|..] == middle[|first|..] + last[|middle|..];
  }

  /** The frames before position `consumed` of the buffer have been judged. */
  ghost predicate Drained(l: Limits, detect: Detector, buffer: Frame, before: System, now: System, consumed: int)
    requires l.subframe > 0 && 0 <= consumed <= |buffer|
  {
    && OffersNew(before, now)
    && Drain(Judge(l, detect), l.subframe, buffer, before.session.track) ==
       Drain(Judge(l, detect), l.subframe, buffer[consumed..], now.session.track)
  }

  lemma DrainedOne(l: Limits, detect: Detector, buffer: Frame, before: System, between: System, now: System,
                   consumed: int)
    requires l.subframe > 0 && 0 <= consumed <= |buffer| - l.subframe
    requires Drained(l, detect, buffer, before, between, consumed)
    requires Advances(between, now, Classify(l, detect, between.session.track, buffer[consumed..consumed + l.subframe]))
    ensures Drained(l, detect, buffer, before, now, consumed + l.subframe)
  {
    OfferInTwoSteps(before, between, now);
    DrainOne(l, detect, buffer, consumed, between.session.track);
  }

  /** Judging one frame of the buffer leaves the rest to be drained. */
  lemma DrainOne(l: Limits, detect: Detector, buffer: Frame, from: int, t: Track)
    requires 0 <= from <= |buffer| - l.subframe && l.subframe > 0
    ensures Drain(Judge(l, detect), l.subframe, buffer[from..], t) ==
            Drain(Judge(l, detect), l.subframe, buffer[from + l.subframe..],
                  Classify(l, detect, t, buffer[from..from + l.subframe]))
  {
    assert buffer[from..][..l.subframe] == buffer[from..from + l.subframe];
    assert buffer[from..][l.subframe..] == buffer[from + l.subframe..];
  }

  class StreamingSession {
    const limits: Limits
    const detect: Detector

    var heard: seq<Frame>  // what the detector has been shown
    var pending: Frame
    var window: Frame
    var totalSamples: int
    var windowStartSample: int
    var lastSpeechEndSample: int
    var speechSincePartial: int
    var continuousSilence: int
    var lowEnergySamples: int
    var active: bool
    var transcriptionInFlight: bool
    var pendingCommits: seq<Job>
    var waitGroup: int

    // The history that the model keeps beside the fields.
    var triggers: seq<Trigger>
    ghost var launched: seq<Job>
    ghost var phases: seq<Phase>
    ghost var attempted: seq<Job>
    ghost var emitted: seq<Job>
    ghost var evicted: seq<Job>

    /** The value of all fields. */
    ghost function Now(): System
      reads this
    {
      System(Session(pending,
                     Track(heard, window, totalSamples, windowStartSample, lastSpeechEndSample,
                           speechSincePartial, continuousSilence, lowEnergySamples, active, triggers)),
             Dispatch(triggers, transcriptionInFlight, pendingCommits, waitGroup,
                      launched, phases, attempted, emitted, evicted))
    }

    constructor (c: Config, detector: Detector)
      requires Check(c) == Accepted
      ensures limits == LimitsOf(c) && detect == detector
      ensures Now() == NEW_SYSTEM
    {
      limits, detect := LimitsOf(c), detector;
      heard, pending, window, triggers := [], [], [], [];
      totalSamples, windowStartSample, lastSpeechEndSample := 0, 0, 0;
      speechSincePartial, continuousSilence, lowEnergySamples := 0, 0, 0;
      active, transcriptionInFlight := false, false;
      pendingCommits, waitGroup := [], 0;
      launched, phases, attempted, emitted, evicted := [], [], [], [], [];
    }

    method LaunchTranscriptionLocked(job: Job)
      modifies this
      ensures Now() == old(Now()).(dispatch := Launch(old(Now().dispatch), job))
    {
      transcriptionInFlight := true;
      waitGroup := waitGroup + 1;
      launched := launched + [job];
      phases := phases + [Transcribing];
    }

    method QueueCommitLocked(job: Job)
      modifies this
      ensures Now() == old(Now()).(dispatch := QueueCommit(old(Now().dispatch), job))
    {
      if |pendingCommits| >= MAX_PENDING_COMMITS {
        evicted := evicted + [pendingCommits[0]];
        pendingCommits := pendingCommits[1..];
      }
      pendingCommits := pendingCommits + [job];
    }

    method StartTranscriptionLocked(final: bool)
      modifies this
      ensures Advances(old(Now()), Now(), StartTranscription(old(Now().session.track), final))
    {
      if |window| == 0 {
        return;
      }
      var trigger := Trigger(final, window, windowStartSample, lastSpeechEndSample);
      var job := Job(|triggers|, trigger);
      triggers := triggers + [trigger];
      assert triggers[|old(triggers)|..] == [trigger];
      assert [trigger][..0] == [];
      if transcriptionInFlight {
        if final {
          QueueCommitLocked(job);
        }
      } else {
        LaunchTranscriptionLocked(job);
      }
    }

    /** The assignments that beginNextWindowLocked and resetUtteranceLocked share. */
    method EmptyWindowLocked(at: int)
      modifies this
      ensures Now() == WithTrack(old(Now()), old(Now().session.track).(
                         window := [], speechSincePartial := 0, windowStart := at, lastSpeechEnd := at))
    {
      window := [];
      speechSincePartial := 0;
      windowStartSample := at;
      lastSpeechEndSample := at;
    }

    method BeginNextWindowLocked()
      modifies this
      ensures Now() == WithTrack(old(Now()), BeginNextWindow(old(Now().session.track)))
    {
      EmptyWindowLocked(totalSamples);
    }

    method ResetUtteranceLocked()
      modifies this
      ensures Now() == WithTrack(old(Now()), ResetUtterance(old(Now().session.track)))
    {
      active := false;
      continuousSilence := 0;
      lowEnergySamples := 0;
      EmptyWindowLocked(0);
    }

    method BoundWindowLocked()
      modifies this
      ensures Advances(old(Now()), Now(), BoundWindow(limits, old(Now().session.track)))
    {
      if |window| <= limits.maxWindow {
        return;
      }
      StartTranscriptionLocked(true);
      BeginNextWindowLocked();
    }

    method AppendSpeechLocked(frame: Frame)
      modifies this
      ensures Advances(old(Now()), Now(), AppendSpeech(limits, old(Now().session.track), frame))
    {
      GrowWindowLocked(frame);
      BoundWindowLocked();
      ghost var between := Now();
      StartDuePartialLocked();
      OfferInTwoSteps(old(Now()), between, Now());
    }

    method GrowWindowLocked(frame: Frame)
      modifies this
      ensures Now() == WithTrack(old(Now()), GrowWindow(old(Now().session.track), frame))
    {
      speechSincePartial := speechSincePartial + |frame|;
      lastSpeechEndSample := totalSamples;
      window := window + frame;
    }

    method StartDuePartialLocked()
      modifies this
      ensures Advances(old(Now()), Now(), DuePartial(limits, old(Now().session.track)))
    {
      if speechSincePartial >= limits.partialInterval {
        speechSincePartial := 0;
        StartTranscriptionLocked(false);
      }
    }

    method BeginUtteranceLocked(frameStart: int)
      modifies this
      ensures Now() == WithTrack(old(Now()), BeginUtterance(old(Now().session.track), frameStart))
    {
      if !active {
        active, windowStartSample := true, frameStart;
      }
      continuousSilence, lowEnergySamples := 0, 0;
    }

    method ClassifyLowEnergyLocked(frame: Frame)
      modifies this
      ensures Advances(old(Now()), Now(), OnLowEnergy(limits, old(Now().session.track), frame))
    {
      if !active {
        return;
      }
      lowEnergySamples := lowEnergySamples + |frame|;
      if lowEnergySamples <= limits.hysteresis {
        AppendSpeechLocked(frame);
        return;
      }
      continuousSilence := lowEnergySamples - limits.hysteresis;
      if continuousSilence >= limits.silence {
        StartTranscriptionLocked(true);
        ResetUtteranceLocked();
      }
    }

    method ClassifyLocked(frame: Frame)
      modifies this
      ensures Advances(old(Now()), Now(), Classify(limits, detect, old(Now().session.track), frame))
    {
      heard := heard + [frame];
      var isSpeech := detect(heard);
      var frameStart := totalSamples;
      totalSamples := totalSamples + |frame|;
      assert Now() == WithTrack(old(Now()), Hear(old(Now().session.track), frame));
      if isSpeech {
        BeginUtteranceLocked(frameStart);
        AppendSpeechLocked(frame);
      } else {
        ClassifyLowEnergyLocked(frame);
      }
    }

    /** Accepts audio in whatever chunks it arrives. */
    method Feed(chunk: Frame)
      modifies this
      ensures Now() == Act(limits, detect, old(Now()), Fed(chunk))
    {
      if |chunk| == 0 {
        return;
      }
      if limits.subframe <= 0 {
        ClassifyLocked(chunk);
        return;
      }
      pending := pending + chunk;
      JudgePendingLocked();
    }

    /** Judges the whole frames of the buffer and keeps what is left. */
    method JudgePendingLocked()
      requires limits.subframe > 0
      modifies this
      ensures OffersNew(old(Now()), Now())
      ensures (Now().session.pending, Now().session.track) ==
              Drain(Judge(limits, detect), limits.subframe, old(Now().session.pending), old(Now().session.track))
    {
      ghost var buffer := pending;
      var consumed := 0;
      while |pending| - consumed >= limits.subframe
        invariant 0 <= consumed <= |pending|
        invariant pending == buffer
        invariant Drained(limits, detect, buffer, old(Now()), Now(), consumed)
      {
        JudgeFrameLocked(consumed, old(Now()));
        consumed := consumed + limits.subframe;
      }
      pending := pending[consumed..];
    }

    /** Judges the frame of the buffer that starts at a position; what was judged before it is taken from `before`. */
    method JudgeFrameLocked(consumed: int, ghost before: System)
      requires limits.subframe > 0 && 0 <= consumed <= |pending| - limits.subframe
      requires Drained(limits, detect, pending, before, Now(), consumed)
      modifies this
      ensures pending == old(pending)
      ensures Drained(limits, detect, pending, before, Now(), consumed + limits.subframe)
    {
      ghost var between := Now();
      ClassifyLocked(pending[consumed..consumed + limits.subframe]);
      assert Now().session.pending == between.session.pending;
      DrainedOne(limits, detect, pending, before, between, Now(), consumed);
    }

    /** The part of Finish that holds the mutex; it then waits for the wait group. */
    method Finish()
      modifies this
      ensures Now() == Act(limits, detect, old(Now()), Finished)
    {
      if |pending| > 0 {
        var remainder := pending;
        pending := [];
        ClassifyLocked(remainder);
      }
      ghost var between := Now();
      if active && |window| > 0 {
        StartTranscriptionLocked(true);
        ResetUtteranceLocked();
        OfferInTwoSteps(old(Now()), between, Now());
      }
    }

    /** Goroutine k: the transcription returns and its result is emitted. */
    method CompleteTranscription(k: nat, delivered: bool)
      requires k < |phases| == |launched| && phases[k].Transcribing?
      modifies this
      ensures Now() == Act(limits, detect, old(Now()), Worked(Completed(k, delivered)))
    {
      phases := phases[k := Emitted];
      attempted := attempted + [launched[k]];
      if delivered {
        emitted := emitted + [launched[k]];
      }
    }

    /** Goroutine k: with the mutex held, start the next commit or clear the flag. */
    method HandOffNext(k: nat)
      requires k < |phases| == |launched| && phases[k].Emitted?
      modifies this
      ensures Now() == Act(limits, detect, old(Now()), Worked(HandedOff(k)))
    {
      phases := phases[k := Retired];
      if |pendingCommits| == 0 {
        transcriptionInFlight := false;
      } else {
        var next := pendingCommits[0];
        pendingCommits := pendingCommits[1..];
        LaunchTranscriptionLocked(next);
      }
    }

    /** Goroutine k: its deferred signal to the wait group. */
    method SignalWaitGroup(k: nat)
      requires k < |phases| == |launched| && phases[k].Retired?
      modifies this
      ensures Now() == Act(limits, detect, old(Now()), Worked(Signalled(k)))
    {
      phases := phases[k := Done];
      waitGroup := waitGroup - 1;
    }
  }
}
