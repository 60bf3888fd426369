/** Start times of segments in milliseconds (internal/pluginkit/streaming.go). */
module Timestamps {
  import opened Sequences
  import opened Segmentation
  import opened Intervals
  import opened Framing

  function SamplesToMS(samples: int, sampleRate: int): int
    requires sampleRate > 0
  {
    samples * 1000 / sampleRate
  }

  /** A time in milliseconds is that of the sample, rounded down. */
  lemma MillisecondsBetween(samples: int, sampleRate: int)
    requires sampleRate > 0
    ensures var ms := SamplesToMS(samples, sampleRate);
            ms * sampleRate <= samples * 1000 < (ms + 1) * sampleRate
  {
    var ms := SamplesToMS(samples, sampleRate);
    assert samples * 1000 == sampleRate * ms + samples * 1000 % sampleRate;
  }

  lemma ProductMonotone(d: int, a: int, b: int)
    requires d >= 0 && a <= b
    ensures d * a <= d * b
  {
  }

  /** A numerator that is larger by the divisor has a larger quotient. */
  lemma QuotientsApart(x: int, y: int, d: int)
    requires d > 0 && x + d <= y
    ensures x / d < y / d
  {
    var q, r := x / d, y / d;
    assert x == d * q + x % d && y == d * r + y % d;
    if r <= q {
      ProductMonotone(d, r, q);
      assert false;
    }
  }

  /** Sample times at least a millisecond apart differ in milliseconds. */
  lemma MillisecondsApart(a: int, b: int, gap: int, sampleRate: int)
    requires sampleRate > 0 && a + gap <= b && gap * 1000 >= sampleRate
    ensures SamplesToMS(a, sampleRate) < SamplesToMS(b, sampleRate)
  {
    QuotientsApart(a * 1000, b * 1000, sampleRate);
  }

  /** No trigger, and no open window, is shorter than a frame. */
  ghost predicate Solid(n: int, t: Track) {
    && (forall i :: 0 <= i < |t.triggers| ==> |t.triggers[i].samples| >= n)
    && (t.window == [] || |t.window| >= n)
  }

  lemma AppendSpeechSolid(n: int, l: Limits, t: Track, frame: Frame)
    requires Solid(n, t) && |frame| >= n
    ensures Solid(n, AppendSpeech(l, t, frame))
  {
  }

  lemma ClassifySolid(n: int, l: Limits, detect: Detector, t: Track, frame: Frame)
    requires Solid(n, t) && |frame| >= n
    ensures Solid(n, Classify(l, detect, t, frame))
  {
    var seen := Hear(t, frame);
    if detect(seen.heard) {
      AppendSpeechSolid(n, l, BeginUtterance(seen, t.totalSamples), frame);
    } else if t.active {
      AppendSpeechSolid(n, l, seen.(lowEnergy := seen.lowEnergy + |frame|), frame);
    }
  }

  lemma {:induction false} AllSolid(n: int, l: Limits, detect: Detector, frames: seq<Frame>)
    requires forall k :: 0 <= k < |frames| ==> |frames[k]| >= n
    ensures Solid(n, ClassifyAll(l, detect, frames))
  {
    if frames != [] {
      var front := frames[..|frames| - 1];
      AllSolid(n, l, detect, front);
      ClassifySolid(n, l, detect, ClassifyAll(l, detect, front), frames[|frames| - 1]);
    }
  }

  /** Only the newest final may be shorter than a frame. */
  ghost predicate SolidFinals(n: int, triggers: seq<Trigger>) {
    forall i :: 0 <= i < |triggers| - 1 && triggers[i].final ==> |triggers[i].samples| >= n
  }

  /** The remainder that Finish judges may be short, but then its final is the last. */
  lemma RemainderSolid(n: int, l: Limits, detect: Detector, t: Track, remainder: Frame)
    requires Solid(n, t)
    ensures SolidFinals(n, Flush(Classify(l, detect, t, remainder)).triggers)
  {
    ClassifyRaisesAtMostOne(l, detect, t, remainder);
    var judged := Classify(l, detect, t, remainder);
    if judged.triggers != t.triggers {
      var raised :| && judged.triggers == t.triggers + [raised]
                    && (raised.final ==> judged.window == []);
    }
  }

  /** From one final to any later trigger the clock advances by at least n samples. */
  ghost predicate SpreadBy(n: int, triggers: seq<Trigger>) {
    forall i, j :: 0 <= i < j < |triggers| && triggers[i].final ==> triggers[i].start + n <= triggers[j].start
  }

  lemma SpreadOut(n: int, triggers: seq<Trigger>)
    requires LaidOut(triggers) && SolidFinals(n, triggers)
    ensures SpreadBy(n, triggers)
  {
    forall i, j | 0 <= i < j < |triggers| && triggers[i].final
      ensures triggers[i].start + n <= triggers[j].start
    {
      assert Sound(triggers[i]);
      assert !Previews(triggers[i], triggers[j]);
    }
  }

  /** The triggers of a session fed with whole frames, before Finish and after it. */
  lemma SessionSpreadsOut(l: Limits, detect: Detector, chunks: seq<Frame>)
    requires l.subframe > 0
    ensures SpreadBy(l.subframe, FeedAll(l, detect, chunks).track.triggers)
    ensures SpreadBy(l.subframe, Finish(l, detect, FeedAll(l, detect, chunks)).track.triggers)
  {
    var n, frames, rest := l.subframe, FramesFed(l, chunks), Unjudged(l, chunks);
    CutIsEven(Flat(chunks), n);
    FeedAllJudges(l, detect, chunks);
    FinishJudges(l, detect, chunks);
    AllSolid(n, l, detect, frames);
    TriggersLaidOut(l, detect, frames);
    SpreadOut(n, ClassifyAll(l, detect, frames).triggers);
    TriggersLaidOut(l, detect, FramesFinished(l, chunks));
    if rest == [] {
      assert frames + [] == frames;
    } else {
      ClassifyAllSnoc(l, detect, frames, rest);
      RemainderSolid(n, l, detect, ClassifyAll(l, detect, frames), rest);
    }
    SpreadOut(n, Flush(ClassifyAll(l, detect, FramesFinished(l, chunks))).triggers);
  }
}
