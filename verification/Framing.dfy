/**
 * Feed and Finish: how arbitrary chunks of audio become the frames that the
 * utterance machine judges (internal/pluginkit/streaming.go).
 */
module Framing {
  import opened Sequences
  import opened Segmentation
  import opened Intervals

  /** The machine with the audio that does not fill a frame yet. */
  datatype Session = Session(pending: Frame, track: Track)

  const NEW_SESSION := Session([], START)

  /** The state after judging `frames` in order with any judge. */
  function JudgeAll<S>(judge: (S, Frame) -> S, initial: S, frames: seq<Frame>): S {
    if frames == [] then initial
    else judge(JudgeAll(judge, initial, frames[..|frames| - 1]), frames[|frames| - 1])
  }

  /** Judges every whole frame at the front of the buffer. */
  function Drain<S>(judge: (S, Frame) -> S, n: int, pending: Frame, s: S): (Frame, S)
    requires n > 0
    decreases |pending|
  {
    if |pending| < n then (pending, s) else Drain(judge, n, pending[n..], judge(s, pending[..n]))
  }

  /** The judge of a session: the detector, then one step of the utterance machine. */
  function Judge(l: Limits, detect: Detector): (Track, Frame) -> Track {
    (t: Track, frame: Frame) => Classify(l, detect, t, frame)
  }

  function Feed(l: Limits, detect: Detector, s: Session, chunk: Frame): Session {
    if chunk == [] then s
    else if l.subframe <= 0 then s.(track := Classify(l, detect, s.track, chunk))
    else
      var (pending, track) := Drain(Judge(l, detect), l.subframe, s.pending + chunk, s.track);
      Session(pending, track)
  }

  function Finish(l: Limits, detect: Detector, s: Session): Session {
    Session([], Flush(if s.pending == [] then s.track else Classify(l, detect, s.track, s.pending)))
  }

  function FeedAll(l: Limits, detect: Detector, chunks: seq<Frame>): Session {
    if chunks == [] then NEW_SESSION
    else Feed(l, detect, FeedAll(l, detect, chunks[..|chunks| - 1]), chunks[|chunks| - 1])
  }

  // ----- the frames of an audio stream, without reference to chunks

  function Cut(audio: Frame, n: int): seq<Frame>
    requires n > 0
  {
    if |audio| < n then [] else [audio[..n]] + Cut(audio[n..], n)
  }

  function Remainder(audio: Frame, n: int): Frame
    requires n > 0
  {
    if |audio| < n then audio else Remainder(audio[n..], n)
  }

  /** Cutting makes frames of size n, leaves less than one, ... */
  lemma {:induction false} CutIsEven(audio: Frame, n: int)
    requires n > 0
    ensures forall k :: 0 <= k < |Cut(audio, n)| ==> |Cut(audio, n)[k]| == n
    ensures |Remainder(audio, n)| < n
    decreases |audio|
  {
    if |audio| >= n {
      CutIsEven(audio[n..], n);
    }
  }

  /** ... and loses nothing. */
  lemma {:induction false} CutIsTheAudio(audio: Frame, n: int)
    requires n > 0
    ensures Flat(Cut(audio, n)) + Remainder(audio, n) == audio
    decreases |audio|
  {
    if |audio| >= n {
      CutIsTheAudio(audio[n..], n);
      PutBack(audio, n, Cut(audio[n..], n), Remainder(audio[n..], n));
    }
  }

  /** The first frame goes back in front of the others. */
  lemma PutBack(audio: Frame, n: int, frames: seq<Frame>, rest: Frame)
    requires 0 <= n <= |audio| && Flat(frames) + rest == audio[n..]
    ensures Flat([audio[..n]] + frames) + rest == audio
  {
    FlatCons(audio[..n], frames);
    Associative(audio[..n], Flat(frames), rest);
  }

  lemma {:induction false} CutAppend(audio: Frame, more: Frame, n: int)
    requires n > 0
    ensures Cut(audio + more, n) == Cut(audio, n) + Cut(Remainder(audio, n) + more, n)
    ensures Remainder(audio + more, n) == Remainder(Remainder(audio, n) + more, n)
    decreases |audio|
  {
    if |audio| >= n {
      CutAppend(audio[n..], more, n);
      assert (audio + more)[..n] == audio[..n] && (audio + more)[n..] == audio[n..] + more;
    }
  }

  lemma JudgeAllSnoc<S>(judge: (S, Frame) -> S, initial: S, frames: seq<Frame>, frame: Frame)
    ensures JudgeAll(judge, initial, frames + [frame]) == judge(JudgeAll(judge, initial, frames), frame)
  {
    assert (frames + [frame])[..|frames|] == frames;
  }

  /** The state after judging `frames` from state `s`, the first frame first. */
  function JudgeFrom<S>(judge: (S, Frame) -> S, s: S, frames: seq<Frame>): S {
    if frames == [] then s else JudgeFrom(judge, judge(s, frames[0]), frames[1..])
  }

  lemma {:induction false} JudgeAllAppend<S>(judge: (S, Frame) -> S, initial: S, frames: seq<Frame>, more: seq<Frame>)
    ensures JudgeAll(judge, initial, frames + more) == JudgeFrom(judge, JudgeAll(judge, initial, frames), more)
    decreases |more|
  {
    if more == [] {
      assert frames + more == frames;
    } else {
      JudgeAllSnoc(judge, initial, frames, more[0]);
      JudgeAllAppend(judge, initial, frames + [more[0]], more[1..]);
      assert frames + more == frames + [more[0]] + more[1..];
    }
  }

  /** Draining a buffer judges exactly the frames it can be cut into. */
  lemma {:induction false} DrainCuts<S>(judge: (S, Frame) -> S, n: int, pending: Frame, s: S)
    requires n > 0
    ensures Drain(judge, n, pending, s) == (Remainder(pending, n), JudgeFrom(judge, s, Cut(pending, n)))
    decreases |pending|
  {
    if |pending| >= n {
      DrainCuts(judge, n, pending[n..], judge(s, pending[..n]));
      assert Cut(pending, n)[1..] == Cut(pending[n..], n);
    }
  }

  lemma {:induction false} JudgeAllClassifies(l: Limits, detect: Detector, frames: seq<Frame>)
    ensures JudgeAll(Judge(l, detect), START, frames) == ClassifyAll(l, detect, frames)
  {
    if frames != [] {
      JudgeAllClassifies(l, detect, frames[..|frames| - 1]);
    }
  }

  // ----- chunking

  /** The frames judged when `chunks` have been fed. */
  function FramesFed(l: Limits, chunks: seq<Frame>): seq<Frame> {
    if l.subframe > 0 then Cut(Flat(chunks), l.subframe) else NonEmpty(chunks)
  }

  function Unjudged(l: Limits, chunks: seq<Frame>): Frame {
    if l.subframe > 0 then Remainder(Flat(chunks), l.subframe) else []
  }

  function NonEmpty(chunks: seq<Frame>): seq<Frame> {
    if chunks == [] then []
    else
      var last := chunks[|chunks| - 1];
      NonEmpty(chunks[..|chunks| - 1]) + if last == [] then [] else [last]
  }

  /** One more chunk judges the frames that it completes. */
  lemma FeedJudges(l: Limits, detect: Detector, front: seq<Frame>, last: Frame)
    ensures var s := Session(Unjudged(l, front), JudgeAll(Judge(l, detect), START, FramesFed(l, front)));
            Feed(l, detect, s, last) ==
            Session(Unjudged(l, front + [last]), JudgeAll(Judge(l, detect), START, FramesFed(l, front + [last])))
  {
    var judge := Judge(l, detect);
    assert (front + [last])[..|front|] == front;
    if last == [] {
      assert Flat(front) + last == Flat(front) && NonEmpty(front) + [] == NonEmpty(front);
    } else if l.subframe > 0 {
      CutAppend(Flat(front), last, l.subframe);
      var frames, pending := FramesFed(l, front), Unjudged(l, front) + last;
      DrainCuts(judge, l.subframe, pending, JudgeAll(judge, START, frames));
      JudgeAllAppend(judge, START, frames, Cut(pending, l.subframe));
    } else {
      JudgeAllSnoc(judge, START, FramesFed(l, front), last);
    }
  }

  lemma {:induction false} FeedAllDrains(l: Limits, detect: Detector, chunks: seq<Frame>)
    ensures FeedAll(l, detect, chunks) ==
            Session(Unjudged(l, chunks), JudgeAll(Judge(l, detect), START, FramesFed(l, chunks)))
  {
    if chunks != [] {
      var front, last := chunks[..|chunks| - 1], chunks[|chunks| - 1];
      FeedAllDrains(l, detect, front);
      FeedJudges(l, detect, front, last);
      assert front + [last] == chunks;
    }
  }

  /** A session that was only fed has judged the frames of the whole audio, and nothing else. */
  lemma FeedAllJudges(l: Limits, detect: Detector, chunks: seq<Frame>)
    ensures FeedAll(l, detect, chunks) ==
            Session(Unjudged(l, chunks), ClassifyAll(l, detect, FramesFed(l, chunks)))
  {
    FeedAllDrains(l, detect, chunks);
    JudgeAllClassifies(l, detect, FramesFed(l, chunks));
  }

  /** The frames judged when Finish has dealt with the remainder as well. */
  function FramesFinished(l: Limits, chunks: seq<Frame>): seq<Frame> {
    FramesFed(l, chunks) + if Unjudged(l, chunks) == [] then [] else [Unjudged(l, chunks)]
  }

  lemma FinishJudges(l: Limits, detect: Detector, chunks: seq<Frame>)
    ensures Finish(l, detect, FeedAll(l, detect, chunks)) ==
            Session([], Flush(ClassifyAll(l, detect, FramesFinished(l, chunks))))
  {
    FeedAllJudges(l, detect, chunks);
    ClassifyAllSnoc(l, detect, FramesFed(l, chunks), Unjudged(l, chunks));
    assert FramesFed(l, chunks) + [] == FramesFed(l, chunks);
  }

  /**
   * With a frame size set, segmentation depends on the audio alone: two ways of
   * chunking it give the same state after every feed, and after Finish the same
   * triggers with the same samples and times.
   */
  lemma ChunkingDoesNotMatter(l: Limits, detect: Detector, one: seq<Frame>, other: seq<Frame>)
    requires l.subframe > 0 && Flat(one) == Flat(other)
    ensures FeedAll(l, detect, one) == FeedAll(l, detect, other)
    ensures Finish(l, detect, FeedAll(l, detect, one)) == Finish(l, detect, FeedAll(l, detect, other))
  {
    FeedAllJudges(l, detect, one);
    FeedAllJudges(l, detect, other);
  }

  /** Every sample is judged once, in order: the buffer only delays it. */
  lemma {:induction false} NonEmptyIsTheAudio(chunks: seq<Frame>)
    ensures Flat(NonEmpty(chunks)) == Flat(chunks)
    ensures forall k :: 0 <= k < |NonEmpty(chunks)| ==> NonEmpty(chunks)[k] != []
  {
    if chunks != [] {
      var front, last := chunks[..|chunks| - 1], chunks[|chunks| - 1];
      NonEmptyIsTheAudio(front);
      FlatSnoc(NonEmpty(front), last);
      assert NonEmpty(front) + [] == NonEmpty(front);
    }
  }

  lemma AllAudioIsJudged(l: Limits, chunks: seq<Frame>)
    ensures Flat(FramesFed(l, chunks)) + Unjudged(l, chunks) == Flat(chunks)
    ensures Flat(FramesFinished(l, chunks)) == Flat(chunks)
    ensures l.subframe > 0 ==> |Unjudged(l, chunks)| < l.subframe
  {
    if l.subframe > 0 {
      CutIsTheAudio(Flat(chunks), l.subframe);
      CutIsEven(Flat(chunks), l.subframe);
      FlatSnoc(FramesFed(l, chunks), Unjudged(l, chunks));
      assert FramesFed(l, chunks) + [] == FramesFed(l, chunks);
    } else {
      NonEmptyIsTheAudio(chunks);
      assert FramesFed(l, chunks) + [] == FramesFed(l, chunks);
    }
  }

  /**
   * Whatever the chunks: while feeding, the commits and the bounded window hold
   * the accepted audio; after Finish the commits alone hold it.
   */
  lemma SessionConservesAudio(l: Limits, detect: Detector, chunks: seq<Frame>)
    requires l.Valid()
    ensures var s := FeedAll(l, detect, chunks);
            && HeldAudio(s.track) == AcceptedAudio(l, detect, FramesFed(l, chunks))
            && |s.track.window| <= l.maxWindow
            && (l.subframe > 0 ==> |s.pending| < l.subframe)
    ensures CommittedAudio(Finish(l, detect, FeedAll(l, detect, chunks)).track.triggers) ==
            AcceptedAudio(l, detect, FramesFinished(l, chunks))
  {
    FeedAllJudges(l, detect, chunks);
    FinishJudges(l, detect, chunks);
    AudioConserved(l, detect, FramesFed(l, chunks));
    FinishCommitsEverything(l, detect, FramesFinished(l, chunks));
    AllAudioIsJudged(l, chunks);
  }

  /** What a session commits, as a function of how its audio arrives. */
  function Triggers(l: Limits, detect: Detector, chunks: seq<Frame>): seq<Trigger> {
    Finish(l, detect, FeedAll(l, detect, chunks)).track.triggers
  }

  ghost predicate ChunkingInvariant(l: Limits) {
    forall detect: Detector, one: seq<Frame>, other: seq<Frame> ::
      Flat(one) == Flat(other) ==> Triggers(l, detect, one) == Triggers(l, detect, other)
  }

  /** A detector that takes pairs of samples for speech, and nothing else. */
  predicate EndsWithPair(heard: seq<Frame>) {
    heard != [] && |heard[|heard| - 1]| == 2
  }

  /** Without a frame size the chunks are the frames, so a pair is heard whole or not at all. */
  lemma PairHeard(l: Limits)
    requires l.Valid() && l.subframe == 0
    ensures CommittedAudio(Triggers(l, EndsWithPair, [[0.0, 1.0]])) == [0.0, 1.0]
  {
    var whole: seq<Frame> := [[0.0, 1.0]];
    SessionConservesAudio(l, EndsWithPair, whole);
    assert FramesFinished(l, whole) == whole;
    assert Tolerated(l, EndsWithPair, whole);
  }

  lemma {:induction false} SinglesIgnored(l: Limits, frames: seq<Frame>)
    requires forall k :: 0 <= k < |frames| ==> |frames[k]| == 1
    ensures DipAfter(EndsWithPair, frames) == NoSpeechYet && AcceptedAudio(l, EndsWithPair, frames) == []
  {
    if frames != [] {
      SinglesIgnored(l, frames[..|frames| - 1]);
    }
  }

  lemma HalvesIgnored(l: Limits)
    requires l.Valid() && l.subframe == 0
    ensures CommittedAudio(Triggers(l, EndsWithPair, [[0.0], [1.0]])) == []
  {
    var halves: seq<Frame> := [[0.0], [1.0]];
    SessionConservesAudio(l, EndsWithPair, halves);
    SinglesKept(halves);
    SinglesIgnored(l, halves);
    assert FramesFinished(l, halves) == NonEmpty(halves) + [];
  }

  lemma {:induction false} SinglesKept(chunks: seq<Frame>)
    requires forall k :: 0 <= k < |chunks| ==> |chunks[k]| == 1
    ensures NonEmpty(chunks) == chunks
  {
    if chunks != [] {
      var front, last := chunks[..|chunks| - 1], chunks[|chunks| - 1];
      SinglesKept(front);
      assert last != [] && chunks == front + [last];
    }
  }

  /**
   * Exactly the sessions with a frame size are indifferent to chunking: without
   * one, some detector hears a different session when the chunks change.
   */
  lemma ChunkingInvariantIff(l: Limits)
    requires l.Valid()
    ensures ChunkingInvariant(l) <==> l.subframe > 0
  {
    if l.subframe > 0 {
      forall detect: Detector, one: seq<Frame>, other: seq<Frame> | Flat(one) == Flat(other)
        ensures Triggers(l, detect, one) == Triggers(l, detect, other)
      {
        ChunkingDoesNotMatter(l, detect, one, other);
      }
    } else {
      PairHeard(l);
      HalvesIgnored(l);
      SamePair();
    }
  }

  lemma SamePair()
    ensures Flat([[0.0, 1.0]]) == Flat([[0.0], [1.0]])
  {
    var whole: seq<Frame>, halves: seq<Frame> := [[0.0, 1.0]], [[0.0], [1.0]];
    assert whole[..0] == [] && halves[..1] == [[0.0]] && [[0.0]][..0] == [];
    assert Flat(whole) == [0.0, 1.0] == Flat(halves);
  }
}
