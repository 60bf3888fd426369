/**
 * The bounded audio buffer between the client's socket and the plugin, and the
 * accounting of what it drops (internal/api/stream.go). The reader goroutine
 * and the consumer goroutine interleave at every channel operation.
 */
module AudioBuffer {
  import opened Options

  const CAPACITY := 16
  const BYTES_PER_SAMPLE := 2

  /** A frame of PCM: its length in bytes and its place on the sample clock. */
  datatype AudioFrame = AudioFrame(bytes: nat, startSample: nat) {
    function Samples(): nat { bytes / BYTES_PER_SAMPLE }
    function End(): nat { startSample + Samples() }
  }

  /** A gap as it is recorded: where it starts and how much was dropped. */
  datatype DropRun = DropRun(startSample: nat, droppedSamples: nat)

  /** The open run after observing the fate of one frame, and the run that this closed. */
  function Observe(run: Option<DropRun>, dropped: Option<AudioFrame>): (Option<DropRun>, Option<DropRun>) {
    match dropped
    case None => (None, run)
    case Some(f) =>
      var open := if run.None? then DropRun(f.startSample, 0) else run.value;
      (Some(open.(droppedSamples := open.droppedSamples + f.Samples())), None)
  }

  class StreamDropTracker {
    var run: Option<DropRun>

    constructor ()
      ensures run == None
    {
      run := None;
    }

    method ObserveFrame(dropped: Option<AudioFrame>) returns (resolved: Option<DropRun>)
      modifies this
      ensures (run, resolved) == Observe(old(run), dropped)
    {
      if dropped.Some? {
        if run.None? {
          run := Some(DropRun(dropped.value.startSample, 0));
        }
        run := Some(run.value.(droppedSamples := run.value.droppedSamples + dropped.value.Samples()));
        return None;
      }
      resolved := run;
      run := None;
    }

    method Flush() returns (resolved: Option<DropRun>)
      modifies this
      ensures (run, resolved) == (None, old(run))
    {
      resolved := ObserveFrame(None);
    }
  }

  // ----- the two goroutines

  /** Where the reader stands between two channel operations. */
  datatype Place =
    | Reading
    | Sending(frame: AudioFrame)
    | Evicting(frame: AudioFrame)
    | Resending(frame: AudioFrame, dropped: Option<AudioFrame>)
    | Observing(dropped: Option<AudioFrame>)
    | Stopped

  /**
   * `received`, `taken`, `runFrames` and `gapFrames` are histories: all frames read
   * from the socket, those the consumer took, and the frames behind the open run
   * and behind each recorded gap.
   * `lost` counts samples given up by a cancelled or failed reader.
   * `takenSinceDrop` counts the frames taken since the last eviction.
   */
  datatype State = State(
    channel: seq<AudioFrame>,
    place: Place,
    nextSample: nat,
    run: Option<DropRun>,
    gaps: seq<DropRun>,
    received: seq<AudioFrame>,
    taken: seq<AudioFrame>,
    runFrames: seq<AudioFrame>,
    gapFrames: seq<seq<AudioFrame>>,
    takenSinceDrop: nat,
    lost: nat)

  const INITIAL := State([], Reading, 0, None, [], [], [], [], [], 0, 0)

  /** `stored` tells whether the store accepts the gap that the step may close. */
  datatype Event =
    | Received(bytes: nat)
    | SendTried
    | Evicted
    | Resent
    | Observed(stored: bool)
    | Cancelled(stored: bool)
    | Disconnected(stored: bool)
    | Taken

  function Held(p: Place): nat {
    match p
    case Sending(f) => f.Samples()
    case Evicting(f) => f.Samples()
    case Resending(f, dropped) => f.Samples() + SamplesOf(dropped)
    case Observing(dropped) => SamplesOf(dropped)
    case _ => 0
  }

  function SamplesOf(f: Option<AudioFrame>): nat {
    match f case Some(f) => f.Samples() case None => 0
  }

  function Receive(s: State, bytes: nat): State {
    if !s.place.Reading? then s
    else
      var frame := AudioFrame(bytes, s.nextSample);
      s.(place := Sending(frame), nextSample := frame.End(), received := s.received + [frame])
  }

  function TrySend(s: State): State {
    if !s.place.Sending? then s
    else if |s.channel| < CAPACITY then s.(channel := s.channel + [s.place.frame], place := Observing(None))
    else s.(place := Evicting(s.place.frame))
  }

  function Evict(s: State): State {
    if !s.place.Evicting? then s
    else if s.channel == [] then s.(place := Resending(s.place.frame, None))
    else s.(channel := s.channel[1..], place := Resending(s.place.frame, Some(s.channel[0])), takenSinceDrop := 0)
  }

  function Resend(s: State): State {
    if !s.place.Resending? || |s.channel| >= CAPACITY then s
    else s.(channel := s.channel + [s.place.frame], place := Observing(s.place.dropped))
  }

  /** A closed run is recorded as a gap, unless the store refuses it. */
  function Resolve(s: State, closed: Option<DropRun>, frames: seq<AudioFrame>, stored: bool): State {
    match closed
    case None => s
    case Some(r) =>
      if stored then s.(gaps := s.gaps + [r], gapFrames := s.gapFrames + [frames])
      else s.(lost := s.lost + r.droppedSamples, place := Stopped)
  }

  function ReaderObserves(s: State, stored: bool): State {
    if !s.place.Observing? then s
    else
      var dropped := s.place.dropped;
      var (open, closed) := Observe(s.run, dropped);
      var frames := if dropped.Some? then s.runFrames + [dropped.value] else [];
      Resolve(s.(run := open, runFrames := frames, place := Reading), closed, s.runFrames, stored)
  }

  /** The stream ends: the open run is flushed, and what is still in hand is given up. */
  function Stop(s: State, stored: bool): State {
    Resolve(s.(run := None, runFrames := [], lost := s.lost + Held(s.place), place := Stopped),
            s.run, s.runFrames, stored)
  }

  function Take(s: State): State {
    if s.channel == [] then s
    else s.(channel := s.channel[1..], taken := s.taken + [s.channel[0]], takenSinceDrop := s.takenSinceDrop + 1)
  }

  /** One step; a step that cannot be taken in this state changes nothing. */
  function Step(s: State, e: Event): State {
    match e
    case Received(bytes) => Receive(s, bytes)
    case SendTried => TrySend(s)
    case Evicted => Evict(s)
    case Resent => Resend(s)
    case Observed(stored) => ReaderObserves(s, stored)
    case Cancelled(stored) => if s.place.Resending? then Stop(s, stored) else s
    case Disconnected(stored) => if s.place.Reading? then Stop(s, stored) else s
    case Taken => Take(s)
  }

  function Run(events: seq<Event>): State {
    if events == [] then INITIAL else Step(Run(events[..|events| - 1]), events[|events| - 1])
  }

  // ----- conservation

  function TotalSamples(frames: seq<AudioFrame>): nat {
    if frames == [] then 0 else TotalSamples(frames[..|frames| - 1]) + frames[|frames| - 1].Samples()
  }

  function TotalDropped(gaps: seq<DropRun>): nat {
    if gaps == [] then 0 else TotalDropped(gaps[..|gaps| - 1]) + gaps[|gaps| - 1].droppedSamples
  }

  function OpenRun(run: Option<DropRun>): nat {
    match run case Some(r) => r.droppedSamples case None => 0
  }

  lemma TotalSnoc(frames: seq<AudioFrame>, f: AudioFrame)
    ensures TotalSamples(frames + [f]) == TotalSamples(frames) + f.Samples()
  {
    assert (frames + [f])[..|frames|] == frames;
  }

  lemma {:induction false} TotalHead(frames: seq<AudioFrame>)
    requires frames != []
    ensures TotalSamples(frames) == frames[0].Samples() + TotalSamples(frames[1..])
  {
    if |frames| > 1 {
      var front := frames[..|frames| - 1];
      TotalHead(front);
      assert frames[1..][..|frames| - 2] == front[1..];
    }
  }

  lemma DroppedSnoc(gaps: seq<DropRun>, r: DropRun)
    ensures TotalDropped(gaps + [r]) == TotalDropped(gaps) + r.droppedSamples
  {
    assert (gaps + [r])[..|gaps|] == gaps;
  }

  /** Every sample received is taken, buffered, recorded, in the open run, in hand, or given up by a stop. */
  ghost predicate Balanced(s: State) {
    && s.nextSample == TotalSamples(s.received)
    && s.nextSample == TotalSamples(s.taken) + TotalSamples(s.channel) + TotalDropped(s.gaps)
                       + OpenRun(s.run) + Held(s.place) + s.lost
    && (s.lost > 0 ==> s.place.Stopped?)
  }

  lemma ReceiveBalanced(s: State, bytes: nat)
    requires Balanced(s)
    ensures Balanced(Receive(s, bytes))
  {
    TotalSnoc(s.received, AudioFrame(bytes, s.nextSample));
  }

  lemma SendBalanced(s: State)
    requires Balanced(s)
    ensures Balanced(TrySend(s))
  {
    if s.place.Sending? {
      if |s.channel| < CAPACITY { JoinsBuffer(s, None); } else { assert Held(TrySend(s).place) == Held(s.place); }
    }
  }

  /** The frame in hand joins the buffer; what was dropped for it stays in hand. */
  lemma JoinsBuffer(s: State, dropped: Option<AudioFrame>)
    requires Balanced(s) && (s.place.Sending? || s.place.Resending?)
    requires Held(s.place) == s.place.frame.Samples() + SamplesOf(dropped)
    ensures Balanced(s.(channel := s.channel + [s.place.frame], place := Observing(dropped)))
  {
    TotalSnoc(s.channel, s.place.frame);
  }

  lemma ResendBalanced(s: State)
    requires Balanced(s)
    ensures Balanced(Resend(s))
  {
    if s.place.Resending? && |s.channel| < CAPACITY { JoinsBuffer(s, s.place.dropped); }
  }

  lemma TakeBalanced(s: State)
    requires Balanced(s)
    ensures Balanced(Evict(s)) && Balanced(Take(s))
  {
    if s.channel != [] {
      TotalHead(s.channel);
      TotalSnoc(s.taken, s.channel[0]);
    }
  }

  lemma ResolveBalanced(s: State, closed: Option<DropRun>, gap: seq<AudioFrame>, stored: bool)
    requires s.nextSample == TotalSamples(s.received)
    requires s.nextSample == TotalSamples(s.taken) + TotalSamples(s.channel) + TotalDropped(s.gaps)
                             + OpenRun(s.run) + Held(s.place) + s.lost + OpenRun(closed)
    requires s.lost > 0 ==> s.place.Stopped?
    requires s.place.Reading? || s.place.Stopped?
    ensures Balanced(Resolve(s, closed, gap, stored))
  {
    if closed.Some? { DroppedSnoc(s.gaps, closed.value); }
  }

  lemma ObserveBalanced(s: State, stored: bool)
    requires Balanced(s)
    ensures Balanced(ReaderObserves(s, stored))
  {
    if s.place.Observing? {
      var dropped := s.place.dropped;
      var (open, closed) := Observe(s.run, dropped);
      var frames := if dropped.Some? then s.runFrames + [dropped.value] else [];
      assert OpenRun(open) + OpenRun(closed) == OpenRun(s.run) + SamplesOf(dropped);
      ResolveBalanced(s.(run := open, runFrames := frames, place := Reading), closed, s.runFrames, stored);
    }
  }

  lemma StopBalanced(s: State, stored: bool)
    requires Balanced(s)
    ensures Balanced(Stop(s, stored))
  {
    ResolveBalanced(s.(run := None, runFrames := [], lost := s.lost + Held(s.place), place := Stopped),
                    s.run, s.runFrames, stored);
  }

  lemma {:induction false} RunBalanced(events: seq<Event>)
    ensures Balanced(Run(events))
  {
    if events != [] {
      var s, e := Run(events[..|events| - 1]), events[|events| - 1];
      RunBalanced(events[..|events| - 1]);
      match e
      case Received(bytes) => ReceiveBalanced(s, bytes);
      case SendTried => SendBalanced(s);
      case Evicted => TakeBalanced(s);
      case Resent => ResendBalanced(s);
      case Observed(stored) => ObserveBalanced(s, stored);
      case Cancelled(stored) => StopBalanced(s, stored);
      case Disconnected(stored) => StopBalanced(s, stored);
      case Taken => TakeBalanced(s);
    }
  }

  /**
   * Whenever a reader that has not given up waits for the client, and after an
   * orderly disconnect, the client's samples are exactly those taken, buffered,
   * recorded as gaps and in the open run.
   */
  lemma NothingUnaccounted(events: seq<Event>)
    requires var s := Run(events); s.place.Reading? || (s.place.Stopped? && s.lost == 0)
    ensures var s := Run(events);
            TotalSamples(s.received) ==
            TotalSamples(s.taken) + TotalSamples(s.channel) + TotalDropped(s.gaps) + OpenRun(s.run)
  {
    RunBalanced(events);
  }

  /** The stream is not cancelled and the store accepts every gap. */
  predicate Orderly(e: Event) {
    !e.Cancelled? && (e.Observed? || e.Disconnected? ==> e.stored)
  }

  /** Then nothing is given up: the samples of a disconnected client are taken, buffered or recorded as gaps. */
  lemma {:induction false} NothingLost(events: seq<Event>)
    requires forall e :: e in events ==> Orderly(e)
    ensures var s := Run(events);
            && s.lost == 0
            && (s.place.Stopped? ==>
                  s.run.None? && TotalSamples(s.received) ==
                  TotalSamples(s.taken) + TotalSamples(s.channel) + TotalDropped(s.gaps))
  {
    if events != [] {
      var s, e := Run(events[..|events| - 1]), events[|events| - 1];
      NothingLost(events[..|events| - 1]);
      RunBalanced(events);
      StepLosesNothing(s, e);
    }
  }

  lemma StepLosesNothing(s: State, e: Event)
    requires s.lost == 0 && Orderly(e) && (s.place.Stopped? ==> s.run.None?)
    ensures Step(s, e).lost == 0 && (Step(s, e).place.Stopped? ==> Step(s, e).run.None?)
  {
  }

  // ----- one frame after another

  function FrameInHand(p: Place): seq<AudioFrame> {
    match p
    case Sending(f) => [f]
    case Evicting(f) => [f]
    case Resending(f, _) => [f]
    case _ => []
  }

  ghost predicate Adjacent(frames: seq<AudioFrame>) {
    forall k :: 0 < k < |frames| ==> frames[k - 1].End() == frames[k].startSample
  }

  /** The buffered frames, with the one in hand, are consecutive and end where the stream ends. */
  ghost predicate Consecutive(s: State) {
    var line := s.channel + FrameInHand(s.place);
    && Adjacent(line)
    && (!s.place.Stopped? && line != [] ==> line[|line| - 1].End() == s.nextSample)
    && |s.channel| <= CAPACITY
    && (s.place.Resending? ==> |s.channel| < CAPACITY)
  }

  lemma MoveConsecutive(s: State, bytes: nat)
    requires Consecutive(s)
    ensures Consecutive(Receive(s, bytes)) && Consecutive(TrySend(s)) && Consecutive(Resend(s))
  {
    var line := s.channel + FrameInHand(s.place);
    var received, sent, resent := Receive(s, bytes), TrySend(s), Resend(s);
    assert s.place.Reading? ==> received.channel + FrameInHand(received.place) == line + [received.place.frame];
    assert sent.channel + FrameInHand(sent.place) == line;
    assert resent.channel + FrameInHand(resent.place) == line;
  }

  lemma TakeConsecutive(s: State)
    requires Consecutive(s)
    ensures Consecutive(Evict(s)) && Consecutive(Take(s))
  {
    var line := s.channel + FrameInHand(s.place);
    if s.channel != [] {
      assert Take(s).channel + FrameInHand(Take(s).place) == line[1..];
      assert s.place.Evicting? ==> Evict(s).channel + FrameInHand(Evict(s).place) == line[1..];
    }
  }

  lemma ObserveConsecutive(s: State, stored: bool)
    requires Consecutive(s)
    ensures Consecutive(ReaderObserves(s, stored))
  {
    if s.place.Observing? {
      var after := ReaderObserves(s, stored);
      assert after.channel + FrameInHand(after.place) == s.channel + FrameInHand(s.place);
    }
  }

  lemma StopConsecutive(s: State, stored: bool)
    requires Consecutive(s)
    ensures Consecutive(Stop(s, stored))
  {
    var after := Stop(s, stored);
    assert after.place.Stopped? && after.channel == s.channel;
    assert after.channel + FrameInHand(after.place) <= s.channel + FrameInHand(s.place);
  }

  /** The reader never blocks: after an eviction there is always room. */
  lemma {:induction false} RunConsecutive(events: seq<Event>)
    ensures Consecutive(Run(events))
  {
    if events != [] {
      var s, e := Run(events[..|events| - 1]), events[|events| - 1];
      RunConsecutive(events[..|events| - 1]);
      match e
      case Received(bytes) => MoveConsecutive(s, bytes);
      case SendTried => MoveConsecutive(s, 0);
      case Evicted => TakeConsecutive(s);
      case Resent => MoveConsecutive(s, 0);
      case Observed(stored) => ObserveConsecutive(s, stored);
      case Cancelled(stored) => StopConsecutive(s, stored);
      case Disconnected(stored) => StopConsecutive(s, stored);
      case Taken => TakeConsecutive(s);
    }
  }

  /** A frame is sent at once exactly when the buffer has room; only a full one gives up its oldest frame for it. */
  lemma DropsOnlyWhenFull(events: seq<Event>)
    requires Run(events).place.Sending?
    ensures var s, after := Run(events), Run(events + [SendTried]);
            && (|s.channel| < CAPACITY ==>
                  after.channel == s.channel + [s.place.frame] && after.place == Observing(None))
            && (|s.channel| == CAPACITY ==> after.channel == s.channel && after.place == Evicting(s.place.frame))
    ensures var s, after := Run(events), Run(events + [SendTried] + [Evicted] + [Resent]);
            |s.channel| == CAPACITY ==>
              after.channel == s.channel[1..] + [s.place.frame] && after.place == Observing(Some(s.channel[0]))
  {
    RunConsecutive(events);
    RunSnoc(events, SendTried);
    RunSnoc(events + [SendTried], Evicted);
    RunSnoc(events + [SendTried] + [Evicted], Resent);
  }

  lemma RunSnoc(events: seq<Event>, e: Event)
    ensures Run(events + [e]) == Step(Run(events), e)
  {
    assert (events + [e])[..|events|] == events;
  }

  /** The consumer gets the frames in the order of the stream, each once. */
  lemma {:induction false} TakenInOrder(events: seq<Event>)
    ensures LineOk(Run(events))
  {
    if events != [] {
      TakenInOrder(events[..|events| - 1]);
      StepInOrder(Run(events[..|events| - 1]), events[|events| - 1]);
    }
  }

  /** No frame starts before an earlier one ends. */
  ghost predicate InOrder(frames: seq<AudioFrame>) {
    forall i, j :: 0 <= i < j < |frames| ==> frames[i].End() <= frames[j].startSample
  }

  function WholeLine(s: State): seq<AudioFrame> {
    s.taken + s.channel + FrameInHand(s.place)
  }

  /** What the consumer took, then the buffer, then the frame in hand: frames of the stream in its order. */
  ghost predicate LineOk(s: State) {
    && InOrder(WholeLine(s))
    && (forall f :: f in WholeLine(s) ==> f.End() <= s.nextSample && f in s.received)
  }

  lemma StepInOrder(s: State, e: Event)
    requires LineOk(s)
    ensures LineOk(Step(s, e))
  {
    var line, after := WholeLine(s), Step(s, e);
    match e
    case Received(bytes) => if s.place.Reading? { assert WholeLine(after) == line + [after.place.frame]; }
    case SendTried => assert WholeLine(after) == line;
    case Resent => assert WholeLine(after) == line;
    case Evicted =>
      if s.place.Evicting? && s.channel != [] {
        var rest := s.channel[1..] + FrameInHand(s.place);
        assert line == s.taken + [s.channel[0]] + rest;
        WithoutMiddle(s.taken, [s.channel[0]], rest);
        assert WholeLine(after) == s.taken + rest;
      } else {
        assert WholeLine(after) == line;
      }
    case Taken => assert WholeLine(after) == line;
    case Observed(stored) => assert WholeLine(after) == line;
    case Cancelled(stored) => StopInOrder(s, stored);
    case Disconnected(stored) => StopInOrder(s, stored);
  }

  lemma StopInOrder(s: State, stored: bool)
    requires LineOk(s)
    ensures LineOk(Stop(s, stored))
  {
    assert WholeLine(Stop(s, stored)) == s.taken + s.channel + [];
    WithoutMiddle(s.taken + s.channel, FrameInHand(s.place), []);
    assert WholeLine(s) + [] == WholeLine(s);
  }

  lemma WithoutMiddle(a: seq<AudioFrame>, b: seq<AudioFrame>, c: seq<AudioFrame>)
    requires InOrder(a + b + c)
    ensures InOrder(a + c)
  {
    var whole, short := a + b + c, a + c;
    forall i, j | 0 <= i < j < |short| ensures short[i].End() <= short[j].startSample {
      var from := if i < |a| then i else i + |b|;
      var to := if j < |a| then j else j + |b|;
      assert whole[from] == short[i] && whole[to] == short[j];
    }
  }

  // ----- what a gap covers

  /** The numbers of a run are those of the frames behind it. */
  ghost predicate Describes(run: Option<DropRun>, frames: seq<AudioFrame>) {
    match run
    case None => frames == []
    case Some(r) => frames != [] && r.startSample == frames[0].startSample && r.droppedSamples == TotalSamples(frames)
  }

  function DroppedInHand(p: Place): seq<AudioFrame> {
    match p
    case Resending(_, Some(f)) => [f]
    case Observing(Some(f)) => [f]
    case _ => []
  }

  /** The frames of the open run, with the one that is about to join it. */
  function DropLine(s: State): seq<AudioFrame> {
    s.runFrames + DroppedInHand(s.place)
  }

  /** Where the next frame to leave the buffer starts. */
  function HeadStart(s: State): nat {
    var line := s.channel + FrameInHand(s.place);
    if line == [] then s.nextSample else line[0].startSample
  }

  function TakenSince(s: State): seq<AudioFrame>
    requires s.takenSinceDrop <= |s.taken|
  {
    s.taken[|s.taken| - s.takenSinceDrop..]
  }

  /** After a drop, the clock of the buffer's head tells what the consumer has taken since. */
  ghost predicate Tracked(s: State) {
    && Describes(s.run, s.runFrames)
    && s.takenSinceDrop <= |s.taken|
    && (!s.place.Stopped? && DropLine(s) != [] ==>
          DropLine(s)[|DropLine(s)| - 1].End() + TotalSamples(TakenSince(s)) == HeadStart(s))
    && (s.runFrames != [] && s.place.Evicting? ==> |s.channel| + s.takenSinceDrop == CAPACITY)
    && (s.runFrames != [] && (s.place.Reading? || s.place.Sending?) ==> |s.channel| + s.takenSinceDrop <= CAPACITY)
    && (s.place.Resending? && s.place.dropped.Some? ==> |s.channel| + s.takenSinceDrop < CAPACITY)
    && (s.place.Observing? && s.place.dropped.Some? ==> |s.channel| + s.takenSinceDrop <= CAPACITY)
  }

  /** Frames join the buffer at the end, away from its head. */
  lemma ReceiveTracked(s: State, bytes: nat)
    requires Consecutive(s) && Tracked(s)
    ensures Tracked(Receive(s, bytes))
  {
    if s.place.Reading? {
      assert DropLine(Receive(s, bytes)) == DropLine(s);
    }
  }

  lemma SendTracked(s: State)
    requires Consecutive(s) && Tracked(s)
    ensures Tracked(TrySend(s))
  {
    if s.place.Sending? {
      assert DropLine(TrySend(s)) == DropLine(s);
      assert TrySend(s).channel + FrameInHand(TrySend(s).place) == s.channel + FrameInHand(s.place);
    }
  }

  lemma ResendTracked(s: State)
    requires Consecutive(s) && Tracked(s)
    ensures Tracked(Resend(s))
  {
    assert DropLine(Resend(s)) == DropLine(s);
    assert Resend(s).channel + FrameInHand(Resend(s).place) == s.channel + FrameInHand(s.place);
  }

  /** When the head of a consecutive line leaves, the next frame starts where it ended. */
  lemma HeadLeaves(line: seq<AudioFrame>, nextSample: nat)
    requires line != [] && Adjacent(line) && line[|line| - 1].End() == nextSample
    ensures line[0].End() == if line[1..] == [] then nextSample else line[1..][0].startSample
  {
    if |line| > 1 {
      assert line[1 - 1].End() == line[1].startSample;
    }
  }

  /** After an eviction the buffer's head starts where the dropped frame ended. */
  lemma EvictMovesHead(s: State)
    requires Consecutive(s) && s.place.Evicting? && s.channel != []
    ensures HeadStart(Evict(s)) == s.channel[0].End()
  {
    var line, after := s.channel + FrameInHand(s.place), Evict(s);
    HeadLeaves(line, s.nextSample);
    assert after.channel + FrameInHand(after.place) == line[1..];
  }

  lemma EvictTracked(s: State)
    requires Consecutive(s) && Tracked(s)
    ensures Tracked(Evict(s))
  {
    if s.place.Evicting? && s.channel != [] {
      EvictMovesHead(s);
      assert TakenSince(Evict(s)) == [];
      assert TotalSamples([]) == 0;
    }
  }

  lemma TakeTracked(s: State)
    requires Consecutive(s) && Tracked(s)
    ensures Tracked(Take(s))
  {
    if s.channel != [] {
      var line, after := s.channel + FrameInHand(s.place), Take(s);
      assert after.channel + FrameInHand(after.place) == line[1..];
      assert TakenSince(after) == TakenSince(s) + [s.channel[0]];
      if !s.place.Stopped? {
        HeadLeaves(line, s.nextSample);
        TakeKeepsClock(s);
      }
    }
  }

  /** A frame taken moves the head by as much as it adds to what was taken. */
  lemma TakeKeepsClock(s: State)
    requires s.channel != [] && s.takenSinceDrop <= |s.taken|
    requires TakenSince(Take(s)) == TakenSince(s) + [s.channel[0]]
    requires s.channel[0].End() == HeadStart(Take(s))
    ensures HeadStart(Take(s)) - HeadStart(s) == TotalSamples(TakenSince(Take(s))) - TotalSamples(TakenSince(s))
  {
    TotalSnoc(TakenSince(s), s.channel[0]);
    assert (s.channel + FrameInHand(s.place))[0] == s.channel[0];
  }

  lemma StopTracked(s: State, stored: bool)
    requires Tracked(s)
    ensures Tracked(Stop(s, stored))
  {
  }

  lemma ObserveTracked(s: State, stored: bool)
    requires Tracked(s)
    ensures Tracked(ReaderObserves(s, stored))
  {
    if s.place.Observing? && s.place.dropped.Some? {
      TotalSnoc(s.runFrames, s.place.dropped.value);
      assert ReaderObserves(s, stored).channel + [] == s.channel;
    }
  }

  lemma {:induction false} RunTracked(events: seq<Event>)
    ensures Tracked(Run(events))
  {
    if events != [] {
      var s, e := Run(events[..|events| - 1]), events[|events| - 1];
      RunTracked(events[..|events| - 1]);
      RunConsecutive(events[..|events| - 1]);
      match e
      case Received(bytes) => ReceiveTracked(s, bytes);
      case SendTried => SendTracked(s);
      case Evicted => EvictTracked(s);
      case Resent => ResendTracked(s);
      case Observed(stored) => ObserveTracked(s, stored);
      case Cancelled(stored) => StopTracked(s, stored);
      case Disconnected(stored) => StopTracked(s, stored);
      case Taken => TakeTracked(s);
    }
  }

  /**
   * An eviction continues the open run without a hole exactly when the consumer
   * took no audio between the failed send and the eviction.
   */
  lemma EvictionAdjacentIff(events: seq<Event>)
    requires var s := Run(events); s.place.Evicting? && s.runFrames != [] && s.channel != []
    ensures var s := Run(events);
            && s.takenSinceDrop == CAPACITY - |s.channel| <= |s.taken|
            && (s.runFrames[|s.runFrames| - 1].End() == s.channel[0].startSample <==>
                  TotalSamples(TakenSince(s)) == 0)
  {
    RunTracked(events);
    var s := Run(events);
    assert DropLine(s) == s.runFrames;
    assert (s.channel + FrameInHand(s.place))[0] == s.channel[0];
  }

  // ----- what a gap's numbers stand for

  ghost predicate GapsDescribed(s: State) {
    |s.gaps| == |s.gapFrames|
    && forall k :: 0 <= k < |s.gaps| ==> Describes(Some(s.gaps[k]), s.gapFrames[k])
  }

  lemma ResolveDescribes(s: State, closed: Option<DropRun>, frames: seq<AudioFrame>, stored: bool)
    requires GapsDescribed(s) && Describes(closed, frames)
    ensures GapsDescribed(Resolve(s, closed, frames, stored))
  {
  }

  lemma StepDescribes(s: State, e: Event)
    requires Tracked(s) && GapsDescribed(s)
    ensures GapsDescribed(Step(s, e))
  {
    match e
    case Observed(stored) =>
      if s.place.Observing? && s.place.dropped.None? {
        ResolveDescribes(s.(run := None, runFrames := [], place := Reading), s.run, s.runFrames, stored);
      }
    case Cancelled(stored) => StopDescribes(s, stored);
    case Disconnected(stored) => StopDescribes(s, stored);
    case _ => assert Step(s, e).gaps == s.gaps && Step(s, e).gapFrames == s.gapFrames;
  }

  lemma StopDescribes(s: State, stored: bool)
    requires Tracked(s) && GapsDescribed(s)
    ensures GapsDescribed(Stop(s, stored))
  {
    ResolveDescribes(s.(run := None, runFrames := [], lost := s.lost + Held(s.place), place := Stopped),
                     s.run, s.runFrames, stored);
  }

  /** On every run the start and the count of a gap are those of the frames dropped behind it. */
  lemma {:induction false} RunDescribes(events: seq<Event>)
    ensures GapsDescribed(Run(events))
  {
    if events != [] {
      RunDescribes(events[..|events| - 1]);
      RunTracked(events[..|events| - 1]);
      StepDescribes(Run(events[..|events| - 1]), events[|events| - 1]);
    }
  }

  // ----- when a gap is one interval

  /** The frames behind the open run, and those behind every recorded gap, are consecutive. */
  ghost predicate Seamless(s: State) {
    Adjacent(DropLine(s)) && GapsSeamless(s.gapFrames)
  }

  ghost predicate GapsSeamless(gapFrames: seq<seq<AudioFrame>>) {
    forall k :: 0 <= k < |gapFrames| ==> Adjacent(gapFrames[k])
  }

  /** An eviction that continues a run although the consumer took audio since the last one. */
  predicate Tears(s: State, e: Event) {
    && e.Evicted? && s.place.Evicting? && s.channel != [] && s.runFrames != []
    && s.takenSinceDrop <= |s.taken| && TotalSamples(TakenSince(s)) > 0
  }

  ghost predicate Untorn(events: seq<Event>) {
    events != [] ==>
      var front, last := events[..|events| - 1], events[|events| - 1];
      Untorn(front) && !Tears(Run(front), last)
  }

  lemma EvictSeamlessIff(s: State)
    requires Consecutive(s) && Tracked(s) && s.place.Evicting? && s.channel != []
    ensures Adjacent(DropLine(Evict(s))) <==> Adjacent(DropLine(s)) && !Tears(s, Evicted)
  {
    var line, after, head := DropLine(s), DropLine(Evict(s)), s.channel[0];
    assert line == s.runFrames && after == line + [head];
    assert (s.channel + FrameInHand(s.place))[0] == head;
    AdjacentSnoc(line, head);
    if line != [] {
      assert line[|line| - 1].End() == head.startSample <==> !Tears(s, Evicted);
    }
  }

  lemma AdjacentSnoc(frames: seq<AudioFrame>, f: AudioFrame)
    ensures Adjacent(frames + [f]) <==>
            Adjacent(frames) && (frames != [] ==> frames[|frames| - 1].End() == f.startSample)
  {
    var more := frames + [f];
    if Adjacent(more) {
      forall k | 0 < k < |frames| ensures frames[k - 1].End() == frames[k].startSample {
        assert more[k - 1].End() == more[k].startSample;
      }
      if frames != [] {
        assert more[|frames| - 1].End() == more[|frames|].startSample;
      }
    }
  }

  lemma CloseSeamlessIff(gapFrames: seq<seq<AudioFrame>>, closed: seq<AudioFrame>)
    ensures GapsSeamless(gapFrames + [closed]) <==> GapsSeamless(gapFrames) && Adjacent(closed)
  {
    assert (gapFrames + [closed])[|gapFrames|] == closed;
    assert forall k :: 0 <= k < |gapFrames| ==> (gapFrames + [closed])[k] == gapFrames[k];
  }

  lemma ObserveSeamless(s: State, stored: bool)
    requires Tracked(s) && s.place.Observing?
    ensures Seamless(s) ==> Seamless(ReaderObserves(s, stored))
    ensures stored && Seamless(ReaderObserves(s, stored)) ==> Seamless(s)
  {
    CloseSeamlessIff(s.gapFrames, s.runFrames);
    assert s.place.dropped.Some? ==> DropLine(ReaderObserves(s, stored)) == DropLine(s);
    assert s.place.dropped.None? ==> DropLine(ReaderObserves(s, stored)) == [] && DropLine(s) == s.runFrames;
  }

  lemma StopSeamless(s: State, stored: bool)
    requires Tracked(s)
    ensures Seamless(s) ==> Seamless(Stop(s, stored))
    ensures s.place.Reading? && stored && Seamless(Stop(s, stored)) ==> Seamless(s)
  {
    CloseSeamlessIff(s.gapFrames, s.runFrames);
    assert DropLine(Stop(s, stored)) == [];
    assert s.runFrames <= DropLine(s);
    assert s.place.Reading? ==> DropLine(s) == s.runFrames;
  }

  /** Frames that arrive, join the buffer or are taken leave the drops alone. */
  lemma OthersSeamless(s: State, e: Event)
    requires e.Received? || e.SendTried? || e.Resent? || e.Taken?
    ensures DropLine(Step(s, e)) == DropLine(s) && Step(s, e).gapFrames == s.gapFrames
  {
  }

  lemma StepSeamless(s: State, e: Event)
    requires Consecutive(s) && Tracked(s)
    ensures Seamless(s) && !Tears(s, e) ==> Seamless(Step(s, e))
    ensures Orderly(e) && Seamless(Step(s, e)) ==> Seamless(s) && !Tears(s, e)
  {
    match e
    case Evicted => if s.place.Evicting? { EvictDecides(s); }
    case Observed(stored) => if s.place.Observing? { ObserveSeamless(s, stored); }
    case Cancelled(stored) => StopSeamless(s, stored);
    case Disconnected(stored) => StopSeamless(s, stored);
    case _ => OthersSeamless(s, e);
  }

  lemma EvictDecides(s: State)
    requires Consecutive(s) && Tracked(s) && s.place.Evicting?
    ensures Seamless(Evict(s)) <==> Seamless(s) && !Tears(s, Evicted)
  {
    if s.channel != [] {
      EvictSeamlessIff(s);
    } else {
      assert DropLine(Evict(s)) == DropLine(s);
    }
  }

  /** On any run without a torn eviction every gap is one interval of the stream; ... */
  lemma {:induction false} UntornGapsAreIntervals(events: seq<Event>)
    requires Untorn(events)
    ensures Seamless(Run(events))
  {
    if events != [] {
      var front := events[..|events| - 1];
      UntornGapsAreIntervals(front);
      RunTracked(front);
      RunConsecutive(front);
      StepSeamless(Run(front), events[|events| - 1]);
    }
  }

  /** ... and, while the stream is not cancelled and the store accepts the gaps, on no other run. */
  lemma {:induction false} GapsAreIntervalsIff(events: seq<Event>)
    requires forall e :: e in events ==> Orderly(e)
    ensures Seamless(Run(events)) <==> Untorn(events)
  {
    if events != [] {
      var front := events[..|events| - 1];
      GapsAreIntervalsIff(front);
      RunTracked(front);
      RunConsecutive(front);
      StepSeamless(Run(front), events[|events| - 1]);
    }
  }

  // ----- atomic enqueue

  /** The consumer never takes a frame between a failed send and the eviction. */
  ghost predicate Atomic(events: seq<Event>) {
    events != [] ==>
      var front := events[..|events| - 1];
      Atomic(front) && !(events[|events| - 1].Taken? && Run(front).place.Evicting?)
  }

  ghost predicate Untaken(s: State) {
    s.place.Evicting? && s.runFrames != [] ==> s.takenSinceDrop == 0
  }

  lemma StepUntaken(s: State, e: Event)
    requires Tracked(s) && Untaken(s) && !(e.Taken? && s.place.Evicting?)
    ensures Untaken(Step(s, e)) && !Tears(s, e)
  {
    match e
    case SendTried => SendUntaken(s);
    case Evicted => if s.place.Evicting? && s.runFrames != [] { assert TakenSince(s) == []; }
    case Observed(stored) => assert Step(s, e).place.Evicting? ==> Step(s, e) == s;
    case Cancelled(stored) => assert Step(s, e).place.Evicting? ==> Step(s, e) == s;
    case Disconnected(stored) => assert Step(s, e).place.Evicting? ==> Step(s, e) == s;
    case _ =>
  }

  lemma SendUntaken(s: State)
    requires Tracked(s) && Untaken(s)
    ensures Untaken(TrySend(s))
  {
  }

  lemma {:induction false} AtomicIsUntorn(events: seq<Event>)
    requires Atomic(events)
    ensures Untorn(events) && Untaken(Run(events))
  {
    if events != [] {
      AtomicIsUntorn(events[..|events| - 1]);
      RunTracked(events[..|events| - 1]);
      StepUntaken(Run(events[..|events| - 1]), events[|events| - 1]);
    }
  }

  /** When enqueueing is atomic, every recorded gap is exactly one dropped interval of the stream. */
  lemma AtomicGapsAreIntervals(events: seq<Event>)
    requires Atomic(events)
    ensures Seamless(Run(events)) && GapsDescribed(Run(events))
  {
    AtomicIsUntorn(events);
    UntornGapsAreIntervals(events);
    RunDescribes(events);
  }

  /** What that means for the numbers: the interval ends where the last dropped frame ends. */
  lemma {:induction false} IntervalEnd(frames: seq<AudioFrame>)
    requires frames != [] && Adjacent(frames)
    ensures frames[0].startSample + TotalSamples(frames) == frames[|frames| - 1].End()
  {
    if |frames| > 1 {
      IntervalEnd(frames[..|frames| - 1]);
    } else {
      assert frames[..0] == [];
    }
  }

  lemma UntornGapEnds(events: seq<Event>, k: nat)
    requires Untorn(events) && k < |Run(events).gaps|
    ensures var s := Run(events);
            && |s.gapFrames| == |s.gaps| && s.gapFrames[k] != []
            && s.gaps[k].startSample == s.gapFrames[k][0].startSample
            && s.gaps[k].startSample + s.gaps[k].droppedSamples == s.gapFrames[k][|s.gapFrames[k]| - 1].End()
  {
    UntornGapsAreIntervals(events);
    RunDescribes(events);
    IntervalEnd(Run(events).gapFrames[k]);
  }

  // ----- and when it is not

  /** Frame number i of a stream of one-sample frames. */
  function Tick(i: nat): AudioFrame {
    AudioFrame(BYTES_PER_SAMPLE, i)
  }

  function Ticks(from: nat, n: nat): seq<AudioFrame> {
    seq(n, i requires 0 <= i < n => Tick(from + i))
  }

  /** One frame arrives at a buffer with room. */
  lemma Arriving(before: seq<Event>) returns (events: seq<Event>)
    requires var s := Run(before); s.place.Reading? && |s.channel| < CAPACITY && s.run.None? && s.runFrames == []
    ensures var s := Run(before);
            var frame := AudioFrame(BYTES_PER_SAMPLE, s.nextSample);
            Run(events) ==
            s.(channel := s.channel + [frame], nextSample := frame.End(), received := s.received + [frame])
  {
    RunSnoc(before, Received(BYTES_PER_SAMPLE));
    var received := before + [Received(BYTES_PER_SAMPLE)];
    RunSnoc(received, SendTried);
    RunSnoc(received + [SendTried], Observed(true));
    events := received + [SendTried] + [Observed(true)];
  }

  /** A buffer can fill up: n frames arrive and nobody takes any. */
  lemma {:induction false} Filling(n: nat) returns (events: seq<Event>)
    requires n <= CAPACITY
    ensures Run(events) == State(Ticks(0, n), Reading, n, None, [], Ticks(0, n), [], [], [], 0, 0)
  {
    if n == 0 {
      events := [];
    } else {
      var before := Filling(n - 1);
      events := Arriving(before);
      assert Tick(n - 1).End() == n;
      assert Ticks(0, n) == Ticks(0, n - 1) + [Tick(n - 1)];
    }
  }

  /** The reader drops one frame of a full buffer; the consumer may cut in before the eviction. */
  lemma Dropping(before: seq<Event>, cutIn: bool) returns (events: seq<Event>)
    requires var s := Run(before); s.place.Reading? && |s.channel| == CAPACITY
    ensures var s := Run(before);
            var skipped := if cutIn then 1 else 0;
            Run(events) ==
            s.(channel := s.channel[skipped + 1..] + [AudioFrame(BYTES_PER_SAMPLE, s.nextSample)],
               nextSample := s.nextSample + 1,
               received := s.received + [AudioFrame(BYTES_PER_SAMPLE, s.nextSample)],
               taken := s.taken + s.channel[..skipped],
               takenSinceDrop := 0,
               run := Observe(s.run, Some(s.channel[skipped])).0,
               runFrames := s.runFrames + [s.channel[skipped]])
  {
    var arrived := before + [Received(BYTES_PER_SAMPLE)];
    RunSnoc(before, Received(BYTES_PER_SAMPLE));
    var failed := arrived + [SendTried];
    RunSnoc(arrived, SendTried);
    RunSnoc(failed, Taken);
    var ready := if cutIn then failed + [Taken] else failed;
    RunSnoc(ready, Evicted);
    RunSnoc(ready + [Evicted], Resent);
    RunSnoc(ready + [Evicted] + [Resent], Observed(true));
    events := ready + [Evicted] + [Resent] + [Observed(true)];
    var s := Run(before);
    assert s.channel[1..][1..] == s.channel[2..] && s.channel[..0] == [] && s.channel[..1] == [s.channel[0]];
    assert s.taken + [] == s.taken;
  }

  /**
   * The three channel operations of an enqueue are not atomic: this run, in which the
   * client disconnects in order, records a gap over the first two samples although the
   * consumer did take the second.
   */
  lemma SplitEnqueueCanMisplaceAGap() returns (events: seq<Event>)
    ensures var s := Run(events);
            && s.gaps == [DropRun(0, 2)]
            && s.taken == [Tick(1)]
            && !Seamless(s) && !Untorn(events) && !Atomic(events)
  {
    var full := Filling(CAPACITY);
    var once := Dropping(full, false);
    var twice := Dropping(once, true);
    events := twice + [Disconnected(true)];
    RunSnoc(twice, Disconnected(true));
    var s := Run(once);
    assert Run(full).channel[0] == Tick(0) && Tick(0).Samples() == 1;
    assert s.run == Some(DropRun(0, 1));
    assert s.channel[0] == Tick(1) && s.channel[1] == Tick(2) && Tick(2).Samples() == 1;
    var frames := Run(events).gapFrames[0];
    assert frames[0] == Tick(0) && frames[1] == Tick(2) && frames[0].End() != frames[1].startSample;
    assert !Adjacent(Run(events).gapFrames[0]);
    if Untorn(events) {
      UntornGapsAreIntervals(events);
    }
    if Atomic(events) {
      AtomicIsUntorn(events);
    }
  }
}
