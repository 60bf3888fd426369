/**
 * The writer loop, the enqueuers and the closers of the mailbox, step by step
 * and in every interleaving (internal/api/stream_outbound.go).
 */
module MailboxRuns {
  import opened Options
  import opened Mailbox

  /** Where the writer loop stands between two atomic operations. */
  datatype Place =
    | TakeFinal
    | CheckClosed
    | CheckPartial
    | AwaitDebounce       // the select with the debounce timer
    | AwaitAny            // the select without it
    | CheckClosedAgain
    | Writing(message: Message)
    | Returned
    | Failed(message: Message)

  /**
   * `closing` counts the close calls that have set the flag but not signalled yet;
   * `signalled` tells whether any close call has completed. `sent` and `written` are
   * histories; `returnedAt` is |sent| when the writer returned.
   */
  datatype State = State(
    box: Box,
    place: Place,
    timer: bool,
    closing: nat,
    signalled: bool,
    sent: seq<bool>,
    written: seq<Message>,
    returnedAt: nat)

  const INITIAL := State(EMPTY, TakeFinal, false, 0, false, [], [], 0)

  /** The branch a select takes; elsewhere only the success of the write matters. */
  datatype Branch = Go(ok: bool) | OnFinalWake | OnPartialWake | OnTimer | OnCloseWake

  datatype Event = Enqueued(final: bool) | FlagSet | CloseSignalled | WriterMoved(branch: Branch)

  /** Drops the debounce timer and starts the loop over. */
  function Restart(s: State, box: Box): State {
    s.(box := box, timer := false, place := TakeFinal)
  }

  /** The select that waits for the debounce timer. */
  function SelectDebounce(s: State, branch: Branch): State {
    match branch
    case OnFinalWake => if s.box.finalWake then Restart(s, s.box.(finalWake := false)) else s
    case OnPartialWake =>
      if s.box.partialWake then s.(box := s.box.(partialWake := false), place := TakeFinal) else s
    case OnTimer =>
      if !s.timer then s
      else
        var (m, box) := NextWritablePartial(s.box);
        if m.Some? then s.(box := box, timer := false, place := Writing(m.value)) else Restart(s, box)
    case OnCloseWake => if s.box.closeWake then Restart(s, s.box.(closeWake := false)) else s
    case Go(_) => s
  }

  /** The select without a timer. */
  function SelectAny(s: State, branch: Branch): State {
    match branch
    case OnFinalWake => if s.box.finalWake then s.(box := s.box.(finalWake := false), place := TakeFinal) else s
    case OnPartialWake => if s.box.partialWake then s.(box := s.box.(partialWake := false), place := TakeFinal) else s
    case OnCloseWake =>
      if s.box.closeWake then s.(box := s.box.(closeWake := false), place := CheckClosedAgain) else s
    case OnTimer => s
    case Go(_) => s
  }

  function ReturnIfDone(s: State, otherwise: Place): State {
    if ClosedAndEmpty(s.box) then s.(place := Returned, returnedAt := |s.sent|) else s.(place := otherwise)
  }

  function TakeNextFinal(s: State): State {
    var (m, box) := NextPriority(s.box);
    if m.Some? then s.(box := box, timer := false, place := Writing(m.value)) else s.(place := CheckClosed)
  }

  function Write(s: State, m: Message, ok: bool): State {
    if ok then s.(written := s.written + [m], place := TakeFinal) else s.(place := Failed(m))
  }

  function WriterStep(s: State, branch: Branch): State {
    match s.place
    case TakeFinal => TakeNextFinal(s)
    case Writing(m) => Write(s, m, branch == Go(true))
    case CheckClosed => ReturnIfDone(s, CheckPartial)
    case CheckPartial =>
      if s.box.partial.Some? then s.(timer := true, place := AwaitDebounce)
      else s.(timer := false, place := AwaitAny)
    case AwaitDebounce => SelectDebounce(s, branch)
    case AwaitAny => SelectAny(s, branch)
    case CheckClosedAgain => ReturnIfDone(s, TakeFinal)
    case Returned => s
    case Failed(_) => s
  }

  function Step(s: State, e: Event): State {
    match e
    case Enqueued(final) => s.(box := Enqueue(s.box, Message(|s.sent|, final)), sent := s.sent + [final])
    case FlagSet => s.(box := s.box.(closed := true), closing := s.closing + 1)
    case CloseSignalled =>
      if s.closing == 0 then s
      else s.(box := s.box.(closeWake := true), closing := s.closing - 1, signalled := true)
    case WriterMoved(branch) => WriterStep(s, branch)
  }

  function Run(events: seq<Event>): State {
    if events == [] then INITIAL else Step(Run(events[..|events| - 1]), events[|events| - 1])
  }

  // ----- no wake-up is lost

  /** Past the check of the finals, a final is announced by a token that is still there. */
  ghost predicate WakesKept(s: State) {
    && ((s.place.CheckClosed? || s.place.CheckPartial? || s.place.AwaitDebounce? || s.place.AwaitAny?) ==>
          s.box.finals != [] ==> s.box.finalWake)
    && (s.place.AwaitAny? ==> s.box.partial.Some? ==> s.box.partialWake)
    && (s.box.closed <==> s.signalled || s.closing > 0)
    && ((s.place.CheckPartial? || s.place.AwaitDebounce? || s.place.AwaitAny?) && s.signalled ==>
          s.box.closeWake || s.box.finals != [] || s.box.partial.Some?)
    && (s.place.AwaitDebounce? ==> s.timer && (s.box.partial.Some? || s.box.finals != []))
  }

  lemma WriterKeepsWakes(s: State, branch: Branch)
    requires WakesKept(s)
    ensures WakesKept(WriterStep(s, branch))
  {
    match s.place
    case AwaitDebounce => DebounceKeepsWakes(s, branch);
    case AwaitAny => AnyKeepsWakes(s, branch);
    case Writing(m) => TakingKeepsWakes(s, m, branch == Go(true));
    case TakeFinal => TakingKeepsWakes(s, Message(0, true), true);
    case _ => ChecksKeepWakes(s);
  }

  lemma DebounceKeepsWakes(s: State, branch: Branch)
    requires WakesKept(s) && s.place.AwaitDebounce?
    ensures WakesKept(SelectDebounce(s, branch))
  {
    var after := SelectDebounce(s, branch);
    assert after == s || after.place.TakeFinal? || after.place.Writing?;
  }

  lemma AnyKeepsWakes(s: State, branch: Branch)
    requires WakesKept(s) && s.place.AwaitAny?
    ensures WakesKept(SelectAny(s, branch))
  {
  }

  lemma TakingKeepsWakes(s: State, m: Message, ok: bool)
    requires WakesKept(s)
    ensures s.place.TakeFinal? ==> WakesKept(TakeNextFinal(s))
    ensures s.place == Writing(m) ==> WakesKept(Write(s, m, ok))
  {
  }

  lemma ChecksKeepWakes(s: State)
    requires WakesKept(s)
    ensures s.place.CheckClosed? ==> WakesKept(ReturnIfDone(s, CheckPartial))
    ensures s.place.CheckClosedAgain? ==> WakesKept(ReturnIfDone(s, TakeFinal))
    ensures s.place.CheckPartial? ==> WakesKept(WriterStep(s, OnTimer))
  {
  }

  lemma StepKeepsWakes(s: State, e: Event)
    requires WakesKept(s)
    ensures WakesKept(Step(s, e))
  {
    match e
    case WriterMoved(branch) => WriterKeepsWakes(s, branch);
    case Enqueued(final) => EnqueueKeepsWakes(s, final);
    case FlagSet => assert Step(s, e).place == s.place;
    case CloseSignalled => assert Step(s, e).place == s.place;
  }

  lemma EnqueueKeepsWakes(s: State, final: bool)
    requires WakesKept(s)
    ensures WakesKept(Step(s, Enqueued(final)))
  {
    var m := Message(|s.sent|, final);
    assert s.box.finals != [] ==> Enqueue(s.box, m).finals != [];
  }

  // ----- order

  ghost predicate Increasing(ms: seq<Message>) {
    forall i, j :: 0 <= i < j < |ms| ==> ms[i].id < ms[j].id
  }

  function InHand(p: Place): seq<Message> {
    match p
    case Writing(m) => [m]
    case Failed(m) => [m]
    case _ => []
  }

  function Pending(b: Box): seq<Message> {
    b.finals + match b.partial case Some(m) => [m] case None => []
  }

  /** Everything the writer has written, holds, or will find. */
  function Line(s: State): seq<Message> {
    s.written + InHand(s.place) + Pending(s.box)
  }

  ghost predicate Genuine(sent: seq<bool>, ms: seq<Message>) {
    forall m :: m in ms ==> m.id < |sent| && sent[m.id] == m.final
  }

  /** Finals exclude a partial, and a partial in the box is the newest message of all. */
  ghost predicate Prioritised(s: State) {
    && (forall m :: m in s.box.finals ==> m.final)
    && (s.box.finals != [] ==> s.box.partial.None?)
    && (s.box.partial.Some? ==> !s.box.partial.value.final && s.box.partial.value.id == |s.sent| - 1)
  }

  /** In order of enqueueing, and with every final among them. */
  ghost predicate Faithful(sent: seq<bool>, ms: seq<Message>) {
    && Increasing(ms)
    && Genuine(sent, ms)
    && (forall i :: 0 <= i < |sent| && sent[i] ==> Message(i, true) in ms)
  }

  ghost predicate InOrder(s: State) {
    Faithful(s.sent, Line(s))
  }

  /** The writer only takes messages out of the box. */
  ghost predicate TakesOnly(s: State, after: State) {
    && after.sent == s.sent
    && (after.box.finals == s.box.finals || (s.box.finals != [] && after.box.finals == s.box.finals[1..]))
    && (after.box.partial == s.box.partial || after.box.partial.None?)
  }

  lemma SelectTakesOnly(s: State, branch: Branch)
    ensures TakesOnly(s, SelectDebounce(s, branch)) && TakesOnly(s, SelectAny(s, branch))
  {
  }

  lemma WriterTakesOnly(s: State, branch: Branch)
    ensures TakesOnly(s, WriterStep(s, branch))
  {
    match s.place
    case AwaitDebounce => SelectTakesOnly(s, branch);
    case AwaitAny => SelectTakesOnly(s, branch);
    case TakeFinal => assert TakesOnly(s, TakeNextFinal(s));
    case Writing(m) => assert TakesOnly(s, Write(s, m, branch == Go(true)));
    case _ =>
  }

  lemma WriterKeepsPriority(s: State, branch: Branch)
    requires Prioritised(s)
    ensures Prioritised(WriterStep(s, branch))
  {
    WriterTakesOnly(s, branch);
  }

  lemma StepKeepsPriority(s: State, e: Event)
    requires Prioritised(s)
    ensures Prioritised(Step(s, e))
  {
    if e.WriterMoved? {
      WriterKeepsPriority(s, e.branch);
    }
  }

  /** A message may replace the partials at the end of the line. */
  lemma Joins(sent: seq<bool>, line: seq<Message>, kept: seq<Message>, final: bool)
    requires Faithful(sent, line) && kept <= line
    requires forall i :: |kept| <= i < |line| ==> !line[i].final
    ensures Faithful(sent + [final], kept + [Message(|sent|, final)])
  {
    var m, longer := Message(|sent|, final), sent + [final];
    assert forall i :: 0 <= i < |kept| ==> kept[i] == line[i] && kept[i] in line;
    forall i | 0 <= i < |longer| && longer[i] ensures Message(i, true) in kept + [m] {
      if i < |sent| {
        var k :| 0 <= k < |line| && line[k] == Message(i, true);
        assert kept[k] == Message(i, true);
      }
    }
  }

  lemma Dropped(sent: seq<bool>, line: seq<Message>)
    requires Faithful(sent, line)
    ensures Faithful(sent + [false], line)
  {
  }

  lemma EnqueueKeepsOrder(s: State, final: bool)
    requires Prioritised(s) && InOrder(s)
    ensures InOrder(Step(s, Enqueued(final)))
  {
    var after := Step(s, Enqueued(final));
    var kept := s.written + InHand(s.place) + s.box.finals;
    assert Line(s) == kept + match s.box.partial case Some(p) => [p] case None => [];
    Joins(s.sent, Line(s), kept, final);
    Dropped(s.sent, Line(s));
    assert Line(after) == if final || s.box.finals == [] then kept + [Message(|s.sent|, final)] else Line(s);
  }

  lemma SelectKeepsLine(s: State, branch: Branch)
    ensures s.place.AwaitDebounce? ==> Line(SelectDebounce(s, branch)) == Line(s)
    ensures s.place.AwaitAny? ==> Line(SelectAny(s, branch)) == Line(s)
  {
  }

  lemma TakingKeepsLine(s: State)
    requires s.place.TakeFinal?
    ensures Line(TakeNextFinal(s)) == Line(s)
  {
    if s.box.finals != [] {
      assert s.box.finals == [s.box.finals[0]] + s.box.finals[1..];
    }
  }

  lemma WritingKeepsLine(s: State, m: Message, ok: bool)
    requires s.place == Writing(m)
    ensures Line(Write(s, m, ok)) == Line(s)
  {
  }

  /** The writer moves messages along the line and never changes it. */
  lemma WriterKeepsLine(s: State, branch: Branch)
    ensures Line(WriterStep(s, branch)) == Line(s)
  {
    match s.place
    case AwaitDebounce => SelectKeepsLine(s, branch);
    case AwaitAny => SelectKeepsLine(s, branch);
    case TakeFinal => TakingKeepsLine(s);
    case Writing(m) => WritingKeepsLine(s, m, branch == Go(true));
    case _ =>
  }

  lemma StepKeepsOrder(s: State, e: Event)
    requires Prioritised(s) && InOrder(s)
    ensures InOrder(Step(s, e))
  {
    match e
    case Enqueued(final) => EnqueueKeepsOrder(s, final);
    case FlagSet =>
    case CloseSignalled =>
    case WriterMoved(branch) => WriterKeepsLine(s, branch); WriterTakesOnly(s, branch);
  }

  // ----- returning

  /** The writer returns only from a closed mailbox with every final so far written. */
  ghost predicate ReturnedClean(s: State) {
    s.place.Returned? ==>
      && s.box.closed
      && s.returnedAt <= |s.sent|
      && forall i :: 0 <= i < s.returnedAt && s.sent[i] ==> Message(i, true) in s.written
  }

  lemma StepReturnsClean(s: State, e: Event)
    requires InOrder(s) && ReturnedClean(s)
    ensures ReturnedClean(Step(s, e))
  {
    if !s.place.Returned? && Step(s, e).place.Returned? {
      assert Line(s) == s.written;
    }
  }

  // ----- all runs

  ghost predicate Invariant(s: State) {
    WakesKept(s) && Prioritised(s) && InOrder(s) && ReturnedClean(s)
  }

  lemma {:induction false} RunInvariant(events: seq<Event>)
    ensures Invariant(Run(events))
  {
    if events != [] {
      var s, e := Run(events[..|events| - 1]), events[|events| - 1];
      RunInvariant(events[..|events| - 1]);
      StepKeepsWakes(s, e);
      StepKeepsPriority(s, e);
      StepKeepsOrder(s, e);
      StepReturnsClean(s, e);
    }
  }

  /**
   * What reaches the socket is a subsequence of what was enqueued; a final that
   * was enqueued is written, held by the writer or still queued, and never doubled.
   */
  lemma WrittenInOrder(events: seq<Event>)
    ensures var s := Run(events);
            && Increasing(s.written)
            && Genuine(s.sent, s.written)
            && (forall i :: 0 <= i < |s.sent| && s.sent[i] ==>
                  var m := Message(i, true);
                  m in s.written || m in InHand(s.place) || m in s.box.finals)
  {
    RunInvariant(events);
    var s := Run(events);
    assert forall i :: 0 <= i < |s.written| ==> s.written[i] == Line(s)[i] && s.written[i] in Line(s);
  }

  lemma RunSnoc(events: seq<Event>, e: Event)
    ensures Run(events + [e]) == Step(Run(events), e)
  {
    assert (events + [e])[..|events|] == events;
  }

  /** A message that nothing newer follows stays in the line: in the box, with the writer, or written. */
  lemma {:induction false} StaysInLine(before: seq<Event>, more: seq<Event>, m: Message)
    requires m in Line(Run(before)) && forall e :: e in more ==> !e.Enqueued?
    ensures m in Line(Run(before + more)) && Run(before + more).sent == Run(before).sent
  {
    if more == [] {
      assert before + more == before;
    } else {
      var front, last := more[..|more| - 1], more[|more| - 1];
      StaysInLine(before, front, m);
      OneMoreEvent(before, more);
      LineStays(Run(before + front), last);
    }
  }

  lemma OneMoreEvent(before: seq<Event>, more: seq<Event>)
    requires more != []
    ensures Run(before + more) == Step(Run(before + more[..|more| - 1]), more[|more| - 1])
    ensures more[|more| - 1] in more
  {
    assert (before + more)[..|before + more| - 1] == before + more[..|more| - 1];
  }

  lemma LineStays(s: State, e: Event)
    requires !e.Enqueued?
    ensures Line(Step(s, e)) == Line(s) && Step(s, e).sent == s.sent
  {
    if e.WriterMoved? {
      WriterKeepsLine(s, e.branch);
      WriterTakesOnly(s, e.branch);
    }
  }

  /**
   * A partial that finds no final waiting is kept, replacing an older one; behind a
   * final it is dropped. A final is always kept, and removes a partial that waits.
   */
  lemma EnqueuedIsKept(events: seq<Event>, final: bool)
    ensures var s, after := Run(events), Run(events + [Enqueued(final)]);
            var m := Message(|s.sent|, final);
            && after.place == s.place && after.written == s.written
            && (final ==> after.box.finals == s.box.finals + [m] && after.box.partial.None? && after.box.finalWake)
            && (!final ==> after.box.finals == s.box.finals)
            && (!final && s.box.finals == [] ==> after.box.partial == Some(m) && after.box.partialWake)
            && (!final && s.box.finals != [] ==> after.box == s.box)
  {
    RunInvariant(events);
    RunSnoc(events, Enqueued(final));
  }

  /** A partial leaves the box only for the writer, or because something newer was enqueued. */
  lemma PartialLeavesOnlyFor(events: seq<Event>, e: Event, m: Message)
    requires Run(events).box.partial == Some(m)
    ensures var after := Run(events + [e]);
            || after.box.partial == Some(m)
            || (e == Enqueued(true) && after.box.partial == None)
            || (e == Enqueued(false) && after.box.partial == Some(Message(|Run(events).sent|, false)))
            || (e == WriterMoved(OnTimer) && after.place == Writing(m))
  {
    RunInvariant(events);
    RunSnoc(events, e);
    if e.WriterMoved? {
      TimerTakes(Run(events), e.branch, m);
    }
  }

  lemma TimerTakes(s: State, branch: Branch, m: Message)
    requires s.box.partial == Some(m) && Prioritised(s)
    ensures var after := WriterStep(s, branch);
            after.box.partial == Some(m) || (branch == OnTimer && after.place == Writing(m))
  {
    match s.place
    case AwaitDebounce => assert SelectDebounce(s, branch).box.partial == Some(m) || branch == OnTimer;
    case AwaitAny => assert SelectAny(s, branch).box.partial == Some(m);
    case TakeFinal => assert TakeNextFinal(s).box.partial == Some(m);
    case _ =>
  }

  /**
   * So the newest message, if it is a final or found no final waiting, is never lost:
   * until something newer is enqueued it waits, is in the writer's hand, or has been
   * written; and when the writer then comes to rest without a failed write, it has been.
   */
  lemma NewestIsDelivered(events: seq<Event>, more: seq<Event>, final: bool)
    requires final || Run(events).box.finals == []
    requires forall e :: e in more ==> !e.Enqueued?
    ensures var m := Message(|Run(events).sent|, final);
            var s := Run(events + [Enqueued(final)] + more);
            && m in Line(s)
            && ((forall branch: Branch :: WriterStep(s, branch) == s) && !s.place.Failed? && !s.place.Returned? ==>
                  m in s.written)
  {
    EnqueuedIsKept(events, final);
    var m, begun := Message(|Run(events).sent|, final), events + [Enqueued(final)];
    assert m in Pending(Run(begun).box);
    StaysInLine(begun, more, m);
    var s := Run(begun + more);
    if (forall branch: Branch :: WriterStep(s, branch) == s) && !s.place.Failed? && !s.place.Returned? {
      RestMeansDelivered(begun + more);
      assert Line(s) == s.written;
    }
  }

  /** What the select with the timer can take, and where it leads; only a partial wake leaves the timer running. */
  lemma DebounceBranches(s: State, branch: Branch)
    requires s.place.AwaitDebounce? && s.timer
    ensures var after := WriterStep(s, branch);
            && (after != s <==> match branch
                                case OnFinalWake => s.box.finalWake
                                case OnPartialWake => s.box.partialWake
                                case OnCloseWake => s.box.closeWake
                                case OnTimer => true
                                case Go(_) => false)
            && (after != s && branch != OnTimer ==>
                  after.place.TakeFinal? && (after.timer <==> branch == OnPartialWake))
            && (branch == OnTimer ==>
                  !after.timer
                  && if s.box.finals == [] && s.box.partial.Some? then after.place == Writing(s.box.partial.value)
                     else after.place.TakeFinal?)
  {
  }

  /** The writer returns at either check of the mailbox exactly when that is closed and empty. */
  lemma ReturnsIffClosedAndEmpty(s: State, branch: Branch)
    requires s.place.CheckClosed? || s.place.CheckClosedAgain?
    ensures WriterStep(s, branch).place.Returned? <==> s.box.closed && s.box.finals == [] && s.box.partial.None?
    ensures !WriterStep(s, branch).place.Returned? ==>
              WriterStep(s, branch).place == if s.place.CheckClosed? then CheckPartial else TakeFinal
  {
  }

  /** A partial is written only from the select with the debounce timer, when that has fired. */
  lemma PartialsAreDebounced(s: State, branch: Branch)
    requires Prioritised(s) && !s.place.Writing?
    ensures var after := WriterStep(s, branch);
            after.place.Writing? && !after.place.message.final ==>
              s.place.AwaitDebounce? && s.timer && branch == OnTimer
  {
    match s.place
    case TakeFinal => assert s.box.finals != [] ==> s.box.finals[0] in s.box.finals;
    case AwaitDebounce =>
    case AwaitAny =>
    case _ =>
  }

  /** A partial is taken for writing only while it is the newest message, with no final waiting. */
  lemma PartialIsTheNewest(events: seq<Event>)
    requires Run(events).place.AwaitDebounce?
    requires WriterStep(Run(events), OnTimer).place.Writing?
    ensures var m := WriterStep(Run(events), OnTimer).place.message;
            !m.final && m.id == |Run(events).sent| - 1 && Run(events).box.finals == []
  {
    RunInvariant(events);
  }

  /**
   * The writer blocked in a select can go on whenever there is something for it to do:
   * a final, a partial, or a close call that has completed, whatever others still do.
   */
  lemma NoLostWakeUp(events: seq<Event>)
    requires var s := Run(events);
             && (s.place.AwaitDebounce? || s.place.AwaitAny?)
             && (s.box.finals != [] || s.box.partial.Some? || s.signalled)
    ensures exists branch: Branch :: WriterStep(Run(events), branch) != Run(events)
  {
    RunInvariant(events);
    var s := Run(events);
    var branch := if s.place.AwaitDebounce? then OnTimer
                  else if s.box.finalWake then OnFinalWake
                  else if s.box.partialWake then OnPartialWake
                  else OnCloseWake;
    assert WriterStep(s, branch).place != s.place;
  }

  // ----- the writer gets its work done

  function Tokens(b: Box): nat {
    (if b.partialWake then 1 else 0) + (if b.finalWake then 1 else 0) + if b.closeWake then 1 else 0
  }

  function PlaceRank(s: State): nat {
    match s.place
    case TakeFinal => if s.box.finals != [] then 0 else 4
    case CheckClosed => 3
    case CheckPartial => 2
    case AwaitDebounce => 1
    case AwaitAny => 1
    case CheckClosedAgain => 5
    case Writing(_) => 5
    case Returned => 0
    case Failed(_) => 0
  }

  /** A bound on the steps the writer can take on its own. */
  function Work(s: State): nat {
    6 * |Pending(s.box)| + 5 * Tokens(s.box) + PlaceRank(s)
  }

  lemma SelectProgresses(s: State, branch: Branch)
    requires WakesKept(s) && Prioritised(s)
    ensures s.place.AwaitDebounce? ==> SelectDebounce(s, branch) == s || Work(SelectDebounce(s, branch)) < Work(s)
    ensures s.place.AwaitAny? ==> SelectAny(s, branch) == s || Work(SelectAny(s, branch)) < Work(s)
  {
  }

  lemma TakingProgresses(s: State, m: Message, ok: bool)
    ensures s.place.TakeFinal? ==> Work(TakeNextFinal(s)) < Work(s)
    ensures s.place == Writing(m) ==> Work(Write(s, m, ok)) < Work(s)
  {
  }

  lemma StepProgresses(s: State, branch: Branch)
    requires WakesKept(s) && Prioritised(s)
    ensures WriterStep(s, branch) == s || Work(WriterStep(s, branch)) < Work(s)
  {
    match s.place
    case AwaitDebounce => SelectProgresses(s, branch);
    case AwaitAny => SelectProgresses(s, branch);
    case TakeFinal => TakingProgresses(s, Message(0, true), true);
    case Writing(m) => TakingProgresses(s, m, branch == Go(true));
    case _ =>
  }

  /** Every effective step of the writer uses up some of its work: it cannot spin. */
  lemma WriterProgresses(events: seq<Event>, branch: Branch)
    ensures var s := Run(events); WriterStep(s, branch) == s || Work(WriterStep(s, branch)) < Work(s)
  {
    RunInvariant(events);
    StepProgresses(Run(events), branch);
  }

  /**
   * So, left alone, the writer comes to rest; and at rest, unless a write failed,
   * nothing is pending, and a completed close has made it return.
   */
  lemma RestMeansDelivered(events: seq<Event>)
    requires forall branch: Branch :: WriterStep(Run(events), branch) == Run(events)
    ensures var s := Run(events);
            || s.place.Failed? || s.place.Returned?
            || (&& s.place.AwaitAny? && s.box.finals == [] && s.box.partial.None?
                && (forall i :: 0 <= i < |s.sent| && s.sent[i] ==> Message(i, true) in s.written)
                && !s.signalled && (s.box.closed ==> s.closing > 0))
  {
    RunInvariant(events);
    var s := Run(events);
    assert WriterStep(s, Go(true)) == s && WriterStep(s, OnTimer) == s;
    assert WriterStep(s, OnFinalWake) == s && WriterStep(s, OnPartialWake) == s && WriterStep(s, OnCloseWake) == s;
    if s.place.AwaitAny? {
      assert !s.box.finalWake && !s.box.partialWake && !s.box.closeWake;
      assert Line(s) == s.written;
    } else {
      assert s.place.Failed? || s.place.Returned? || WriterStep(s, Go(true)).place != s.place
             || WriterStep(s, OnTimer).place != s.place;
    }
  }
}
