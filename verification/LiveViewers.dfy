/**
 * Changes of a note's live prompts, the hub that announces them, and the handlers
 * that reread the note for their viewers (internal/api/live_prompts.go).
 */
module LiveViewers {
  import opened LivePrompts
  import LiveWakes

  /** Where a handler stands; `seen` and `shown` count the changes its current and its last read have seen. */
  datatype Handler = Handler(place: LiveWakes.Place, seen: nat, shown: nat, written: seq<Sse>)

  /**
   * `changes` counts the changes of the note's rows; the hub has been woken for the
   * first `announced` of them, or for some later one. The hub has a mailbox for each
   * handler that has registered.
   */
  datatype State = State(changes: nat, announced: nat, boxes: map<nat, bool>, handlers: map<nat, Handler>)

  const INITIAL := State(0, 0, map[], map[])

  /** `out` are the events that a read writes to its viewer. */
  datatype Event =
    | Changed
    | Announced(change: nat)
    | Registered(id: nat)
    | TokenTaken(id: nat)
    | Heartbeat(id: nat)
    | ReadStarted(id: nat)
    | ReadEnded(id: nat, out: seq<Sse>, ok: bool)
    | Left(id: nat)

  /** The rows that a read finds, by the number of changes it sees. */
  type Rows = nat -> seq<Item>

  function HandlerAt(s: State, id: nat): Handler {
    if id in s.handlers then s.handlers[id] else Handler(LiveWakes.Gone, 0, 0, [])
  }

  function Put(s: State, id: nat, h: Handler): State {
    s.(handlers := s.handlers[id := h])
  }

  /** A read that succeeds has written what takes its viewer to the rows it found. */
  function EndRead(rows: Rows, s: State, id: nat, out: seq<Sse>, ok: bool): State {
    var h := HandlerAt(s, id);
    if !h.place.Reading? then s
    else if !ok then Put(s, id, h.(place := LiveWakes.Gone, written := h.written + out))
    else if Replay(h.written + out) != Keyed(rows(h.seen)) then s
    else Put(s, id, h.(place := LiveWakes.Selecting, shown := h.seen, written := h.written + out))
  }

  /** One step; a step that cannot be taken in this state changes nothing. */
  function Step(rows: Rows, s: State, e: Event): State {
    match e
    case Changed => s.(changes := s.changes + 1)
    case Announced(n) =>
      if n > s.changes then s
      else s.(announced := if n > s.announced then n else s.announced, boxes := LiveWakes.Woken(s.boxes))
    case Registered(id) =>
      if id in s.handlers then s
      else Put(s, id, Handler(LiveWakes.AboutToRead, 0, 0, [])).(boxes := s.boxes[id := false])
    case TokenTaken(id) =>
      var h := HandlerAt(s, id);
      if h.place.Selecting? && id in s.boxes && s.boxes[id]
      then Put(s, id, h.(place := LiveWakes.AboutToRead)).(boxes := s.boxes[id := false])
      else s
    case Heartbeat(id) =>
      var h := HandlerAt(s, id);
      if h.place.Selecting? then Put(s, id, h.(place := LiveWakes.AboutToRead)) else s
    case ReadStarted(id) =>
      var h := HandlerAt(s, id);
      if h.place.AboutToRead? then Put(s, id, h.(place := LiveWakes.Reading, seen := s.changes)) else s
    case ReadEnded(id, out, ok) => EndRead(rows, s, id, out, ok)
    case Left(id) =>
      var h := HandlerAt(s, id);
      if h.place.Selecting? then Put(s, id, h.(place := LiveWakes.Gone)) else s
  }

  function Run(rows: Rows, events: seq<Event>): State {
    if events == [] then INITIAL
    else Step(rows, Run(rows, events[..|events| - 1]), events[|events| - 1])
  }

  /** Unless a wake waits in its mailbox, a handler reads or shows all that was announced. */
  ghost predicate UpToDate(rows: Rows, s: State, id: nat) {
    var h := HandlerAt(s, id);
    && (id in s.handlers ==> id in s.boxes)
    && (h.place.Reading? ==> h.seen <= s.changes && (s.boxes[id] || s.announced <= h.seen))
    && (h.place.Selecting? ==>
          && h.shown <= s.changes && (s.boxes[id] || s.announced <= h.shown)
          && Replay(h.written) == Keyed(rows(h.shown)))
  }

  ghost predicate AllUpToDate(rows: Rows, s: State) {
    s.announced <= s.changes && forall id: nat :: UpToDate(rows, s, id)
  }

  /** A step of one handler leaves the others as they are. */
  lemma HandlerStepUpToDate(rows: Rows, s: State, e: Event)
    requires AllUpToDate(rows, s) && !e.Changed? && !e.Announced?
    ensures AllUpToDate(rows, Step(rows, s, e))
  {
    var after := Step(rows, s, e);
    forall id: nat ensures UpToDate(rows, after, id) {
      assert UpToDate(rows, s, id);
      if id != e.id {
        assert HandlerAt(after, id) == HandlerAt(s, id);
      }
    }
  }

  lemma NoteStepUpToDate(rows: Rows, s: State, e: Event)
    requires AllUpToDate(rows, s) && (e.Changed? || e.Announced?)
    ensures AllUpToDate(rows, Step(rows, s, e))
  {
    var after := Step(rows, s, e);
    forall id: nat ensures UpToDate(rows, after, id) {
      assert UpToDate(rows, s, id);
    }
  }

  lemma {:induction false} RunUpToDate(rows: Rows, events: seq<Event>)
    ensures AllUpToDate(rows, Run(rows, events))
  {
    if events == [] {
      forall id: nat ensures UpToDate(rows, INITIAL, id) {
      }
    } else {
      var s, e := Run(rows, events[..|events| - 1]), events[|events| - 1];
      RunUpToDate(rows, events[..|events| - 1]);
      if e.Changed? || e.Announced? {
        NoteStepUpToDate(rows, s, e);
      } else {
        HandlerStepUpToDate(rows, s, e);
      }
    }
  }

  /**
   * From the store to the viewer, on every interleaving: a handler that waits with an
   * empty mailbox has shown its viewer the rows as they were at the last announced
   * change or later; and when every change has been announced, the rows as they are.
   */
  lemma RestMeansCurrent(rows: Rows, events: seq<Event>, id: nat)
    requires var s := Run(rows, events);
             id in s.handlers && s.handlers[id].place.Selecting? && id in s.boxes && !s.boxes[id]
    ensures var s := Run(rows, events);
            var h := s.handlers[id];
            && s.announced <= h.shown <= s.changes && Replay(h.written) == Keyed(rows(h.shown))
            && (s.announced == s.changes ==> Replay(h.written) == Keyed(rows(s.changes)))
  {
    RunUpToDate(rows, events);
    RestIsCurrent(rows, Run(rows, events), id);
  }

  lemma RestIsCurrent(rows: Rows, s: State, id: nat)
    requires AllUpToDate(rows, s)
    requires id in s.handlers && s.handlers[id].place.Selecting? && id in s.boxes && !s.boxes[id]
    ensures var h := s.handlers[id];
            && s.announced <= h.shown <= s.changes && Replay(h.written) == Keyed(rows(h.shown))
            && (s.announced == s.changes ==> Replay(h.written) == Keyed(rows(s.changes)))
  {
    assert UpToDate(rows, s, id);
  }

  /** A heartbeat makes up for any wake that never came: the reread it starts shows all changes so far. */
  lemma HeartbeatCatchesUp(rows: Rows, events: seq<Event>, id: nat, out: seq<Sse>)
    requires var s := Run(rows, events); id in s.handlers && s.handlers[id].place.Selecting?
    requires var s := Run(rows, events); Replay(s.handlers[id].written + out) == Keyed(rows(s.changes))
    ensures var s := Run(rows, events);
            var after := Run(rows, events + [Heartbeat(id)] + [ReadStarted(id)] + [ReadEnded(id, out, true)]);
            && id in after.handlers && after.handlers[id].place.Selecting? && after.handlers[id].shown == s.changes
            && Replay(after.handlers[id].written) == Keyed(rows(s.changes))
  {
    RunSnoc(rows, events, Heartbeat(id));
    RunSnoc(rows, events + [Heartbeat(id)], ReadStarted(id));
    RunSnoc(rows, events + [Heartbeat(id)] + [ReadStarted(id)], ReadEnded(id, out, true));
  }

  /** A wake that waits leads to a reread that shows all changes so far, and leaves the mailbox empty. */
  lemma TokenLeadsToReread(rows: Rows, events: seq<Event>, id: nat, out: seq<Sse>)
    requires var s := Run(rows, events);
             id in s.handlers && s.handlers[id].place.Selecting? && id in s.boxes && s.boxes[id]
    requires var s := Run(rows, events); Replay(s.handlers[id].written + out) == Keyed(rows(s.changes))
    ensures var s := Run(rows, events);
            var after := Run(rows, events + [TokenTaken(id)] + [ReadStarted(id)] + [ReadEnded(id, out, true)]);
            && id in after.handlers && after.handlers[id].place.Selecting? && after.handlers[id].shown == s.changes
            && after.boxes == s.boxes[id := false]
            && Replay(after.handlers[id].written) == Keyed(rows(s.changes))
  {
    RunSnoc(rows, events, TokenTaken(id));
    RunSnoc(rows, events + [TokenTaken(id)], ReadStarted(id));
    RunSnoc(rows, events + [TokenTaken(id)] + [ReadStarted(id)], ReadEnded(id, out, true));
  }

  /** A new viewer is shown the rows as they are when its first read starts. */
  lemma NewViewerIsShown(rows: Rows, events: seq<Event>, id: nat, out: seq<Sse>)
    requires id !in Run(rows, events).handlers && Replay(out) == Keyed(rows(Run(rows, events).changes))
    ensures var s := Run(rows, events);
            var after := Run(rows, events + [Registered(id)] + [ReadStarted(id)] + [ReadEnded(id, out, true)]);
            && id in after.handlers && after.handlers[id].place.Selecting? && after.handlers[id].written == out
            && after.handlers[id].shown == s.changes && id in after.boxes && !after.boxes[id]
  {
    var s, begun := Run(rows, events), events + [Registered(id)];
    RunSnoc(rows, events, Registered(id));
    RunSnoc(rows, begun, ReadStarted(id));
    RunSnoc(rows, begun + [ReadStarted(id)], ReadEnded(id, out, true));
    assert Run(rows, begun) == Put(s, id, Handler(LiveWakes.AboutToRead, 0, 0, [])).(boxes := s.boxes[id := false]);
    assert [] + out == out;
    ReadShows(rows, Run(rows, begun), id, out);
  }

  /** A read that starts now and succeeds shows all changes so far. */
  lemma ReadShows(rows: Rows, s: State, id: nat, out: seq<Sse>)
    requires id in s.handlers && s.handlers[id].place.AboutToRead?
    requires Replay(s.handlers[id].written + out) == Keyed(rows(s.changes))
    ensures var h := s.handlers[id];
            Step(rows, Step(rows, s, ReadStarted(id)), ReadEnded(id, out, true)) ==
            Put(s, id, Handler(LiveWakes.Selecting, s.changes, s.changes, h.written + out))
  {
    var h := s.handlers[id];
    var reading := Put(s, id, h.(place := LiveWakes.Reading, seen := s.changes));
    assert Step(rows, s, ReadStarted(id)) == reading;
    assert reading.handlers[id := Handler(LiveWakes.Selecting, s.changes, s.changes, h.written + out)] ==
           s.handlers[id := Handler(LiveWakes.Selecting, s.changes, s.changes, h.written + out)];
  }

  /** The announcement of a change reaches every mailbox and is remembered; later news is not forgotten for it. */
  lemma AnnouncementReachesAll(rows: Rows, events: seq<Event>, n: nat)
    requires n <= Run(rows, events).changes
    ensures var s, after := Run(rows, events), Run(rows, events + [Announced(n)]);
            && after.announced >= n && after.announced >= s.announced && after.announced in {n, s.announced}
            && after.handlers == s.handlers && after.boxes.Keys == s.boxes.Keys
            && forall id :: id in after.boxes ==> after.boxes[id]
  {
    RunSnoc(rows, events, Announced(n));
  }

  /** A handler whose read fails, or whose viewer leaves, is gone. */
  lemma HandlerEnds(rows: Rows, events: seq<Event>, id: nat, out: seq<Sse>)
    requires id in Run(rows, events).handlers
    ensures var h := Run(rows, events).handlers[id];
            && (h.place.Reading? ==> HandlerAt(Run(rows, events + [ReadEnded(id, out, false)]), id).place.Gone?)
            && (h.place.Selecting? ==> HandlerAt(Run(rows, events + [Left(id)]), id).place.Gone?)
  {
    RunSnoc(rows, events, ReadEnded(id, out, false));
    RunSnoc(rows, events, Left(id));
  }

  lemma RunSnoc(rows: Rows, events: seq<Event>, e: Event)
    ensures Run(rows, events + [e]) == Step(rows, Run(rows, events), e)
  {
    assert (events + [e])[..|events|] == events;
  }

  /**
   * And a handler that does not rest can go on: it has a wake to take, a read to start,
   * or a read under way that its reread can complete.
   */
  lemma UnrestedCanGoOn(rows: Rows, events: seq<Event>, id: nat, out: seq<Sse>)
    requires var s := Run(rows, events); id in s.handlers && !s.handlers[id].place.Gone?
    requires var h := Run(rows, events).handlers[id];
             h.place.Reading? ==> Replay(h.written + out) == Keyed(rows(h.seen))
    ensures var s := Run(rows, events);
            var e := match s.handlers[id].place
                     case AboutToRead => ReadStarted(id)
                     case Reading => ReadEnded(id, out, true)
                     case _ => TokenTaken(id);
            HandlerAt(Step(rows, s, e), id).place != s.handlers[id].place
            <==> !(s.handlers[id].place.Selecting? && id in s.boxes && !s.boxes[id])
  {
    RunUpToDate(rows, events);
    assert UpToDate(rows, Run(rows, events), id);
  }
}
