/** The hub that wakes live-prompt handlers, and what becomes of a wake (internal/api/live_prompts.go). */
module LiveWakes {

  type NoteId = string

  /** Each subscription has a mailbox with room for one wake: true when it holds one. */
  type Mailboxes = map<NoteId, map<nat, bool>>

  function Woken(boxes: map<nat, bool>): map<nat, bool> {
    map id | id in boxes :: true
  }

  class LiveNoteHub {
    var subs: Mailboxes
    var next: nat

    /** Every id was handed out before, so a new one is fresh. */
    ghost predicate Valid()
      reads this
    {
      forall note, id :: note in subs && id in subs[note] ==> id < next
    }

    constructor ()
      ensures Valid() && subs == map[]
    {
      subs, next := map[], 0;
    }

    method Register(note: NoteId) returns (id: nat)
      requires Valid()
      modifies this
      ensures Valid()
      ensures note in old(subs) ==> id !in old(subs)[note]
      ensures subs == old(subs)[note := (if note in old(subs) then old(subs)[note] else map[])[id := false]]
    {
      id := next;
      next := next + 1;
      var boxes := if note in subs then subs[note] else map[];
      subs := subs[note := boxes[id := false]];
    }

    method Unregister(note: NoteId, id: nat)
      requires Valid()
      modifies this
      ensures Valid()
      ensures note in subs ==> id !in subs[note] && subs[note] != map[]
      ensures forall n :: n != note ==> (n in subs <==> n in old(subs)) && (n in subs ==> subs[n] == old(subs)[n])
      ensures note in old(subs) && old(subs)[note] - {id} != map[] ==>
                note in subs && subs[note] == old(subs)[note] - {id}
    {
      if note in subs {
        var boxes := subs[note] - {id};
        subs := if boxes == map[] then subs - {note} else subs[note := boxes];
      }
    }

    /** Puts a wake into every mailbox of the note that has room; a full one is left alone. */
    method Wake(note: NoteId)
      requires Valid()
      modifies this
      ensures Valid()
      ensures subs == if note in old(subs) then old(subs)[note := Woken(old(subs)[note])] else old(subs)
    {
      if note !in subs {
        return;
      }
      var boxes := subs[note];
      var left := boxes.Keys;
      while left != {}
        invariant subs == old(subs) && boxes.Keys == old(subs)[note].Keys && left <= boxes.Keys
        invariant forall id :: id in boxes ==> boxes[id] == (id !in left || old(subs)[note][id])
        decreases left
      {
        var id :| id in left;
        if !boxes[id] {
          boxes := boxes[id := true];
        }
        left := left - {id};
      }
      assert boxes == Woken(old(subs)[note]);
      subs := subs[note := boxes];
    }
  }

  // ----- one handler

  datatype Place = Selecting | AboutToRead | Reading | Gone

  /**
   * `started` counts the reads begun since registration, the first snapshot
   * included; `wakes` remembers for every wake how many had begun before it.
   */
  datatype State = State(token: bool, place: Place, started: nat, wakes: seq<nat>)

  /** A handler that has registered goes on to read its first snapshot. */
  const REGISTERED := State(false, AboutToRead, 0, [])

  datatype Event = Wakes | TakesToken | HeartbeatFires | StartsRead | EndsRead(ok: bool) | Leaves

  function Step(s: State, e: Event): State {
    match e
    case Wakes => s.(token := true, wakes := s.wakes + [s.started])
    case TakesToken => if s.place.Selecting? && s.token then s.(token := false, place := AboutToRead) else s
    case HeartbeatFires => if s.place.Selecting? then s.(place := AboutToRead) else s
    case StartsRead => if s.place.AboutToRead? then s.(place := Reading, started := s.started + 1) else s
    case EndsRead(ok) => if s.place.Reading? then s.(place := if ok then Selecting else Gone) else s
    case Leaves => if s.place.Selecting? then s.(place := Gone) else s
  }

  function Run(events: seq<Event>): State {
    if events == [] then REGISTERED else Step(Run(events[..|events| - 1]), events[|events| - 1])
  }

  /**
   * No wake is lost to the one-slot mailbox: a read that began after it exists, or
   * is about to begin, or the wake is still in the mailbox, or the handler has left.
   */
  lemma {:induction false} WakesAreServed(events: seq<Event>, k: nat)
    requires k < |Run(events).wakes|
    ensures var s := Run(events);
            s.wakes[k] < s.started || s.place.AboutToRead? || s.token || s.place.Gone?
    ensures Run(events).wakes[k] <= Run(events).started
  {
    var before := Run(events[..|events| - 1]);
    if k < |before.wakes| {
      WakesAreServed(events[..|events| - 1], k);
    }
  }

  /** A wake that waits, or a heartbeat, leads to one more read, after which the handler waits again. */
  lemma OneMoreRead(events: seq<Event>, heartbeat: bool)
    requires Run(events).place.Selecting? && (heartbeat || Run(events).token)
    ensures var first := if heartbeat then HeartbeatFires else TakesToken;
            var s, after := Run(events), Run(events + [first] + [StartsRead] + [EndsRead(true)]);
            && after.place.Selecting? && after.started == s.started + 1 && after.wakes == s.wakes
            && after.token == (heartbeat && s.token)
  {
    var first := if heartbeat then HeartbeatFires else TakesToken;
    RunSnoc(events, first);
    RunSnoc(events + [first], StartsRead);
    RunSnoc(events + [first] + [StartsRead], EndsRead(true));
  }

  lemma RunSnoc(events: seq<Event>, e: Event)
    ensures Run(events + [e]) == Step(Run(events), e)
  {
    assert (events + [e])[..|events|] == events;
  }

  /** A read that fails, or a viewer that leaves, ends the handler. */
  lemma HandlerEnds(events: seq<Event>)
    ensures Run(events).place.Reading? ==> Run(events + [EndsRead(false)]).place.Gone?
    ensures Run(events).place.Selecting? ==> Run(events + [Leaves]).place.Gone?
  {
    RunSnoc(events, EndsRead(false));
    RunSnoc(events, Leaves);
  }
}
