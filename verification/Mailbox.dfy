/**
 * The mailbox between the relay and the socket writer: finals in order, one
 * coalesced partial, and one-slot wake channels (internal/api/stream_outbound.go).
 */
module Mailbox {
  import opened Options

  /** A message, named by its position in the order of the enqueue calls. */
  datatype Message = Message(id: nat, final: bool)

  datatype Box = Box(
    partial: Option<Message>,
    finals: seq<Message>,
    closed: bool,
    partialWake: bool,
    finalWake: bool,
    closeWake: bool)

  const EMPTY := Box(None, [], false, false, false, false)

  datatype Action = QueuePartial | CoalescePartial | DropPartial | QueuePriority

  function DecideAction(hasPendingFinal: bool, hasPendingPartial: bool, final: bool): Action {
    if final then QueuePriority
    else if hasPendingFinal then DropPartial
    else if hasPendingPartial then CoalescePartial
    else QueuePartial
  }

  function Enqueue(b: Box, m: Message): Box {
    match DecideAction(b.finals != [], b.partial.Some?, m.final)
    case QueuePriority => b.(finals := b.finals + [m], partial := None, finalWake := true)
    case QueuePartial => b.(partial := Some(m), partialWake := true)
    case CoalescePartial => b.(partial := Some(m), partialWake := true)
    case DropPartial => b
  }

  function NextPriority(b: Box): (Option<Message>, Box) {
    if b.finals == [] then (None, b) else (Some(b.finals[0]), b.(finals := b.finals[1..]))
  }

  function NextWritablePartial(b: Box): (Option<Message>, Box) {
    if b.finals != [] || b.partial.None? then (None, b) else (b.partial, b.(partial := None))
  }

  predicate ClosedAndEmpty(b: Box) {
    b.closed && b.finals == [] && b.partial.None?
  }

  class StreamOutboundMailbox {
    var partialWake: bool
    var finalWake: bool
    var closeWake: bool
    var partial: Option<Message>
    var finals: seq<Message>
    var closed: bool

    function Now(): Box
      reads this
    {
      Box(partial, finals, closed, partialWake, finalWake, closeWake)
    }

    constructor ()
      ensures Now() == EMPTY
    {
      partialWake, finalWake, closeWake := false, false, false;
      partial, finals, closed := None, [], false;
    }

    method EnqueueMessage(m: Message)
      modifies this
      ensures Now() == Enqueue(old(Now()), m)
    {
      match DecideAction(|finals| > 0, partial != None, m.final)
      case QueuePriority =>
        finals := finals + [m];
        partial := None;
        finalWake := true;
      case QueuePartial =>
        partial := Some(m);
        partialWake := true;
      case CoalescePartial =>
        partial := Some(m);
        partialWake := true;
      case DropPartial =>
    }

    /** The first half of close, under the mutex. */
    method MarkClosed()
      modifies this
      ensures Now() == old(Now()).(closed := true)
    {
      closed := true;
    }

    /** The second half of close, after the mutex is free again. */
    method SignalClose()
      modifies this
      ensures Now() == old(Now()).(closeWake := true)
    {
      closeWake := true;
    }

    method IsClosedAndEmpty() returns (r: bool)
      ensures r == ClosedAndEmpty(Now())
    {
      r := closed && |finals| == 0 && partial == None;
    }

    method TakePriority() returns (m: Option<Message>)
      modifies this
      ensures (m, Now()) == NextPriority(old(Now()))
    {
      if |finals| == 0 {
        return None;
      }
      m := Some(finals[0]);
      finals := finals[1..];
    }

    method TakeWritablePartial() returns (m: Option<Message>)
      modifies this
      ensures (m, Now()) == NextWritablePartial(old(Now()))
    {
      if |finals| > 0 || partial == None {
        return None;
      }
      m := partial;
      partial := None;
    }
  }
}
