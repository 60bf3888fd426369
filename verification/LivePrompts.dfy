/**
 * The live-prompt event stream (internal/api/live_prompts.go): what a viewer
 * holds after replaying the events, and the wake-ups that drive the rereads.
 */
module LivePrompts {

  /** One row of a snapshot: its stream and template, its version, and all it shows. */
  datatype Key = Key(streamId: string, templateId: string)
  datatype Item = Item(key: Key, eventVersion: int, content: string)

  datatype Sse = Snapshot(items: seq<Item>) | Update(item: Item) | Ended(key: Key)

  /** The rows by key; of two rows with one key the later counts. */
  function Keyed(items: seq<Item>): map<Key, Item> {
    if items == [] then map[]
    else
      var last := items[|items| - 1];
      Keyed(items[..|items| - 1])[last.key := last]
  }

  lemma {:induction false} KeyedByKey(items: seq<Item>)
    ensures forall k :: k in Keyed(items) ==> Keyed(items)[k].key == k && Keyed(items)[k] in items
  {
    if items != [] {
      KeyedByKey(items[..|items| - 1]);
    }
  }

  // ----- the viewer

  function Show(client: map<Key, Item>, e: Sse): map<Key, Item> {
    match e
    case Snapshot(items) => Keyed(items)
    case Update(item) => client[item.key := item]
    case Ended(key) => client - {key}
  }

  /** What a viewer shows that has received these events. */
  function Replay(events: seq<Sse>): map<Key, Item> {
    if events == [] then map[] else Show(Replay(events[..|events| - 1]), events[|events| - 1])
  }

  lemma ReplaySnoc(events: seq<Sse>, e: Sse)
    ensures Replay(events + [e]) == Show(Replay(events), e)
  {
    assert (events + [e])[..|events|] == events;
  }

  /** Rows of one key and version are one row, whenever they were read. */
  ghost predicate VersionsIdentify(held: map<Key, Item>, read: map<Key, Item>) {
    forall k :: k in held && k in read && held[k].eventVersion == read[k].eventVersion ==> held[k] == read[k]
  }

  function Versions(rows: map<Key, Item>): map<Key, int> {
    map k | k in rows :: rows[k].eventVersion
  }

  /** An event that tells the viewer something it does not know. */
  ghost predicate Needed(sent: map<Key, int>, current: map<Key, Item>, e: Sse) {
    match e
    case Ended(key) => key in sent && key !in current
    case Update(item) => item.key !in sent || sent[item.key] != item.eventVersion
    case Snapshot(_) => false
  }

  /** When the cards that are gone have ended, the rest can be updated. */
  lemma WhatIsLeft(held: map<Key, Item>, sent: map<Key, int>, current: map<Key, Item>)
    requires sent == Versions(held) && VersionsIdentify(held, current)
    ensures var gone := sent.Keys - current.Keys;
            && |gone| <= |sent|
            && (held - gone).Keys <= current.Keys && VersionsIdentify(held - gone, current)
  {
    assert sent.Keys == (sent.Keys - current.Keys) + (sent.Keys * current.Keys);
  }

  lemma EndsNeeded(events: seq<Sse>, sent: map<Key, int>, current: map<Key, Item>)
    requires forall e :: e in events ==> e.Ended? && e.key in sent.Keys - current.Keys
    ensures forall e :: e in events ==> Needed(sent, current, e)
  {
  }

  lemma UpdatesNeeded(events: seq<Sse>, sent: map<Key, int>, left: map<Key, int>, current: map<Key, Item>)
    requires left == sent - (sent.Keys - current.Keys) && forall k :: k in current ==> current[k].key == k
    requires forall e :: e in events ==>
               e.Update? && e.item in current.Values
               && (e.item.key !in left || left[e.item.key] != e.item.eventVersion)
    ensures forall e :: e in events ==> Needed(sent, current, e)
  {
    forall e | e in events ensures Needed(sent, current, e) {
      assert e.item.key in current;
    }
  }

  /** Events that end what is gone, then events that update what is new or changed. */
  lemma NeededInTwoParts(before: seq<Sse>, between: seq<Sse>, after: seq<Sse>,
                         sent: map<Key, int>, current: map<Key, Item>)
    requires before <= between <= after
    requires forall e :: e in between[|before|..] ==> Needed(sent, current, e)
    requires forall e :: e in after[|between|..] ==> Needed(sent, current, e)
    ensures forall e :: e in after[|before|..] ==> Needed(sent, current, e)
  {
    assert after[|before|..] == between[|before|..] + after[|between|..];
  }

  /** The rows that are not left are shown, the others as before, and no event was idle. */
  ghost predicate Updating(sent: map<Key, int>, before: seq<Sse>, now: seq<Sse>,
                           current: map<Key, Item>, left: set<Key>)
  {
    var held, shown := Replay(before), Replay(now);
    && before <= now && shown.Keys <= current.Keys
    && (forall k :: k in current && k !in left ==> k in shown && shown[k] == current[k])
    && (forall k :: k in left ==> (k in shown <==> k in held) && (k in shown ==> shown[k] == held[k]))
    && (forall e :: e in now[|before|..] ==>
          e.Update? && e.item in current.Values
          && (e.item.key !in sent || sent[e.item.key] != e.item.eventVersion))
  }

  lemma UpdatingOn(sent: map<Key, int>, before: seq<Sse>, now: seq<Sse>, after: seq<Sse>,
                   current: map<Key, Item>, left: set<Key>, key: Key)
    requires Updating(sent, before, now, current, left) && key in left && key in current && current[key].key == key
    requires sent == Versions(Replay(before)) && VersionsIdentify(Replay(before), current)
    requires if key in sent && sent[key] == current[key].eventVersion then after == now
             else after == now + [Update(current[key])]
    ensures Updating(sent, before, after, current, left - {key})
  {
    ReplaySnoc(now, Update(current[key]));
    assert current[key] in current.Values;
    assert (now + [Update(current[key])])[|before|..] == now[|before|..] + [Update(current[key])];
  }

  /** The outcome of reading the note's snapshot. */
  datatype Lookup = NotFound | Failed | Found(items: seq<Item>)

  class LiveNoteStream {
    var sent: map<Key, int>
    var written: seq<Sse>
    /** How many more writes the connection will carry before it breaks. */
    var capacity: nat

    /** The versions remembered as sent are those the viewer holds. */
    ghost predicate InStep()
      reads this
    {
      sent == Versions(Replay(written))
    }

    constructor (connection: nat)
      ensures sent == map[] && written == [] && capacity == connection && InStep()
    {
      sent, written, capacity := map[], [], connection;
    }

    method WriteSse(e: Sse) returns (ok: bool)
      modifies `written, `capacity
      ensures ok <==> old(capacity) > 0
      ensures ok ==> written == old(written) + [e] && capacity == old(capacity) - 1
      ensures ok ==> Replay(written) == Show(Replay(old(written)), e)
      ensures !ok ==> written == old(written) && capacity == old(capacity)
    {
      if capacity == 0 {
        return false;
      }
      ReplaySnoc(written, e);
      written := written + [e];
      capacity := capacity - 1;
      return true;
    }

    /** The first event: the whole snapshot. */
    method SendSnapshot(items: seq<Item>) returns (ok: bool)
      modifies this
      ensures ok <==> old(capacity) > 0
      ensures ok ==> InStep() && Replay(written) == Keyed(items) && capacity == old(capacity) - 1
    {
      sent := SentVersions(items);
      ok := WriteSse(Snapshot(items));
    }

    method SentVersions(items: seq<Item>) returns (versions: map<Key, int>)
      ensures versions == Versions(Keyed(items))
    {
      versions := map[];
      for i := 0 to |items|
        invariant versions == Versions(Keyed(items[..i]))
      {
        versions := versions[items[i].key := items[i].eventVersion];
        assert items[..i + 1][..i] == items[..i];
      }
      assert items[..|items|] == items;
    }

    /** Tells the viewer that each of these cards is gone. */
    method EndAll(gone: set<Key>) returns (ok: bool)
      requires InStep() && gone <= sent.Keys
      modifies this
      ensures old(written) <= written
      ensures old(capacity) >= |gone| ==> ok
      ensures ok ==> InStep() && Replay(written) == Replay(old(written)) - gone
      ensures ok ==> capacity == old(capacity) - |gone| && sent == old(sent) - gone
      ensures ok ==> forall e :: e in written[|old(written)|..] ==> e.Ended? && e.key in gone
    {
      var left := gone;
      while left != {}
        invariant left <= gone && InStep() && old(written) <= written
        invariant left <= sent.Keys && sent == old(sent) - (gone - left)
        invariant capacity == old(capacity) - (|gone| - |left|)
        invariant Replay(written) == Replay(old(written)) - (gone - left)
        invariant forall e :: e in written[|old(written)|..] ==> e.Ended? && e.key in gone
        decreases left
      {
        var key :| key in left;
        ok := WriteSse(Ended(key));
        if !ok {
          return;
        }
        sent := sent - {key};
        left := left - {key};
      }
      return true;
    }

    /** Sends a row if the viewer lacks it or holds another version of it. */
    method UpdateOne(key: Key, row: Item) returns (ok: bool)
      requires row.key == key
      modifies `written, `capacity
      ensures ok || old(capacity) == 0
      ensures capacity >= old(capacity) - 1
      ensures !ok ==> written == old(written)
      ensures ok && key in sent && sent[key] == row.eventVersion ==> written == old(written)
      ensures ok && !(key in sent && sent[key] == row.eventVersion) ==>
                written == old(written) + [Update(row)] && Replay(written) == Replay(old(written))[key := row]
    {
      if key in sent && sent[key] == row.eventVersion {
        return true;
      }
      ok := WriteSse(Update(row));
    }

    /** Sends the rows that the viewer lacks or holds in another version. */
    method UpdateAll(current: map<Key, Item>) returns (ok: bool)
      requires InStep() && Replay(written).Keys <= current.Keys
      requires VersionsIdentify(Replay(written), current)
      requires forall k :: k in current ==> current[k].key == k
      modifies `written, `capacity
      ensures old(written) <= written
      ensures old(capacity) >= |current| ==> ok
      ensures ok ==> Replay(written) == current && capacity >= old(capacity) - |current|
      ensures ok ==> forall e :: e in written[|old(written)|..] ==>
                e.Update? && e.item in current.Values
                && (e.item.key !in old(sent) || old(sent)[e.item.key] != e.item.eventVersion)
    {
      var left := current.Keys;
      while left != {}
        invariant left <= current.Keys && Updating(sent, old(written), written, current, left)
        invariant capacity >= old(capacity) - (|current.Keys| - |left|)
        decreases left
      {
        var key :| key in left;
        ghost var between := written;
        ok := UpdateOne(key, current[key]);
        if !ok {
          return;
        }
        UpdatingOn(sent, old(written), between, written, current, left, key);
        left := left - {key};
      }
      assert Replay(written).Keys == current.Keys;
      return true;
    }

    /**
     * One reread. When it succeeds the viewer holds exactly the snapshot, and was
     * sent only what had changed; when the note is gone it holds nothing.
     */
    method Reread(lookup: Lookup) returns (ok: bool)
      requires InStep()
      requires lookup.Found? ==> VersionsIdentify(Replay(written), Keyed(lookup.items))
      modifies this
      ensures old(written) <= written
      ensures lookup.Found? && old(capacity) >= |old(sent)| + |Keyed(lookup.items)| ==> ok
      ensures ok ==> lookup.Found? && InStep() && Replay(written) == Keyed(lookup.items)
      ensures ok ==> capacity >= old(capacity) - |old(sent)| - |Keyed(lookup.items)|
      ensures ok ==> forall e :: e in written[|old(written)|..] ==> Needed(old(sent), Keyed(lookup.items), e)
      ensures lookup.NotFound? && old(capacity) >= |old(sent)| ==> Replay(written) == map[]
      ensures lookup.Failed? ==> written == old(written)
    {
      match lookup
      case Failed => return false;
      case NotFound =>
        EndsEverything();
        return false;
      case Found(items) =>
        ok := ShowRows(Keyed(items), items);
    }

    /** The events that take the viewer from what it holds to the rows just read. */
    method ShowRows(current: map<Key, Item>, ghost items: seq<Item>) returns (ok: bool)
      requires InStep() && current == Keyed(items)
      requires VersionsIdentify(Replay(written), current)
      modifies this
      ensures old(written) <= written
      ensures old(capacity) >= |old(sent)| + |current| ==> ok
      ensures ok ==> InStep() && Replay(written) == current
      ensures ok ==> capacity >= old(capacity) - |old(sent)| - |current|
      ensures ok ==> forall e :: e in written[|old(written)|..] ==> Needed(old(sent), current, e)
    {
      KeyedByKey(items);
      WhatIsLeft(Replay(written), sent, current);
      ok := EndAll(sent.Keys - current.Keys);
      if !ok {
        return;
      }
      ghost var between, left := written, sent;
      ok := UpdateAll(current);
      if !ok {
        return;
      }
      EndsNeeded(between[|old(written)|..], old(sent), current);
      UpdatesNeeded(written[|between|..], old(sent), left, current);
      NeededInTwoParts(old(written), between, written, old(sent), current);
      sent := map k | k in current :: current[k].eventVersion;
    }

    /** On a connection that carries them, the ended events empty the viewer. */
    method EndsEverything()
      requires InStep()
      modifies this
      ensures old(written) <= written
      ensures old(capacity) >= |old(sent)| ==> Replay(written) == map[]
    {
      var left := sent.Keys;
      while left != {}
        invariant left == sent.Keys && InStep() && old(written) <= written
        invariant old(capacity) >= |old(sent)| ==> capacity >= |left|
        decreases left
      {
        var key :| key in left;
        var ok := WriteSse(Ended(key));
        if !ok {
          return;
        }
        sent := sent - {key};
        left := left - {key};
      }
      assert Replay(written).Keys == {};
    }

    /**
     * The handler's loop, for any number of wake-ups and heartbeats. marks[n] is the
     * length of the stream when read n was through: there the viewer held exactly what
     * that read had found. The loop ends early only at a read or write that failed.
     */
    method Serve(first: seq<Item>, lookups: seq<Lookup>) returns (ok: bool, marks: seq<nat>)
      requires SnapshotsAgree(first, lookups)
      modifies this
      ensures ShownAt(written, first, lookups, marks)
      ensures |marks| <= |lookups| + 1
      ensures AllFound(lookups) && old(capacity) >= Traffic(first, lookups, |lookups|) ==> ok
      ensures ok ==> |marks| == |lookups| + 1 && Replay(written) == Keyed(ReadAt(first, lookups, |lookups|))
    {
      marks := [];
      TrafficGrows(first, lookups, 0, |lookups|);
      ok := SendSnapshot(first);
      if !ok {
        return;
      }
      EndShows(written, first, lookups, 0);
      MarkEnd(written, first, lookups, []);
      marks := [|written|];
      while ok && |marks| <= |lookups|
        invariant 1 <= |marks| <= |lookups| + 1 && ShownAt(written, first, lookups, marks)
        invariant ok ==> InStep() && Replay(written) == Keyed(ReadAt(first, lookups, |marks| - 1))
        invariant ok ==> capacity + Traffic(first, lookups, |marks| - 1) >= old(capacity)
        invariant AllFound(lookups) && old(capacity) >= Traffic(first, lookups, |lookups|) ==> ok
        decreases |lookups| + 1 - |marks|, ok
      {
        TrafficGrows(first, lookups, |marks|, |lookups|);
        ok, marks := ServeOne(first, lookups, marks, old(capacity));
      }
    }

    /** One more read: its rows are shown, and marked, when it succeeds. */
    method ServeOne(first: seq<Item>, lookups: seq<Lookup>, shown: seq<nat>, ghost budget: nat)
      returns (ok: bool, marks: seq<nat>)
      requires SnapshotsAgree(first, lookups) && 1 <= |shown| <= |lookups| && ShownAt(written, first, lookups, shown)
      requires InStep() && Replay(written) == Keyed(ReadAt(first, lookups, |shown| - 1))
      requires capacity + Traffic(first, lookups, |shown| - 1) >= budget
      modifies this
      ensures |marks| == |shown| + (if ok then 1 else 0) && ShownAt(written, first, lookups, marks)
      ensures ok ==> InStep() && Replay(written) == Keyed(ReadAt(first, lookups, |marks| - 1))
      ensures ok ==> capacity + Traffic(first, lookups, |marks| - 1) >= budget
      ensures lookups[|shown| - 1].Found? && budget >= Traffic(first, lookups, |shown|) ==> ok
    {
      ghost var before := written;
      SameSize(Replay(written));
      ok := Reread(lookups[|shown| - 1]);
      MarksStay(before, written, first, lookups, shown);
      marks := shown;
      if ok {
        EndShows(written, first, lookups, |shown|);
        MarkEnd(written, first, lookups, shown);
        marks := shown + [|written|];
      }
    }
  }

  ghost predicate AllFound(lookups: seq<Lookup>) {
    forall k :: 0 <= k < |lookups| ==> lookups[k].Found?
  }

  /** More events than the first snapshot and n rereads can need. */
  function Traffic(first: seq<Item>, lookups: seq<Lookup>, n: nat): nat
    requires n <= |lookups|
  {
    if n == 0 then 1
    else
      Traffic(first, lookups, n - 1)
      + |Keyed(ReadAt(first, lookups, n - 1))| + |Keyed(ReadAt(first, lookups, n))|
  }

  lemma {:induction false} TrafficGrows(first: seq<Item>, lookups: seq<Lookup>, m: nat, n: nat)
    requires m <= n <= |lookups|
    ensures Traffic(first, lookups, m) <= Traffic(first, lookups, n)
    decreases n
  {
    if m < n {
      TrafficGrows(first, lookups, m, n - 1);
    }
  }

  lemma SameSize(rows: map<Key, Item>)
    ensures |Versions(rows)| == |rows|
  {
    assert Versions(rows).Keys == rows.Keys;
  }

  /** After `mark` events the viewer held what read n had found. */
  ghost predicate Shows(written: seq<Sse>, first: seq<Item>, lookups: seq<Lookup>, mark: nat, n: nat) {
    && n <= |lookups| && mark <= |written| && (n > 0 ==> lookups[n - 1].Found?)
    && Replay(written[..mark]) == Keyed(ReadAt(first, lookups, n))
  }

  /** At each mark the viewer held what the read with that number had found. */
  ghost predicate ShownAt(written: seq<Sse>, first: seq<Item>, lookups: seq<Lookup>, marks: seq<nat>) {
    forall n: nat :: n < |marks| ==> Shows(written, first, lookups, marks[n], n)
  }

  /** Old marks stay right as the stream grows. */
  lemma MarksStay(before: seq<Sse>, written: seq<Sse>, first: seq<Item>, lookups: seq<Lookup>, marks: seq<nat>)
    requires before <= written && ShownAt(before, first, lookups, marks)
    ensures ShownAt(written, first, lookups, marks)
  {
    forall n: nat | n < |marks|
      ensures Shows(written, first, lookups, marks[n], n)
    {
      assert Shows(before, first, lookups, marks[n], n);
      assert written[..marks[n]] == before[..marks[n]];
    }
  }

  /** The end of the stream can be marked when the viewer holds the newest read. */
  lemma EndShows(written: seq<Sse>, first: seq<Item>, lookups: seq<Lookup>, n: nat)
    requires n <= |lookups| && (n > 0 ==> lookups[n - 1].Found?)
    requires Replay(written) == Keyed(ReadAt(first, lookups, n))
    ensures Shows(written, first, lookups, |written|, n)
  {
    assert written[..|written|] == written;
  }

  lemma MarkEnd(written: seq<Sse>, first: seq<Item>, lookups: seq<Lookup>, marks: seq<nat>)
    requires ShownAt(written, first, lookups, marks)
    requires Shows(written, first, lookups, |written|, |marks|)
    ensures ShownAt(written, first, lookups, marks + [|written|])
  {
    forall n: nat | n < |marks| + 1
      ensures Shows(written, first, lookups, (marks + [|written|])[n], n)
    {
      if n < |marks| {
        assert Shows(written, first, lookups, marks[n], n);
      }
    }
  }

  /** What read n found: the first snapshot, then the rereads. */
  function ReadAt(first: seq<Item>, lookups: seq<Lookup>, n: nat): seq<Item>
    requires n <= |lookups|
  {
    if n > 0 && lookups[n - 1].Found? then lookups[n - 1].items else first
  }

  /** The store changes a row's version whenever it changes the row. */
  ghost predicate SnapshotsAgree(first: seq<Item>, lookups: seq<Lookup>) {
    forall n :: 0 <= n < |lookups| && lookups[n].Found? ==>
      VersionsIdentify(Keyed(ReadAt(first, lookups, n)), Keyed(lookups[n].items))
  }
}
