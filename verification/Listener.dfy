/**
 * The opt-in LAN listener and its watchers (internal/api/listener_controller.go).
 * Enable may bind the same address again while a watcher of an earlier
 * generation is still on its way to tearing its own listener down.
 */
module Listener {
  import opened Options

  type Pair = nat
  type Generation = nat

  /** A watcher polls, notices that its pair is gone, takes the mutex, and closes its channel. */
  datatype Phase = Watching | SawGone | MustClose | Exited

  datatype Watcher = Watcher(bound: Pair, cancelled: bool, phase: Phase)

  /**
   * The guarded fields; generation g owns channel g and watchers[g]. `closes[g]`
   * counts how often channel g was closed.
   */
  datatype State = State(
    pair: Option<Pair>,
    channel: Option<Generation>,
    unusable: bool,
    watchers: seq<Watcher>,
    closes: seq<nat>)

  const INITIAL := State(None, None, false, [], [])

  // ----- the critical sections

  function DisableLocked(s: State): State {
    s.(pair := None,
       channel := None,
       watchers := if s.channel.Some? && s.channel.value < |s.watchers|
                   then s.watchers[s.channel.value := s.watchers[s.channel.value].(cancelled := true)]
                   else s.watchers)
  }

  /** Whatever ran before is closed first; the bind may then fail. */
  function Enable(s: State, pair: Pair, binds: bool): State {
    var off := DisableLocked(s);
    if !binds then off
    else off.(pair := Some(pair),
              channel := Some(|s.watchers|),
              unusable := false,
              watchers := off.watchers + [Watcher(pair, false, Watching)],
              closes := s.closes + [0])
  }

  function Disable(s: State): State {
    DisableLocked(s).(unusable := false)
  }

  /** The watcher acts only on the generation whose channel it owns. */
  function TearDown(s: State, g: Generation): State
    requires g < |s.watchers|
  {
    if s.pair == Some(s.watchers[g].bound) && s.channel == Some(g)
    then DisableLocked(s).(unusable := true)
    else s
  }

  function Status(s: State): (bool, bool, Option<Pair>) {
    if s.pair.None? then (false, s.unusable, None) else (true, false, s.pair)
  }

  class ListenerController {
    var pair: Option<Pair>
    var channel: Option<Generation>
    var unusable: bool

    // The goroutines and channels that the controller has created.
    var watchers: seq<Watcher>
    var closes: seq<nat>

    ghost function Now(): State
      reads this
    {
      State(pair, channel, unusable, watchers, closes)
    }

    constructor ()
      ensures Now() == INITIAL
    {
      pair, channel, unusable := None, None, false;
      watchers, closes := [], [];
    }

    method DisableHeld()
      modifies this
      ensures Now() == DisableLocked(old(Now()))
    {
      if channel.Some? && channel.value < |watchers| {
        watchers := watchers[channel.value := watchers[channel.value].(cancelled := true)];
      }
      pair := None;
      channel := None;
    }

    method EnableOn(p: Pair, binds: bool) returns (ok: bool)
      modifies this
      ensures Now() == Enable(old(Now()), p, binds) && ok == binds
    {
      DisableHeld();
      if !binds {
        return false;
      }
      channel := Some(|watchers|);
      pair := Some(p);
      unusable := false;
      watchers := watchers + [Watcher(p, false, Watching)];
      closes := closes + [0];
      return true;
    }

    method TurnOff()
      modifies this
      ensures Now() == Disable(old(Now()))
    {
      DisableHeld();
      unusable := false;
    }

    method TearDownBy(g: Generation)
      requires g < |watchers|
      modifies this
      ensures Now() == TearDown(old(Now()), g)
    {
      if pair == Some(watchers[g].bound) && channel == Some(g) {
        DisableHeld();
        unusable := true;
      }
    }

    method ReadStatus() returns (enabled: bool, down: bool, bound: Option<Pair>)
      ensures (enabled, down, bound) == Status(Now())
    {
      if pair == None {
        return false, unusable, None;
      }
      return true, false, pair;
    }
  }

  // ----- all interleavings

  datatype Event =
    | Enabled(pair: Pair, binds: bool)
    | Disabled
    | CancelSeen(g: Generation)
    | PairMissed(g: Generation)
    | MutexTaken(g: Generation)
    | ChannelClosed(g: Generation)

  function Move(s: State, g: Generation, phase: Phase): State
    requires g < |s.watchers|
  {
    s.(watchers := s.watchers[g := s.watchers[g].(phase := phase)])
  }

  function WatcherStep(s: State, e: Event): State
    requires !e.Enabled? && !e.Disabled?
  {
    if !(e.g < |s.watchers| && e.g < |s.closes|) then s
    else
      var w := s.watchers[e.g];
      match e
      case CancelSeen(g) => if w.phase.Watching? && w.cancelled then Move(s, g, Exited) else s
      case PairMissed(g) => if w.phase.Watching? then Move(s, g, SawGone) else s
      case MutexTaken(g) => if w.phase.SawGone? then Move(TearDown(s, g), g, MustClose) else s
      case ChannelClosed(g) =>
        if w.phase.MustClose? then Move(s, g, Exited).(closes := s.closes[g := s.closes[g] + 1]) else s
  }

  function Step(s: State, e: Event): State {
    if e.Enabled? then Enable(s, e.pair, e.binds)
    else if e.Disabled? then Disable(s)
    else WatcherStep(s, e)
  }

  function Run(events: seq<Event>): State {
    if events == [] then INITIAL else Step(Run(events[..|events| - 1]), events[|events| - 1])
  }

  /** A current generation is watched, bound to its own pair, and its channel is open. */
  ghost predicate Coherent(s: State) {
    && |s.closes| == |s.watchers|
    && (s.pair.Some? <==> s.channel.Some?)
    && (s.channel.Some? ==>
          && s.channel.value < |s.watchers|
          && var w := s.watchers[s.channel.value];
             w.bound == s.pair.value && !w.cancelled && (w.phase.Watching? || w.phase.SawGone?))
    && (s.unusable ==> s.pair.None?)
    && (forall g :: 0 <= g < |s.watchers| ==>
          s.closes[g] <= 1 && (s.closes[g] == 1 ==> s.watchers[g].phase.Exited?))
  }

  lemma StepCoherent(s: State, e: Event)
    requires Coherent(s)
    ensures Coherent(Step(s, e))
  {
    if e.MutexTaken? && e.g < |s.watchers| && s.watchers[e.g].phase.SawGone? {
      var after := Step(s, e);
      assert after.channel.Some? ==> after.channel.value != e.g;
    }
  }

  lemma {:induction false} RunCoherent(events: seq<Event>)
    ensures Coherent(Run(events))
  {
    if events != [] {
      RunCoherent(events[..|events| - 1]);
      StepCoherent(Run(events[..|events| - 1]), events[|events| - 1]);
    }
  }

  // ----- generations

  /** The current generation ends here: by a call, or by its own watcher that saw the pair go. */
  predicate Ends(s: State, e: Event, g: Generation) {
    e.Enabled? || e.Disabled? || (e == MutexTaken(g) && g < |s.watchers| && s.watchers[g].phase.SawGone?)
  }

  lemma RunSnoc(events: seq<Event>, e: Event)
    ensures Run(events + [e]) == Step(Run(events), e)
  {
    assert (events + [e])[..|events|] == events;
  }

  lemma StepKeepsGeneration(s: State, e: Event, g: Generation)
    requires Coherent(s) && s.channel == Some(g)
    ensures Ends(s, e, g) ==> Step(s, e).channel != Some(g)
    ensures !Ends(s, e, g) ==> Step(s, e).channel == Some(g) && Step(s, e).pair == s.pair
  {
  }

  /** Generations are numbered upwards: one that is over never becomes current again. */
  lemma StepKeepsPast(s: State, e: Event, g: Generation)
    requires Coherent(s) && g < |s.watchers| && s.channel != Some(g)
    ensures g < |Step(s, e).watchers| && Step(s, e).channel != Some(g)
  {
  }

  /** None of the steps that follow a run ends generation g. */
  ghost predicate NeverEnds(events: seq<Event>, more: seq<Event>, g: Generation) {
    more != [] ==>
      var front := more[..|more| - 1];
      NeverEnds(events, front, g) && !Ends(Run(events + front), more[|more| - 1], g)
  }

  lemma {:induction false} GenerationGoesOnIff(events: seq<Event>, more: seq<Event>, g: Generation)
    requires Run(events).channel == Some(g)
    ensures var after := Run(events + more);
            && g < |after.watchers|
            && (after.channel == Some(g) <==> NeverEnds(events, more, g))
            && (after.channel == Some(g) ==> after.pair == Run(events).pair)
  {
    if more == [] {
      RunCoherent(events);
      assert events + more == events;
    } else {
      var front, last := more[..|more| - 1], more[|more| - 1];
      GenerationGoesOnIff(events, front, g);
      assert events + front + [last] == events + more;
      RunSnoc(events + front, last);
      RunCoherent(events + front);
      RunCoherent(events + more);
      if Run(events + front).channel == Some(g) {
        StepKeepsGeneration(Run(events + front), last, g);
      } else {
        StepKeepsPast(Run(events + front), last, g);
      }
    }
  }

  /**
   * Whatever stale watchers do, and however many listeners on equal pairs came
   * before: a generation runs on, on its own pair and with its channel open, exactly
   * until a call ends it or its own watcher, having seen the pair go, takes the mutex.
   */
  lemma TearDownsAreOwn(events: seq<Event>, more: seq<Event>, g: Generation)
    requires Run(events).channel == Some(g)
    ensures Run(events + more).channel == Some(g) <==> NeverEnds(events, more, g)
    ensures NeverEnds(events, more, g) ==>
              var after := Run(events + more);
              Status(after) == (true, false, Run(events).pair) && g < |after.closes| && after.closes[g] == 0
  {
    GenerationGoesOnIff(events, more, g);
    RunCoherent(events);
    RunCoherent(events + more);
  }

  lemma {:induction false} OthersNeverEnd(events: seq<Event>, more: seq<Event>, g: Generation)
    requires forall e :: e in more ==> !e.Enabled? && !e.Disabled? && e != MutexTaken(g)
    ensures NeverEnds(events, more, g)
  {
    if more != [] {
      OthersNeverEnd(events, more[..|more| - 1], g);
    }
  }

  /** In particular the watchers of all other generations, with all their steps, leave it alone. */
  lemma StaleWatcherIsHarmless(events: seq<Event>, more: seq<Event>, g: Generation)
    requires Run(events).channel == Some(g)
    requires forall e :: e in more ==> !e.Enabled? && !e.Disabled? && e != MutexTaken(g)
    ensures Run(events + more).channel == Some(g) && Run(events + more).pair == Run(events).pair
  {
    OthersNeverEnd(events, more, g);
    GenerationGoesOnIff(events, more, g);
  }

  // ----- why the pair alone would not do

  /** The protocol with a watcher that compares pairs and not channels. */
  function PairOnlyStep(s: State, e: Event): State {
    if e.MutexTaken? && e.g < |s.watchers| && s.watchers[e.g].phase.SawGone? && s.pair == Some(s.watchers[e.g].bound)
    then Move(DisableLocked(s).(unusable := true), e.g, MustClose)
    else Step(s, e)
  }

  function PairOnlyRun(events: seq<Event>): State {
    if events == [] then INITIAL else PairOnlyStep(PairOnlyRun(events[..|events| - 1]), events[|events| - 1])
  }

  /** The pair goes, its watcher notices late, and by then the same pair has been enabled again. */
  function Reenabled(p: Pair): seq<Event> {
    [Enabled(p, true), PairMissed(0), Enabled(p, true), MutexTaken(0)]
  }

  /** There the stale watcher takes down generation 1, which the channel comparison protects. */
  lemma EqualPairsAreNotEnough(p: Pair)
    ensures PairOnlyRun(Reenabled(p)).channel == None && PairOnlyRun(Reenabled(p)).unusable
    ensures Run(Reenabled(p)).channel == Some(1) && Status(Run(Reenabled(p))) == (true, false, Some(p))
  {
    var events := Reenabled(p);
    assert events[..3][..2] == events[..2] && events[..2][..1] == events[..1] && events[..1][..0] == [];
    assert Run(events[..1]).channel == Some(0) && PairOnlyRun(events[..1]) == Run(events[..1]);
    assert Run(events[..2]).watchers == [Watcher(p, false, SawGone)] && PairOnlyRun(events[..2]) == Run(events[..2]);
    assert Run(events[..3]).channel == Some(1) && PairOnlyRun(events[..3]) == Run(events[..3]);
    assert Run(events[..3]).watchers[0].phase.SawGone?;
  }

  /** No channel is closed twice, and none while its generation is current. */
  lemma ChannelsCloseOnce(events: seq<Event>, g: Generation)
    requires g < |Run(events).closes|
    ensures Run(events).closes[g] <= 1
    ensures Run(events).channel == Some(g) ==> Run(events).closes[g] == 0
  {
    RunCoherent(events);
  }

  /** A listener is never both running and unusable, and only Disable or a successful Enable clears the mark. */
  lemma UnusableIsSticky(events: seq<Event>, e: Event)
    ensures Run(events).unusable ==> Run(events).pair.None? && Status(Run(events)) == (false, true, None)
    ensures Run(events).unusable && !Step(Run(events), e).unusable ==> e.Disabled? || (e.Enabled? && e.binds)
    ensures !Run(events).unusable && Step(Run(events), e).unusable ==>
              e.MutexTaken? && Run(events).channel == Some(e.g) && Step(Run(events), e).channel.None?
  {
    RunCoherent(events);
  }

  /**
   * Disable takes the listener down and clears the mark, and Enable does the same with
   * what ran before: that watcher is cancelled, and one that still watches can only
   * exit or find itself superseded.
   */
  lemma CallsEndTheGeneration(events: seq<Event>, e: Event)
    requires e.Enabled? || e.Disabled?
    ensures var before, after := Run(events), Run(events + [e]);
            && (e.Disabled? ==> Status(after) == (false, false, None) && after.channel.None?)
            && (e.Enabled? && !e.binds ==> Status(after) == (false, before.unusable, None) && after.channel.None?)
            && (e.Enabled? && e.binds ==>
                  && Status(after) == (true, false, Some(e.pair)) && after.channel == Some(|before.watchers|)
                  && after.watchers[..|before.watchers|] == CancelledAt(before.watchers, before.channel)
                  && |after.watchers| == |before.watchers| + 1
                  && after.watchers[|before.watchers|] == Watcher(e.pair, false, Watching))
            && (!(e.Enabled? && e.binds) ==> after.watchers == CancelledAt(before.watchers, before.channel))
  {
    RunCoherent(events);
    RunSnoc(events, e);
  }

  /** The watchers, with that of the current generation cancelled. */
  function CancelledAt(watchers: seq<Watcher>, channel: Option<Generation>): seq<Watcher> {
    match channel
    case None => watchers
    case Some(g) => if g < |watchers| then watchers[g := watchers[g].(cancelled := true)] else watchers
  }

  /** A watcher that is through with the mutex closes the channel of its generation, which is closed then for good. */
  lemma WatcherClosesItsChannel(events: seq<Event>, g: Generation)
    requires g < |Run(events).watchers| && Run(events).watchers[g].phase.MustClose?
    ensures var after := Run(events + [ChannelClosed(g)]);
            && g < |after.watchers| == |after.closes| && after.watchers[g].phase.Exited? && after.closes[g] == 1
            && after.channel == Run(events).channel
  {
    RunCoherent(events);
    NotClosedYet(events, g);
    RunSnoc(events, ChannelClosed(g));
  }

  lemma NotClosedYet(events: seq<Event>, g: Generation)
    requires g < |Run(events).watchers| && !Run(events).watchers[g].phase.Exited?
    ensures g < |Run(events).closes| && Run(events).closes[g] == 0
  {
    RunCoherent(events);
  }

  /** A cancelled watcher that has not noticed anything exits when it looks. */
  lemma CancelledExits(events: seq<Event>, g: Generation)
    requires g < |Run(events).watchers| && Run(events).watchers[g].cancelled && Run(events).watchers[g].phase.Watching?
    ensures var after := Run(events + [CancelSeen(g)]);
            g < |after.watchers| && after.watchers[g].phase.Exited? && Status(after) == Status(Run(events))
  {
    RunCoherent(events);
    RunSnoc(events, CancelSeen(g));
  }

  /** The watcher of the current generation that saw its pair go does take the listener down. */
  lemma OwnWatcherActs(events: seq<Event>, g: Generation)
    requires var s := Run(events); s.channel == Some(g) && g < |s.watchers| && s.watchers[g].phase.SawGone?
    ensures var after := Step(Run(events), MutexTaken(g));
            && Status(after) == (false, true, None) && after.channel.None?
            && |after.watchers| == |Run(events).watchers| && after.watchers[g].phase.MustClose?
  {
    RunCoherent(events);
  }
}
