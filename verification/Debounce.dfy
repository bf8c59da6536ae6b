/**
 The debouncing local watcher: events of the same kind on the same paths are delivered at most once
 per window, the rest is delivered late or given up in favour of a newer event or a rescan.

 A delivery holds the delivery lock from the decision to emit until the callback returns; the state
 lock covers each decision.  Every step below is one region under the state lock, or one callback.
 Timers may come late, come after they were cancelled, or never.
 */
module Debounce {
  import opened Wrappers
  import opened Journal
  import opened Reconcile
  import opened Trees

  datatype Mapped = Key(kind: Kind, path: Path, destination: Option<Path>)

  // Only moves have a destination.
  type Key = m: Mapped | m.destination.Some? ==> m.kind.Move? witness Key(Create, [], None)

  datatype DebounceState = DebounceState(lastEmitted: int, pending: bool, scheduled: bool, generation: nat)

  // What was accepted and what the callback was given, in order.
  datatype Item = Accepted(key: Key) | Emitted(key: Key) | Rescan

  // What the holder of the delivery lock is about to emit.
  datatype Due = Nothing | One(key: Key) | Everything

  // `issued` lists the keys timers were set for, by generation; `spent` are the generations that
  // fired or were cancelled.
  datatype World = World(
    states: map<Key, DebounceState>,
    generation: nat,
    accepting: bool,
    unhealthy: bool,
    terminal: bool,
    due: Due,
    flushing: seq<Key>,
    log: seq<Item>,
    issued: seq<Key>,
    spent: set<nat>)

  // ---------------------------------------------------------------- supersession

  function EventPaths(k: Key): set<Path> {
    if k.destination.None? then {k.path} else {k.path, k.destination.value}
  }

  predicate Removes(kind: Kind) {
    kind.Delete? || kind.Move?
  }

  predicate Supersedes(newer: Key, pending: Key) {
    && newer != pending
    && if Removes(pending.kind) then
         exists n | n in EventPaths(newer) :: exists p | p in EventPaths(pending) :: Within(n, p) || Within(p, n)
       else
         Removes(newer.kind) && exists n | n in EventPaths(newer) :: exists p | p in EventPaths(pending) :: Within(p, n)
  }

  // ---------------------------------------------------------------- what must happen

  predicate NamesPath(k: Key, p: Path) {
    p == k.path || k.destination == Some(p)
  }

  // The newer event may stand in for the older one: both name paths on one line, and a creation or
  // modification only gives way to a deletion or move of its path or of something above it.
  ghost predicate TakesPlace(newer: Key, older: Key) {
    && newer != older
    && exists n, p :: NamesPath(newer, n) && NamesPath(older, p)
                      && (if older.kind.Delete? || older.kind.Move? then n == p || Above(n, p) || Above(p, n)
                          else (newer.kind.Delete? || newer.kind.Move?) && (n == p || Above(n, p)))
  }

  lemma SupersedesIsTakesPlace(newer: Key, older: Key)
    ensures Supersedes(newer, older) <==> TakesPlace(newer, older)
  {
    forall k: Key, p ensures p in EventPaths(k) <==> NamesPath(k, p) {}
    if Supersedes(newer, older) {
      var n, p :| n in EventPaths(newer) && p in EventPaths(older)
                  && (Within(p, n) || (Removes(older.kind) && Within(n, p)));
      assert NamesPath(newer, n) && NamesPath(older, p);
    }
    if TakesPlace(newer, older) {
      var n, p :| NamesPath(newer, n) && NamesPath(older, p)
                  && (Within(p, n) || (Removes(older.kind) && Within(n, p)));
      assert n in EventPaths(newer) && p in EventPaths(older);
    }
  }

  // A creation or modification above what an older deletion or move names.  It may be superseded itself.
  ghost predicate Overhead(newer: Key, older: Key) {
    && !newer.kind.Delete? && !newer.kind.Move? && (older.kind.Delete? || older.kind.Move?)
    && exists p :: NamesPath(older, p) && Above(newer.path, p)
  }

  // Whatever takes the place of such a stand-in takes the place of the event it stands in for.
  lemma OverheadStandsIn(last: Key, newer: Key, older: Key)
    requires Overhead(newer, older)
    ensures TakesPlace(newer, older)
    ensures TakesPlace(last, newer) ==> last == older || TakesPlace(last, older)
  {
    var p :| NamesPath(older, p) && Above(newer.path, p);
    assert NamesPath(newer, newer.path);
    if TakesPlace(last, newer) {
      var n, q :| NamesPath(last, n) && NamesPath(newer, q) && Within(q, n);
      assert q == newer.path;
      if n != q {
        assert Within(q, n);
        AboveTransitive(n, q, p);
      }
      assert Above(n, p);
    }
  }

  ghost predicate EmittedFrom(log: seq<Item>, from: nat, k: Key) {
    exists e | from <= e < |log| :: log[e] == Emitted(k)
  }

  // Going to be emitted whatever is accepted meanwhile.
  function Sure(w: World): set<Key> {
    (set k | k in w.flushing) + (if w.due.One? then {w.due.key} else {})
  }

  ghost predicate Answers(newer: Key, older: Key) {
    newer == older || TakesPlace(newer, older)
  }

  // An event is dealt with, by what is owed or was emitted at `from` or later: a rescan, the event
  // itself, or one that takes its place.
  ghost predicate Answered(w: World, from: nat, k: Key) {
    || w.due.Everything?
    || k in Pending(w)
    || (exists e | from <= e < |w.log| :: w.log[e].Rescan?)
    || (exists j | j in Pending(w) :: Overhead(j, k))
    || (exists j: Key :: Answers(j, k) && (j in Sure(w) || EmittedFrom(w.log, from, j)))
  }

  ghost predicate AllAnswered(w: World) {
    forall a | 0 <= a < |w.log| && w.log[a].Accepted? :: Answered(w, a + 1, w.log[a].key)
  }

  // No two events in the table supersede each other: one of them would have gone.
  ghost predicate Unrivalled(states: map<Key, DebounceState>) {
    forall j, k | j in states && k in states :: !(Supersedes(j, k) && Supersedes(k, j))
  }

  // Accepted since it was last emitted.
  ghost predicate Fresh(log: seq<Item>, k: Key) {
    exists a | 0 <= a < |log| :: log[a] == Accepted(k) && forall e | a < e < |log| :: log[e] != Emitted(k)
  }

  // Every emission answers an event accepted since the previous emission of the same.
  ghost predicate AllCaused(log: seq<Item>) {
    forall e | 0 <= e < |log| && log[e].Emitted? :: Fresh(log[..e], log[e].key)
  }

  function Pending(w: World): set<Key> {
    set k | k in w.states && w.states[k].pending
  }

  function Owed(w: World): set<Key> {
    Pending(w) + Sure(w)
  }

  ghost predicate IssuedFor(w: World, generation: nat, k: Key) {
    1 <= generation <= |w.issued| && w.issued[generation - 1] == k && generation !in w.spent
  }

  // A timer is set exactly while an event is pending, under a generation of its own that has
  // neither fired nor been cancelled; nothing is owed twice.
  ghost predicate Tidy(w: World) {
    && |w.issued| == w.generation
    && (forall k | k in w.states :: w.states[k].pending == w.states[k].scheduled)
    && (forall k | k in w.states && w.states[k].pending :: IssuedFor(w, w.states[k].generation, k))
    && (forall g | g in w.spent :: g <= w.generation)
    && (!w.accepting ==> w.states == map[]) && (w.flushing != [] ==> !w.accepting)
    && Distinct(w.flushing)
    && (w.due.One? ==> w.due.key !in Pending(w) && w.due.key !in w.flushing)
  }

  ghost predicate Inv(w: World) {
    && Tidy(w)
    && Unrivalled(w.states) && AllAnswered(w)
    && (forall k | k in Owed(w) :: Fresh(w.log, k))
    && AllCaused(w.log)
  }

  const INITIAL := World(map[], 0, true, false, false, Nothing, [], [], [], {})

  // ---------------------------------------------------------------- steps

  function Timers(states: map<Key, DebounceState>, keys: set<Key>): set<nat> {
    set k | k in keys && k in states && states[k].scheduled :: states[k].generation
  }

  function SupersededBy(states: map<Key, DebounceState>, mapped: Key): set<Key> {
    set k | k in states && Supersedes(mapped, k)
  }

  const LIMIT := 1024

  function Prune(states: map<Key, DebounceState>, cutoff: int): map<Key, DebounceState> {
    if |states| <= LIMIT then states
    else map k | k in states && (states[k].pending || states[k].lastEmitted >= cutoff) :: states[k]
  }

  function Drop(w: World, keys: set<Key>): World {
    w.(states := w.states - keys, spent := w.spent + Timers(w.states, keys))
  }

  function EmitAtOnce(w: World, mapped: Key, now: int): World {
    w.(states := w.states[mapped := DebounceState(now, false, false, 0)],
       spent := w.spent + Timers(w.states, {mapped}), due := One(mapped))
  }

  function EmitLater(w: World, mapped: Key): World
    requires mapped in w.states
  {
    var state := w.states[mapped];
    if state.scheduled then w.(states := w.states[mapped := state.(pending := true)])
    else
      w.(states := w.states[mapped := DebounceState(state.lastEmitted, true, true, w.generation + 1)],
         generation := w.generation + 1, issued := w.issued + [mapped])
  }

  function Debounced(w: World, mapped: Key, now: int, window: nat): World {
    if mapped !in w.states || now - w.states[mapped].lastEmitted >= window then EmitAtOnce(w, mapped, now)
    else EmitLater(w, mapped)
  }

  // An event comes in.
  function Accept(w: World, mapped: Key, now: int, window: nat): World {
    if !w.accepting then w
    else
      var v := Debounced(Drop(w, SupersededBy(w.states, mapped)), mapped, now, window);
      v.(states := Prune(v.states, now - window), log := w.log + [Accepted(mapped)])
  }

  predicate Fires(w: World, mapped: Key, generation: nat) {
    && mapped in w.states && w.states[mapped].generation == generation && w.states[mapped].pending && w.accepting
  }

  // A timer goes off.
  function TrailingStep(w: World, mapped: Key, generation: nat, now: int): World {
    if !Fires(w, mapped, generation) then w
    else w.(states := w.states[mapped := DebounceState(now, false, false, generation)],
            spent := w.spent + {generation}, due := One(mapped))
  }

  // The callback returns.
  function Emit(w: World): World {
    match w.due
    case Nothing => w
    case One(k) => w.(log := w.log + [Emitted(k)], due := Nothing)
    case Everything => w.(log := w.log + [Rescan], due := Nothing)
  }

  // Gives up whatever is pending in favour of a rescan.
  function DiscardAll(w: World): World {
    w.(states := map[], spent := w.spent + Timers(w.states, w.states.Keys), due := Everything)
  }

  function UnhealthyStep(w: World, terminal: bool): World {
    var v := w.(terminal := w.terminal || terminal);
    if w.unhealthy then v else DiscardAll(v.(unhealthy := true))
  }

  function AuditStep(w: World, running: bool): World {
    if !running || w.terminal || w.unhealthy then w else DiscardAll(w)
  }

  function MarkHealthy(w: World): World {
    if w.terminal then w else w.(unhealthy := false)
  }

  // Stopping takes what is pending out of the table and emits it afterwards.
  ghost predicate Closes(w: World, v: World) {
    && Distinct(v.flushing)
    && w.flushing <= v.flushing && (forall k :: k in v.flushing[|w.flushing|..] <==> k in Pending(w))
    && v == w.(accepting := false, states := map[], spent := w.spent + Timers(w.states, w.states.Keys), flushing := v.flushing)
  }

  function FlushOne(w: World): World
    requires w.flushing != []
  {
    w.(log := w.log + [Emitted(w.flushing[0])], flushing := w.flushing[1..])
  }

  function Start(w: World): World {
    w.(accepting := true, unhealthy := false, terminal := false)
  }

  datatype Step =
    | Accepts(mapped: Key, now: int)
    | TimerFires(mapped: Key, timer: nat, now: int)
    | FindsUnhealthy(isTerminal: bool)
    | AuditIsDue(running: bool)
    | FlushesOne
    | Starts
    | CallbackReturns
    | FindsHealthy
    | Stops

  // Whatever emits in the end needs the delivery lock.
  ghost predicate Takes(w: World, v: World, step: Step, window: nat) {
    match step
    case Accepts(mapped, now) => w.due.Nothing? && v == Accept(w, mapped, now, window)
    case TimerFires(mapped, timer, now) => w.due.Nothing? && v == TrailingStep(w, mapped, timer, now)
    case FindsUnhealthy(isTerminal) => w.due.Nothing? && v == UnhealthyStep(w, isTerminal)
    case AuditIsDue(running) => w.due.Nothing? && v == AuditStep(w, running)
    case FlushesOne => w.due.Nothing? && w.flushing != [] && v == FlushOne(w)
    case Starts => w.flushing == [] && v == Start(w)
    case CallbackReturns => v == Emit(w)
    case FindsHealthy => v == MarkHealthy(w)
    case Stops => Closes(w, v)
  }

  ghost predicate Next(w: World, v: World, window: nat) {
    exists step :: Takes(w, v, step, window)
  }

  // ---------------------------------------------------------------- nothing is dropped

  // A step stops owing nothing without an answer, and whatever is sure is emitted.
  ghost predicate Honest(w: World, v: World) {
    && w.log <= v.log
    && (forall k | k in Pending(w) :: Answered(v, |w.log|, k))
    && (forall k | k in Sure(w) :: v.due.Everything? || k in Sure(v) || EmittedFrom(v.log, |w.log|, k))
    && (w.due.Everything? ==> v.due.Everything? || exists e | |w.log| <= e < |v.log| :: v.log[e].Rescan?)
    && (forall e | |w.log| <= e < |v.log| && v.log[e].Accepted? :: v.log[e].key in Owed(v))
  }

  lemma EmittedEarlier(log: seq<Item>, more: seq<Item>, from: nat, later: nat, k: Key)
    requires log <= more && from <= later
    requires EmittedFrom(log, from, k) || EmittedFrom(more, later, k)
    ensures EmittedFrom(more, from, k)
  {
    if EmittedFrom(log, from, k) {
      var e :| from <= e < |log| && log[e] == Emitted(k);
      assert more[e] == log[e];
    }
  }

  lemma AnsweredEarlier(w: World, from: nat, later: nat, k: Key)
    requires from <= later && Answered(w, later, k)
    ensures Answered(w, from, k)
  {
    if j: Key :| Answers(j, k) && (j in Sure(w) || EmittedFrom(w.log, later, j)) {
      if EmittedFrom(w.log, later, j) { EmittedEarlier(w.log, w.log, from, later, j); }
    }
  }

  // A stand-in from above may go as well, but not without an answer to what it stands in for.
  lemma StandInAnswered(v: World, from: nat, j: Key, k: Key)
    requires Overhead(j, k) && Answered(v, from, j)
    ensures Answered(v, from, k)
  {
    OverheadStandsIn(j, j, k);
    if m: Key :| Answers(m, j) && (m in Sure(v) || EmittedFrom(v.log, from, m)) {
      OverheadStandsIn(m, j, k);
      assert Answers(m, k);
    }
  }

  lemma Carry(w: World, v: World, from: nat, k: Key)
    requires Honest(w, v) && from <= |w.log| && Answered(w, from, k)
    ensures Answered(v, from, k)
  {
    if w.due.Everything? {
    } else if k in Pending(w) {
      AnsweredEarlier(v, from, |w.log|, k);
    } else if e :| from <= e < |w.log| && w.log[e].Rescan? {
      assert v.log[e] == w.log[e];
    } else if j :| j in Pending(w) && Overhead(j, k) {
      AnsweredEarlier(v, from, |w.log|, j);
      StandInAnswered(v, from, j, k);
    } else {
      var j: Key :| Answers(j, k) && (j in Sure(w) || EmittedFrom(w.log, from, j));
      if EmittedFrom(w.log, from, j) || EmittedFrom(v.log, |w.log|, j) {
        EmittedEarlier(w.log, v.log, from, |w.log|, j);
      }
    }
  }

  lemma HonestKeepsAnswered(w: World, v: World)
    requires Honest(w, v) && AllAnswered(w)
    ensures AllAnswered(v)
  {
    forall a | 0 <= a < |v.log| && v.log[a].Accepted?
      ensures Answered(v, a + 1, v.log[a].key)
    {
      var from, k := a + 1, v.log[a].key;
      if a < |w.log| {
        assert v.log[a] == w.log[a];
        assert Answered(w, from, k);
        Carry(w, v, from, k);
      } else {
        assert Answers(k, k);
      }
    }
  }

  // ---------------------------------------------------------------- nothing is emitted twice

  lemma FreshAfter(log: seq<Item>, more: seq<Item>, k: Key)
    requires Fresh(log, k) && Emitted(k) !in more
    ensures Fresh(log + more, k)
  {
    var a :| 0 <= a < |log| && log[a] == Accepted(k) && forall e | a < e < |log| :: log[e] != Emitted(k);
    assert (log + more)[a] == Accepted(k);
    forall e | a < e < |log + more|
      ensures (log + more)[e] != Emitted(k)
    {
      if e >= |log| { assert (log + more)[e] in more; }
    }
  }

  lemma FreshAccepted(log: seq<Item>, k: Key)
    ensures Fresh(log + [Accepted(k)], k)
  {
    assert (log + [Accepted(k)])[|log|] == Accepted(k);
  }

  lemma CausedAfter(log: seq<Item>, item: Item)
    requires AllCaused(log) && (item.Emitted? ==> Fresh(log, item.key))
    ensures AllCaused(log + [item])
  {
    var after := log + [item];
    forall e | 0 <= e < |after| && after[e].Emitted?
      ensures Fresh(after[..e], after[e].key)
    {
      assert e < |log| ==> after[..e] == log[..e];
      assert after[..|log|] == log;
    }
  }

  // ---------------------------------------------------------------- the steps keep the invariant

  lemma PruneKeepsPending(states: map<Key, DebounceState>, cutoff: int)
    ensures var r := Prune(states, cutoff);
            && (forall k :: k in r ==> k in states && r[k] == states[k])
            && (forall k | k in states && states[k].pending :: k in r)
  {
  }

  lemma PruneIsTidy(w: World, v: World, cutoff: int, log: seq<Item>)
    requires Tidy(w) && v == w.(states := Prune(w.states, cutoff), log := log)
    ensures Tidy(v) && Pending(v) == Pending(w) && Owed(v) == Owed(w)
  {
    PruneKeepsPending(w.states, cutoff);
    assert Pending(v) == Pending(w);
  }

  lemma DropIsTidy(w: World, keys: set<Key>)
    requires Tidy(w)
    ensures Tidy(Drop(w, keys)) && Pending(Drop(w, keys)) == Pending(w) - keys
  {
    assert Pending(Drop(w, keys)) == Pending(w) - keys;
  }

  lemma EmitAtOnceIsTidy(w: World, mapped: Key, now: int)
    requires Tidy(w) && w.due.Nothing? && w.accepting
    ensures var v := EmitAtOnce(w, mapped, now); Tidy(v) && Pending(v) == Pending(w) - {mapped}
  {
    assert Pending(EmitAtOnce(w, mapped, now)) == Pending(w) - {mapped};
  }

  lemma EmitLaterIsTidy(w: World, mapped: Key)
    requires Tidy(w) && w.due.Nothing? && w.accepting && mapped in w.states
    ensures var v := EmitLater(w, mapped); Tidy(v) && Pending(v) == Pending(w) + {mapped}
  {
    var v := EmitLater(w, mapped);
    assert Pending(v) == Pending(w) + {mapped};
    if w.states[mapped].scheduled { assert v.states == w.states; }
  }

  lemma DebouncedIsTidy(w: World, mapped: Key, now: int, window: nat)
    requires Tidy(w) && w.due.Nothing? && w.accepting
    ensures var v := Debounced(w, mapped, now, window);
            && Tidy(v) && v.flushing == [] && v.accepting && !v.due.Everything?
            && Owed(v) == Pending(w) + {mapped}
            && (v.due.One? <==> mapped !in w.states || now - w.states[mapped].lastEmitted >= window)
            && (v.due.One? ==> v.due.key == mapped) && v.states.Keys == w.states.Keys + {mapped}
  {
    if mapped !in w.states || now - w.states[mapped].lastEmitted >= window {
      EmitAtOnceIsTidy(w, mapped, now);
    } else {
      EmitLaterIsTidy(w, mapped);
    }
  }

  lemma SupersededAre(states: map<Key, DebounceState>, mapped: Key)
    ensures forall k :: k in SupersededBy(states, mapped) <==> k in states && TakesPlace(mapped, k)
    ensures mapped !in SupersededBy(states, mapped)
  {
    forall k | k in states { SupersedesIsTakesPlace(mapped, k); }
  }

  // Of two events of which one supersedes the other but not the other way round.
  lemma OneWayIsOverhead(newer: Key, older: Key)
    requires Supersedes(newer, older) && !Supersedes(older, newer)
    ensures Overhead(newer, older)
  {
    var n, p :| n in EventPaths(newer) && p in EventPaths(older)
                && (Within(p, n) || (Removes(older.kind) && Within(n, p)));
    assert NamesPath(older, p);
  }

  // What accepting an event does to what is owed: it leaves the event itself owed, stops owing what
  // the event takes the place of, and nothing else.
  ghost predicate TakesIn(w: World, v: World, mapped: Key, now: int, window: nat) {
    && v.log == w.log + [Accepted(mapped)] && v.flushing == w.flushing && v.accepting
    && (forall k :: k in Owed(v) <==> k == mapped || (k in Pending(w) && !TakesPlace(mapped, k)))
    && (v.due.One? <==> mapped !in w.states || now - w.states[mapped].lastEmitted >= window)
    && (if v.due.One? then v.due.key == mapped else v.due.Nothing?)
    && (forall k | k in v.states :: k == mapped || (k in w.states && !Supersedes(mapped, k)))
  }

  lemma AcceptIsTidy(w: World, v: World, mapped: Key, now: int, window: nat)
    requires Tidy(w) && w.due.Nothing? && w.accepting && v == Accept(w, mapped, now, window)
    ensures Tidy(v) && TakesIn(w, v, mapped, now, window)
  {
    hide Tidy, Supersedes, TakesPlace, Prune, Pending, Owed, Debounced, SupersededBy;
    var superseded := SupersededBy(w.states, mapped);
    var d := Drop(w, superseded);
    var u := Debounced(d, mapped, now, window);
    SupersededAre(w.states, mapped);
    DropIsTidy(w, superseded);
    DebouncedIsTidy(d, mapped, now, window);
    PruneKeepsPending(u.states, now - window);
    PruneIsTidy(u, v, now - window, w.log + [Accepted(mapped)]);
    forall k | k in v.states && k != mapped
      ensures k in w.states && !Supersedes(mapped, k)
    {
      assert k in d.states;
      SupersedesIsTakesPlace(mapped, k);
    }
    OwedIsPending(w, v, mapped, superseded);
  }

  lemma OwedIsPending(w: World, v: World, mapped: Key, superseded: set<Key>)
    requires Owed(v) == Pending(w) - superseded + {mapped}
    requires forall k :: k in superseded <==> k in w.states && TakesPlace(mapped, k)
    ensures forall k :: k in Owed(v) <==> k == mapped || (k in Pending(w) && !TakesPlace(mapped, k))
  {
    hide TakesPlace, Owed;
  }

  lemma AcceptIsHonest(w: World, v: World, mapped: Key, now: int, window: nat)
    requires TakesIn(w, v, mapped, now, window) && w.due.Nothing? && w.flushing == [] && Unrivalled(w.states)
    ensures Honest(w, v)
  {
    assert v.log[|w.log|] == Accepted(mapped);
    forall k | k in Pending(w)
      ensures Answered(v, |w.log|, k)
    {
      SupersedesIsTakesPlace(mapped, k);
      if k in Sure(v) {
        assert Answers(k, k);
      } else if k !in Owed(v) {
        if mapped in w.states {
          OneWayIsOverhead(mapped, k);
        }
        assert Answers(mapped, k);
      }
    }
  }

  lemma StaysUnrivalled(w: World, v: World, mapped: Key, now: int, window: nat)
    requires TakesIn(w, v, mapped, now, window) && Unrivalled(w.states)
    ensures Unrivalled(v.states)
  {
  }

  lemma AcceptKeepsLog(w: World, v: World, mapped: Key, now: int, window: nat)
    requires AllAnswered(w) && AllCaused(w.log) && forall k | k in Owed(w) :: Fresh(w.log, k)
    requires TakesIn(w, v, mapped, now, window) && w.due.Nothing? && w.flushing == [] && Unrivalled(w.states)
    ensures AllAnswered(v) && AllCaused(v.log) && forall k | k in Owed(v) :: Fresh(v.log, k)
  {
    AcceptIsHonest(w, v, mapped, now, window);
    HonestKeepsAnswered(w, v);
    forall k | k in Owed(v)
      ensures Fresh(v.log, k)
    {
      if k == mapped { FreshAccepted(w.log, k); } else { FreshAfter(w.log, [Accepted(mapped)], k); }
    }
    CausedAfter(w.log, Accepted(mapped));
  }

  lemma AcceptKeepsInv(w: World, v: World, mapped: Key, now: int, window: nat)
    requires Inv(w) && w.due.Nothing? && v == Accept(w, mapped, now, window)
    ensures Inv(v)
  {
    if w.accepting {
      AcceptIsTidy(w, v, mapped, now, window);
      AcceptKeepsLog(w, v, mapped, now, window);
      StaysUnrivalled(w, v, mapped, now, window);
    }
  }

  lemma EmitTrailingKeepsInv(w: World, mapped: Key, generation: nat, now: int)
    requires Inv(w) && w.due.Nothing?
    ensures Inv(TrailingStep(w, mapped, generation, now))
  {
    hide Supersedes, TakesPlace, Overhead, Answered, AllCaused, Fresh;
    var v := TrailingStep(w, mapped, generation, now);
    if Fires(w, mapped, generation) {
      assert mapped in Pending(w) && Pending(v) == Pending(w) - {mapped};
      assert Sure(v) == Sure(w) + {mapped};
      TimerIsHonest(w, v, mapped);
      HonestKeepsAnswered(w, v);
    }
  }

  lemma TimerIsHonest(w: World, v: World, mapped: Key)
    requires v.log == w.log && w.due.Nothing? && Pending(v) == Pending(w) - {mapped} && Sure(v) == Sure(w) + {mapped}
    ensures Honest(w, v)
  {
    assert Answers(mapped, mapped);
  }

  // One more callback: what it was given is no longer owed.
  lemma CallbackKeepsLog(w: World, v: World, item: Item)
    requires AllAnswered(w) && AllCaused(w.log) && forall k | k in Owed(w) :: Fresh(w.log, k)
    requires v.log == w.log + [item] && !v.due.Everything? && Pending(v) == Pending(w)
    requires item.Rescan? ==> Sure(v) == Sure(w)
    requires item.Emitted? ==> !w.due.Everything? && item.key in Sure(w) && Sure(v) == Sure(w) - {item.key}
                               && item.key !in Pending(w)
    requires !item.Accepted?
    ensures AllAnswered(v) && AllCaused(v.log) && forall k | k in Owed(v) :: Fresh(v.log, k)
  {
    assert v.log[|w.log|] == item;
    HonestKeepsAnswered(w, v);
    forall k | k in Owed(v) ensures Fresh(v.log, k) { FreshAfter(w.log, [item], k); }
    CausedAfter(w.log, item);
  }

  lemma EmitKeepsInv(w: World)
    requires Inv(w)
    ensures Inv(Emit(w))
  {
    var v := Emit(w);
    assert Pending(v) == Pending(w);
    if w.due.One? {
      assert Sure(v) == Sure(w) - {w.due.key};
      CallbackKeepsLog(w, v, Emitted(w.due.key));
    } else if w.due.Everything? {
      assert Sure(v) == Sure(w);
      CallbackKeepsLog(w, v, Rescan);
    }
  }

  lemma DiscardAllKeepsInv(w: World)
    requires Inv(w) && w.due.Nothing?
    ensures Inv(DiscardAll(w))
  {
    var v := DiscardAll(w);
    assert Pending(v) == {};
    assert Owed(v) <= Owed(w);
    HonestKeepsAnswered(w, v);
  }

  lemma FlagsKeepInv(w: World, v: World)
    requires Inv(w) && v == w.(unhealthy := v.unhealthy, terminal := v.terminal, accepting := v.accepting)
    requires v.accepting == w.accepting || (v.accepting && w.flushing == [])
    ensures Inv(v)
  {
    assert Pending(v) == Pending(w) && Owed(v) == Owed(w);
    HonestKeepsAnswered(w, v);
  }

  lemma ClosesKeepsInv(w: World, v: World)
    requires Inv(w) && Closes(w, v)
    ensures Inv(v)
  {
    assert v.flushing == w.flushing + v.flushing[|w.flushing|..];
    assert Pending(v) == {};
    forall k ensures k in Owed(v) <==> k in Owed(w) {
      assert k in v.flushing <==> k in w.flushing || k in v.flushing[|w.flushing|..];
    }
    assert Owed(v) == Owed(w);
    HonestKeepsAnswered(w, v);
  }

  lemma FlushOneKeepsInv(w: World)
    requires Inv(w) && w.due.Nothing? && w.flushing != []
    ensures Inv(FlushOne(w))
  {
    var v := FlushOne(w);
    var k := w.flushing[0];
    assert Pending(v) == Pending(w);
    assert w.flushing == [k] + v.flushing;
    assert w.states == map[] && Pending(w) == {};
    assert forall l :: l in v.flushing <==> l != k && l in w.flushing;
    assert Sure(v) == Sure(w) - {k};
    CallbackKeepsLog(w, v, Emitted(k));
  }

  lemma UnhealthyKeepsInv(w: World, isTerminal: bool)
    requires Inv(w) && w.due.Nothing?
    ensures Inv(UnhealthyStep(w, isTerminal))
  {
    var v := w.(terminal := w.terminal || isTerminal);
    FlagsKeepInv(w, v);
    FlagsKeepInv(v, v.(unhealthy := true));
    DiscardAllKeepsInv(v.(unhealthy := true));
  }

  lemma TakesKeepsInv(w: World, v: World, step: Step, window: nat)
    requires Inv(w) && Takes(w, v, step, window)
    ensures Inv(v)
  {
    match step
    case Accepts(mapped, now) => AcceptKeepsInv(w, v, mapped, now, window);
    case TimerFires(mapped, timer, now) => EmitTrailingKeepsInv(w, mapped, timer, now);
    case FindsUnhealthy(isTerminal) => UnhealthyKeepsInv(w, isTerminal);
    case AuditIsDue(running) => DiscardAllOrStay(w, v);
    case FlushesOne => FlushOneKeepsInv(w);
    case CallbackReturns => EmitKeepsInv(w);
    case Stops => ClosesKeepsInv(w, v);
    case _ => FlagsKeepInv(w, v);
  }

  lemma DiscardAllOrStay(w: World, v: World)
    requires Inv(w) && w.due.Nothing? && (v == w || v == DiscardAll(w))
    ensures Inv(v)
  {
    DiscardAllKeepsInv(w);
  }

  lemma NextKeepsInv(w: World, v: World, window: nat)
    requires Inv(w) && Next(w, v, window)
    ensures Inv(v)
  {
    var step :| Takes(w, v, step, window);
    TakesKeepsInv(w, v, step, window);
  }

  // ---------------------------------------------------------------- runs

  ghost predicate IsRun(run: seq<World>, window: nat) {
    run != [] && run[0] == INITIAL && forall n | 0 < n < |run| :: Next(run[n - 1], run[n], window)
  }

  lemma {:induction false} RunKeepsInv(run: seq<World>, window: nat, n: nat)
    requires IsRun(run, window) && n < |run|
    ensures Inv(run[n])
    decreases n
  {
    if n > 0 {
      RunKeepsInv(run, window, n - 1);
      NextKeepsInv(run[n - 1], run[n], window);
    }
  }

  // In every run, once nothing is pending or being delivered, each accepted event has been followed
  // by a rescan, by its own emission, or by the emission of one event that takes its place; and every
  // emission answers an event accepted since the same was last emitted.
  lemma NothingIsDropped(run: seq<World>, window: nat)
    requires IsRun(run, window)
    requires var w := run[|run| - 1]; Pending(w) == {} && w.flushing == [] && w.due.Nothing?
    ensures var log := run[|run| - 1].log;
            && (forall a | 0 <= a < |log| && log[a].Accepted? ::
                  exists e | a < e < |log| ::
                    log[e].Rescan? || (log[e].Emitted? && (log[e].key == log[a].key || TakesPlace(log[e].key, log[a].key))))
            && AllCaused(log)
  {
    var w := run[|run| - 1];
    RunKeepsInv(run, window, |run| - 1);
    assert Sure(w) == {};
    forall a | 0 <= a < |w.log| && w.log[a].Accepted?
      ensures exists e | a < e < |w.log| ::
                w.log[e].Rescan? || (w.log[e].Emitted? && (w.log[e].key == w.log[a].key || TakesPlace(w.log[e].key, w.log[a].key)))
    {
      var from, k := a + 1, w.log[a].key;
      assert Answered(w, from, k);
      if e :| from <= e < |w.log| && w.log[e].Rescan? {
        assert a < e;
      } else {
        var j: Key :| Answers(j, k) && EmittedFrom(w.log, from, j);
        var e :| from <= e < |w.log| && w.log[e] == Emitted(j);
        assert a < e;
      }
    }
  }

  lemma AcceptSpends(w: World, mapped: Key, now: int, window: nat)
    ensures w.spent <= Accept(w, mapped, now, window).spent
  {
  }

  lemma SpentStep(w: World, v: World, step: Step, window: nat)
    requires Takes(w, v, step, window)
    ensures w.spent <= v.spent
  {
    if step.Accepts? { AcceptSpends(w, step.mapped, step.now, window); }
  }

  // A generation is spent for good.
  lemma {:induction false} SpentStays(run: seq<World>, window: nat, m: nat, n: nat)
    requires IsRun(run, window) && m <= n < |run|
    ensures run[m].spent <= run[n].spent
    decreases n
  {
    if m < n {
      SpentStays(run, window, m, n - 1);
      var step :| Takes(run[n - 1], run[n], step, window);
      SpentStep(run[n - 1], run[n], step, window);
    }
  }

  lemma SpentNeverFires(w: World, mapped: Key, generation: nat)
    requires Tidy(w) && generation in w.spent
    ensures !Fires(w, mapped, generation)
  {
    assert forall k | k in w.states && w.states[k].pending :: k in Pending(w);
  }

  // A timer that fired, or was cancelled, never emits again.
  lemma OldTimersNeverEmit(run: seq<World>, window: nat, m: nat, n: nat, mapped: Key, generation: nat, now: int)
    requires IsRun(run, window) && m <= n < |run| && generation in run[m].spent
    ensures TrailingStep(run[n], mapped, generation, now) == run[n]
  {
    RunKeepsInv(run, window, n);
    SpentStays(run, window, m, n);
    SpentNeverFires(run[n], mapped, generation);
  }

  // ---------------------------------------------------------------- the watcher

  method ListPending(states: map<Key, DebounceState>) returns (pending: seq<Key>)
    ensures Distinct(pending)
    ensures forall k :: k in pending <==> k in states && states[k].pending
  {
    var all := set k | k in states && states[k].pending;
    var left := all;
    pending := [];
    while left != {}
      invariant left <= all && Distinct(pending)
      invariant forall k :: k in pending <==> k in all - left
      decreases left
    {
      var k :| k in left;
      DistinctAppend(pending, k);
      pending, left := pending + [k], left - {k};
    }
  }

  class WatchdogLocalWatcher {
    const window: nat
    var states: map<Key, DebounceState>
    var generation: nat
    var accepting: bool
    var unhealthy: bool
    var terminal: bool
    ghost var due: Due
    ghost var flushing: seq<Key>
    ghost var log: seq<Item>
    ghost var issued: seq<Key>
    ghost var spent: set<nat>

    ghost function State(): World
      reads this
    {
      World(states, generation, accepting, unhealthy, terminal, due, flushing, log, issued, spent)
    }

    constructor (window: nat)
      ensures this.window == window && State() == INITIAL
    {
      this.window := window;
      states, generation, accepting, unhealthy, terminal := map[], 0, true, false, false;
      due, flushing, log, issued, spent := Nothing, [], [], [], {};
    }

    method CancelSupersededPending(mapped: Key)
      modifies this`states, this`spent
      ensures State() == Drop(old(State()), SupersededBy(old(states), mapped))
    {
      var superseded := SupersededBy(states, mapped);
      ghost var w := State();
      var left := superseded;
      while left != {}
        invariant left <= superseded
        invariant states == w.states - (superseded - left)
        invariant spent == w.spent + Timers(w.states, superseded - left)
        decreases left
      {
        var candidate :| candidate in left;
        spent := spent + Timers(w.states, {candidate});
        states := states - {candidate};
        left := left - {candidate};
        assert superseded - left == (superseded - left - {candidate}) + {candidate};
        TimersOfBoth(w.states, superseded - left - {candidate}, {candidate});
      }
      assert superseded - left == superseded;
    }

    // Emits at once, or leaves the event to the timer of the current window.
    method EmitOrSchedule(mapped: Key, now: int) returns (immediately: bool)
      requires due.Nothing?
      modifies this
      ensures State() == Debounced(old(State()), mapped, now, window)
      ensures immediately <==> due == One(mapped)
    {
      immediately := false;
      if mapped !in states || now - states[mapped].lastEmitted >= window {
        spent := spent + Timers(states, {mapped});
        states := states[mapped := DebounceState(now, false, false, 0)];
        due, immediately := One(mapped), true;
      } else if states[mapped].scheduled {
        states := states[mapped := states[mapped].(pending := true)];
      } else {
        generation, issued := generation + 1, issued + [mapped];
        states := states[mapped := DebounceState(states[mapped].lastEmitted, true, true, generation)];
      }
    }

    // The region under the state lock; true when the event is to be emitted at once.
    method TakeEvent(mapped: Key, now: int) returns (immediately: bool)
      requires due.Nothing?
      modifies this
      ensures State() == Accept(old(State()), mapped, now, window)
      ensures immediately <==> due == One(mapped)
    {
      if !accepting { return false; }
      CancelSupersededPending(mapped);
      immediately := EmitOrSchedule(mapped, now);
      states, log := Prune(states, now - window), log + [Accepted(mapped)];
    }

    method DebounceEvent(mapped: Key, now: int) returns (immediately: bool)
      requires Inv(State()) && due.Nothing?
      modifies this
      ensures Takes(old(State()), State(), Accepts(mapped, now), window) && Inv(State())
      ensures old(accepting) ==> TakesIn(old(State()), State(), mapped, now, window)
      ensures immediately <==> due == One(mapped)
    {
      ghost var v := Accept(State(), mapped, now, window);
      if accepting { AcceptIsTidy(State(), v, mapped, now, window); }
      AcceptKeepsInv(State(), v, mapped, now, window);
      immediately := TakeEvent(mapped, now);
    }

    // A timer goes off; true when the event is to be emitted.
    method EmitTrailing(mapped: Key, timer: nat, now: int) returns (emits: bool)
      requires Inv(State()) && due.Nothing?
      modifies this
      ensures Takes(old(State()), State(), TimerFires(mapped, timer, now), window) && Inv(State())
      ensures emits <==> due == One(mapped)
    {
      EmitTrailingKeepsInv(State(), mapped, timer, now);
      if mapped !in states || states[mapped].generation != timer || !states[mapped].pending || !accepting { return false; }
      states := states[mapped := DebounceState(now, false, false, timer)];
      due, spent := One(mapped), spent + {timer};
      emits := true;
    }

    // What was pending is returned and emitted later on; its order is not modelled.
    method CloseDebounce() returns (pending: seq<Key>)
      requires Inv(State())
      modifies this
      ensures Takes(old(State()), State(), Stops, window) && Inv(State()) && flushing == old(flushing) + pending
    {
      ghost var w := State();
      accepting := false;
      pending := ListPending(states);
      spent := spent + Timers(states, states.Keys);
      states, flushing := map[], flushing + pending;
      DistinctJoin(w.flushing, pending);
      assert flushing[|w.flushing|..] == pending;
      ClosesKeepsInv(w, State());
    }

    method DiscardAllDebounce()
      modifies this`states, this`spent
      ensures states == map[] && spent == old(spent) + Timers(old(states), old(states).Keys)
    {
      spent := spent + Timers(states, states.Keys);
      states := map[];
    }

    // True when a rescan is to be emitted.
    method ReportUnhealthy(isTerminal: bool) returns (emits: bool)
      requires Inv(State()) && due.Nothing?
      modifies this
      ensures Takes(old(State()), State(), FindsUnhealthy(isTerminal), window) && Inv(State())
      ensures emits <==> due.Everything?
    {
      terminal := terminal || isTerminal;
      FlagsKeepInv(old(State()), State());
      if unhealthy { return false; }
      unhealthy := true;
      FlagsKeepInv(old(State()), State());
      DiscardAllKeepsInv(State());
      DiscardAllDebounce();
      due, emits := Everything, true;
    }

    method RunPeriodicAudit(running: bool) returns (emits: bool)
      requires Inv(State()) && due.Nothing?
      modifies this
      ensures Takes(old(State()), State(), AuditIsDue(running), window) && Inv(State())
      ensures emits <==> due.Everything?
    {
      if !running || terminal || unhealthy { return false; }
      DiscardAllKeepsInv(State());
      DiscardAllDebounce();
      due, emits := Everything, true;
    }
  }

  lemma TimersOfBoth(states: map<Key, DebounceState>, a: set<Key>, b: set<Key>)
    ensures Timers(states, a + b) == Timers(states, a) + Timers(states, b)
  {
  }

  lemma DistinctAppend(s: seq<Key>, k: Key)
    requires Distinct(s) && k !in s
    ensures Distinct(s + [k])
  {
  }

  lemma DistinctJoin(a: seq<Key>, b: seq<Key>)
    requires Distinct(a) && Distinct(b) && forall k | k in a :: k !in b
    ensures Distinct(a + b)
  {
    forall i, j | 0 <= i < j < |a + b|
      ensures (a + b)[i] != (a + b)[j]
    {
      if i < |a| <= j { assert a[i] in a && b[j - |a|] in b; }
    }
  }
}
