/**
 The table of expected echoes: what the watchers will report about the engine's own changes.

 A commit writes down what it has put on a side; a plain report of a path that is found as written
 down is swallowed, and the entry with it.  Entries whose report never comes by itself stay.
 */
module Expectations {
  import opened Wrappers
  import opened Journal
  import opened Entries
  import opened Reconcile
  import opened Planning
  import opened Trees
  import opened Cycle
  import opened Engine
  import opened CycleExample

  // The side that an action changes.
  function Destination(kind: ActionKind): Option<Side> {
    match kind
    case Push => Some(Remote)
    case DeleteRemote => Some(Remote)
    case Pull => Some(Local)
    case DeleteLocal => Some(Local)
    case UpdateBase => None
  }

  predicate Lands(plan: Plan, side: Side, p: Path) {
    p in plan.decisions && p !in plan.deferred && plan.decisions[p].Act? && Destination(plan.decisions[p].action) == Some(side)
  }

  function Targets(plan: Plan): set<(Side, Path)> {
    (set p | p in plan.decisions && Lands(plan, Local, p) :: (Local, p))
    + (set p | p in plan.decisions && Lands(plan, Remote, p) :: (Remote, p))
  }

  // What is written down before anything is changed, and what once it was read back.
  function Intended(plan: Plan): Echoes {
    map k | k in Targets(plan) :: plan.decisions[k.1].baseAfter
  }

  function ReadBack(plan: Plan, base: Tree): Echoes {
    map k | k in Targets(plan) && k.1 !in plan.Undone() :: At(base, k.1)
  }

  function NotDone(plan: Plan): Echoes {
    map k | k in Targets(plan) && k.1 in plan.Undone() :: plan.decisions[k.1].baseAfter
  }

  // Entries are taken out only as they were written down.
  function Without(echoes: Echoes, met: Echoes): Echoes {
    map k | k in echoes && !(k in met && met[k] == echoes[k]) :: echoes[k]
  }

  function EchoesAfter(echoes: Echoes, plan: Plan, base: Tree, swallowed: Echoes): Echoes {
    Without(Without(echoes + Intended(plan) + ReadBack(plan, base), swallowed), NotDone(plan))
  }

  class EchoTable {
    var expected: Echoes

    constructor ()
      ensures expected == map[]
    {
      expected := map[];
    }

    method SetAll(entries: Echoes)
      modifies this
      ensures expected == old(expected) + entries
    {
      var left := entries.Keys;
      ghost var before := expected;
      while left != {}
        invariant left <= entries.Keys
        invariant expected == before + (map k | k in entries && k !in left :: entries[k])
        decreases left
      {
        var k :| k in left;
        expected, left := expected[k := entries[k]], left - {k};
      }
      assert (map k | k in entries && k !in left :: entries[k]) == entries;
    }

    // Whether the entry was there as given.
    method Consume(key: (Side, Path), state: State) returns (consumed: bool)
      modifies this
      ensures consumed <==> key in old(expected) && old(expected)[key] == state
      ensures expected == if consumed then old(expected) - {key} else old(expected)
    {
      consumed := key in expected && expected[key] == state;
      if consumed { expected := expected - {key}; }
    }

    method ConsumeAll(met: Echoes)
      modifies this
      ensures expected == Without(old(expected), met)
    {
      var left := met.Keys;
      ghost var before := expected;
      while left != {}
        invariant left <= met.Keys
        invariant expected == Without(before, map k | k in met && k !in left :: met[k])
        decreases left
      {
        var k :| k in left;
        var consumed := Consume(k, met[k]);
        left := left - {k};
      }
      assert (map k | k in met && k !in left :: met[k]) == met;
    }

    // The part of a committed cycle that concerns the table: intents first, the rest when it commits.
    method Commit(plan: Plan, base: Tree, swallowed: Echoes)
      modifies this
      ensures expected == EchoesAfter(old(expected), plan, base, swallowed)
    {
      SetAll(Intended(plan));
      SetAll(ReadBack(plan, base));
      ConsumeAll(swallowed);
      ConsumeAll(NotDone(plan));
    }
  }

  // Entry by entry: what was put on a side is expected there as it was read back, unless its report
  // has been swallowed already; where a deletion was left undone nothing is expected; anything else
  // stays until it is swallowed.
  lemma EchoAt(echoes: Echoes, plan: Plan, base: Tree, swallowed: Echoes, side: Side, p: Path)
    ensures var k, after := (side, p), EchoesAfter(echoes, plan, base, swallowed);
            if p in (if side.Remote? then plan.Doing(Push) + plan.GoneRemote() else plan.Doing(Pull) + plan.Doing(DeleteLocal))
            then (k in after <==> !(k in swallowed && swallowed[k] == At(base, p))) && (k in after ==> after[k] == At(base, p))
            else if side.Remote? && p in plan.Undone() then k !in after
            else (k in after <==> k in echoes && !(k in swallowed && swallowed[k] == echoes[k]))
                 && (k in after ==> after[k] == echoes[k])
  {
    hide Intended, ReadBack, NotDone, Without;
    var k, written := (side, p), echoes + Intended(plan) + ReadBack(plan, base);
    WrittenAt(plan, base, side, p);
    WithoutAt(written, swallowed, k);
    WithoutAt(Without(written, swallowed), NotDone(plan), k);
  }

  lemma WithoutAt(echoes: Echoes, met: Echoes, k: (Side, Path))
    ensures k in Without(echoes, met) <==> k in echoes && !(k in met && met[k] == echoes[k])
    ensures k in Without(echoes, met) ==> Without(echoes, met)[k] == echoes[k]
  {
  }

  lemma WrittenAt(plan: Plan, base: Tree, side: Side, p: Path)
    ensures var k := (side, p);
            var lands := p in (if side.Remote? then plan.Doing(Push) + plan.GoneRemote()
                               else plan.Doing(Pull) + plan.Doing(DeleteLocal));
            var undone := side.Remote? && p in plan.Undone();
            && (k in ReadBack(plan, base) <==> lands) && (lands ==> ReadBack(plan, base)[k] == At(base, p))
            && (k in NotDone(plan) <==> undone) && (k in Intended(plan) <==> lands || undone)
            && (undone ==> Intended(plan)[k] == NotDone(plan)[k])
  {
    assert (side, p) in Targets(plan) <==> Lands(plan, side, p);
  }

  // ---------------------------------------------------------------- when swallowing is safe

  // What is expected on either side is the base content.
  ghost predicate HoldBase(echoes: Echoes, base: Tree) {
    forall side, p | (side, p) in echoes :: ContentEqual(echoes[(side, p)], At(base, p))
  }

  // The watchers have named whatever does not hold the base content, if it is not kept in mind otherwise.
  ghost predicate Told(w: World, events: seq<Event>) {
    forall side, p | p !in w.requeued && p !in w.conflicts && !ContentEqual(OnSide(w, side, p), At(w.base, p)) ::
      SpecialAt(w, p) || NamedIn(events, side, p)
  }

  ghost predicate IsDirty(w: World, echoes: Echoes, events: seq<Event>, p: Path) {
    p in w.requeued || p in w.conflicts || exists side :: NamedIn(events, side, p) && !Swallowed(w, echoes, events, side, p)
  }

  // A change is hidden from the cycle exactly when every side that names the path meets what is expected
  // of it, and what is expected of one of them is not the base content.
  lemma HiddenExactly(w: World, echoes: Echoes, events: seq<Event>, p: Path)
    requires Sound(w) && Told(w, events) && !SpecialAt(w, p) && p !in w.requeued && p !in w.conflicts
    ensures !IsDirty(w, echoes, events, p) && !Agreed(w, p) <==>
              && (forall side | NamedIn(events, side, p) :: Swallowed(w, echoes, events, side, p))
              && exists side :: NamedIn(events, side, p) && !ContentEqual(echoes[(side, p)], At(w.base, p))
  {
    assert Agreed(w, p) <==>
      ContentEqual(OnSide(w, Local, p), At(w.base, p)) && ContentEqual(OnSide(w, Remote, p), At(w.base, p));
    if !Agreed(w, p) {
      var side := if ContentEqual(OnSide(w, Local, p), At(w.base, p)) then Remote else Local;
      assert NamedIn(events, side, p);
    }
  }

  // While the table holds the base content nothing is hidden: every path in disagreement is dirty.
  lemma NothingIsHidden(w: World, echoes: Echoes, events: seq<Event>, p: Path)
    requires Sound(w) && Told(w, events) && HoldBase(echoes, w.base) && !Agreed(w, p) && !SpecialAt(w, p)
    ensures IsDirty(w, echoes, events, p)
  {
    if p !in w.requeued && p !in w.conflicts { HiddenExactly(w, echoes, events, p); }
  }

  // ---------------------------------------------------------------- what a commit does to it

  // What was swallowed in a cycle, as expected and as found.
  ghost predicate Met(w: World, echoes: Echoes, events: seq<Event>, swallowed: Echoes) {
    forall side, p :: ((side, p) in swallowed <==> Swallowed(w, echoes, events, side, p))
                      && ((side, p) in swallowed ==> swallowed[(side, p)] == OnSide(w, side, p))
  }

  // An expectation of a side overtaken by a later change of that side: the path is brought to
  // completion with other content than the base had, and not by changing that side.
  ghost predicate Overtaken(w: World, plan: Plan, echoes: Echoes, side: Side, p: Path) {
    && (side, p) in echoes
    && ((side.Local? && p in plan.Doing(Push) + plan.GoneRemote())
        || (side.Remote? && p in plan.Doing(Pull) + plan.Doing(DeleteLocal))
        || (p in plan.Doing(UpdateBase) && !ContentEqual(At(w.base, p), At(w.local, p))))
  }

  // A commit changes the content of the base unless it only refreshes it.
  lemma BaseMoves(w: World, v: World, plan: Plan, basis: Basis, deliver: Transport, p: Path)
    requires Planned(w, plan, basis) && Reliable(deliver) && Commits(w, v, plan, deliver) && p in plan.Completed()
    ensures ContentEqual(At(w.base, p), At(v.base, p)) <==>
              p in plan.Doing(UpdateBase) && ContentEqual(At(w.base, p), At(w.local, p))
    ensures ContentEqual(At(v.base, p), At(v.base, p))
    ensures p in plan.Doing(UpdateBase) ==> ContentEqual(At(v.base, p), At(w.local, p))
  {
    hide Planned, Installed, Reliable, HeldAt;
    var pushed, pulled :| Installed(w.remote, pushed, w.local, plan.Doing(Push), deliver.remote)
                          && Installed(w.local, pulled, w.remote, plan.Doing(Pull), deliver.local)
                          && CommitsFrom(w, v, plan, deliver, pulled, pushed);
    CompletedAgrees(w, v, plan, basis, deliver, p);
    Meaning(w, plan, basis, p);
    UntouchedStays(w, v, plan, basis, deliver, pulled, pushed, p);
    if p in plan.Doing(Push) {
      AlikeSaysTheSame(At(v.local, p), At(w.local, p), At(w.base, p));
    } else if p in plan.Doing(Pull) {
      AlikeSaysTheSame(At(v.remote, p), At(w.remote, p), At(w.base, p));
    }
  }

  lemma EchoHolds(w: World, v: World, plan: Plan, basis: Basis, deliver: Transport, echoes: Echoes, events: seq<Event>,
                  swallowed: Echoes, side: Side, p: Path)
    requires Planned(w, plan, basis) && Reliable(deliver) && Commits(w, v, plan, deliver)
    requires HoldBase(echoes, w.base) && Met(w, echoes, events, swallowed)
    ensures var after := EchoesAfter(echoes, plan, v.base, swallowed);
            (side, p) in after && !ContentEqual(after[(side, p)], At(v.base, p)) <==> Overtaken(w, plan, echoes, side, p)
  {
    hide Planned, Reliable, EchoesAfter, Commits;
    EchoAt(echoes, plan, v.base, swallowed, side, p);
    if p in plan.Completed() {
      BaseMoves(w, v, plan, basis, deliver, p);
      Meaning(w, plan, basis, p);
    } else {
      NotCompletedKeepsBase(w, v, plan, deliver, p);
    }
  }

  lemma NotCompletedKeepsBase(w: World, v: World, plan: Plan, deliver: Transport, p: Path)
    requires Commits(w, v, plan, deliver) && p !in plan.Completed()
    ensures At(v.base, p) == At(w.base, p)
  {
  }

  // The table goes on holding the base content exactly when no expectation is overtaken.
  lemma CommitKeepsHolding(w: World, v: World, plan: Plan, basis: Basis, deliver: Transport, echoes: Echoes,
                           events: seq<Event>, swallowed: Echoes)
    requires Planned(w, plan, basis) && Reliable(deliver) && Commits(w, v, plan, deliver)
    requires HoldBase(echoes, w.base) && Met(w, echoes, events, swallowed)
    ensures HoldBase(EchoesAfter(echoes, plan, v.base, swallowed), v.base)
            <==> !(exists side, p :: Overtaken(w, plan, echoes, side, p))
  {
    hide Planned, Reliable, EchoesAfter, Commits, Overtaken, Met;
    forall side, p { EchoHolds(w, v, plan, basis, deliver, echoes, events, swallowed, side, p); }
  }

  // ---------------------------------------------------------------- a deletion that is never heard of

  // An expected deletion of the local entry outlives the push of a new one.
  lemma OvertakenStays(w: World, v: World, plan: Plan, basis: Basis, deliver: Transport, echoes: Echoes, events: seq<Event>,
                       swallowed: Echoes, p: Path)
    requires Planned(w, plan, basis) && Reliable(deliver) && Commits(w, v, plan, deliver) && p in plan.Doing(Push)
    requires Met(w, echoes, events, swallowed) && (Local, p) in echoes && echoes[(Local, p)].Missing?
    ensures var after := EchoesAfter(echoes, plan, v.base, swallowed); (Local, p) in after && after[(Local, p)].Missing?
    ensures Agreed(v, p) && At(v.local, p).Present? && p !in v.conflicts && p !in v.requeued
  {
    hide Planned, Reliable, EchoesAfter, HeldAt, Installed;
    EchoAt(echoes, plan, v.base, swallowed, Local, p);
    Meaning(w, plan, basis, p);
    CompletedAgrees(w, v, plan, basis, deliver, p);
    var pushed, pulled :| Installed(w.remote, pushed, w.local, plan.Doing(Push), deliver.remote)
                          && Installed(w.local, pulled, w.remote, plan.Doing(Pull), deliver.local)
                          && CommitsFrom(w, v, plan, deliver, pulled, pushed);
    UntouchedStays(w, v, plan, basis, deliver, pulled, pushed, p);
  }

  // The local user deletes it again: that is all that is reported, and it is swallowed.
  lemma SecondDeletionIsHidden(v: World, echoes: Echoes, p: Path, sequence: nat)
    requires Agreed(v, p) && At(v.local, p).Present? && p !in v.conflicts && p !in v.requeued
    requires (Local, p) in echoes && echoes[(Local, p)].Missing?
    ensures var w, events := v.(local := v.local - {p}), [Event(Local, sequence, Delete, p, None)];
            !IsDirty(w, echoes, events, p) && !Agreed(w, p)
  {
    var w, events := v.(local := v.local - {p}), [Event(Local, sequence, Delete, p, None)];
    assert events[0] in events && PlainReport(events[0], Local, p);
    assert forall side | NamedIn(events, side, p) :: side == Local;
  }

  // Something new appears in a directory in step on both sides, where the engine had made a deletion
  // whose report came too late.
  function Recreated(d: Path, x: Path): World {
    World(map[d := D], map[d := D, x := X], map[d := D], {}, map[])
  }

  function Pushed(d: Path, x: Path): World {
    World(map[d := D, x := X], map[d := D, x := X], map[d := Touched(D, 2), x := X], {}, map[])
  }

  function Seen(d: Path, x: Path): Basis {
    Basis({d, x}, NothingIgnored, map[d := D, x := X], map[d := D])
  }

  function Pushes(d: Path, x: Path): Plan {
    Plan(map[d := Act(UpdateBase, D, D, D), x := Act(Push, X, Missing, X)], {})
  }

  lemma PushIsPlanned(d: Path, x: Path)
    requires Setting(d, x)
    ensures Planned(Recreated(d, x), Pushes(d, x), Seen(d, x))
  {
    hide Planned;
    assert x != d;
    PlannedInFull(Recreated(d, x), Pushes(d, x), d, x);
  }

  lemma PushInstalls(d: Path, x: Path)
    requires Setting(d, x)
    ensures Installed(Recreated(d, x).remote, Pushed(d, x).remote, Recreated(d, x).local, {x}, CARRIED)
  {
    var before, after := Recreated(d, x).remote, Pushed(d, x).remote;
    assert x in {x} && Stirred(before, d, x);
    forall p
      ensures At(after, p) == InstalledAt(before, Recreated(d, x).local, {x}, CARRIED, p)
    {
      if p != d && p != x && Above(p, x) { AncestorsOnALine(d, p, x); }
    }
  }

  lemma PushCommits(d: Path, x: Path)
    requires Setting(d, x)
    ensures Commits(Recreated(d, x), Pushed(d, x), Pushes(d, x), CARRIER) && x in Pushes(d, x).Doing(Push)
  {
    hide Installed, DeletedAt;
    var w, v, plan := Recreated(d, x), Pushed(d, x), Pushes(d, x);
    assert x != d;
    assert plan.Doing(Push) == {x} && plan.Doing(Pull) == {};
    assert plan.Doing(DeleteLocal) == {} && plan.Doing(DeleteRemote) == {};
    assert plan.Undone() == {} && plan.GoneRemote() == {};
    assert plan.Completed() == {d, x} && plan.InConflict() == {};
    PushInstalls(d, x);
    NothingHeldUp(w.local, Later);
    NothingHeldUp(v.remote, Later);
    assert CommitsFrom(w, v, plan, CARRIER, w.local, v.remote);
  }

  // Two undisturbed cycles and a deletion in between that no cycle hears of.
  ghost predicate DeletionHidden(w: World, v: World, plan: Plan, basis: Basis, deliver: Transport, echoes: Echoes,
                                 events: seq<Event>, swallowed: Echoes, p: Path, sequence: nat) {
    && Planned(w, plan, basis) && Reliable(deliver) && Commits(w, v, plan, deliver)
    && HoldBase(echoes, w.base) && Told(w, events) && Met(w, echoes, events, swallowed)
    && var u, news, after := v.(local := v.local - {p}), [Event(Local, sequence, Delete, p, None)],
                             EchoesAfter(echoes, plan, v.base, swallowed);
       Told(u, news) && !IsDirty(u, after, news, p) && !Agreed(u, p)
  }

  // It starts from a table that holds the base content, with everything reported: the report of the
  // engine's own deletion and that of the new file came together, and were merged into one.
  lemma DeletionIsHidden(d: Path, x: Path)
    requires Setting(d, x)
    ensures DeletionHidden(Recreated(d, x), Pushed(d, x), Pushes(d, x), Seen(d, x), CARRIER, map[(Local, x) := Missing],
                           [Event(Local, 1, Delete, x, None), Event(Local, 2, Create, x, None)], map[], x, 3)
  {
    hide Planned, Commits, Reliable, EchoesAfter;
    var w, v, plan := Recreated(d, x), Pushed(d, x), Pushes(d, x);
    var echoes: Echoes := map[(Local, x) := Missing];
    var events := [Event(Local, 1, Delete, x, None), Event(Local, 2, Create, x, None)];
    assert x != d;
    PushIsPlanned(d, x);
    PushCommits(d, x);
    CarrierIsReliable();
    assert events[0] in events && Names(events[0], Local, x);
    assert NamedIn(events, Local, x);
    OvertakenStays(w, v, plan, Seen(d, x), CARRIER, echoes, events, map[], x);
    SecondDeletionIsHidden(v, EchoesAfter(echoes, plan, v.base, map[]), x, 3);
    var news := [Event(Local, 3, Delete, x, None)];
    assert news[0] in news && Names(news[0], Local, x);
    assert NamedIn(news, Local, x);
  }

  // For every file in a directory at the root there is such a history, and there is such a file.
  lemma ADeletionCanBeHidden()
    ensures forall d, x | Setting(d, x) ::
              exists w, v, plan, basis, deliver, echoes, events, swallowed, sequence: nat ::
                DeletionHidden(w, v, plan, basis, deliver, echoes, events, swallowed, x, sequence)
    ensures exists d, x :: Setting(d, x)
  {
    hide DeletionHidden;
    forall d, x | Setting(d, x)
      ensures exists w, v, plan, basis, deliver, echoes, events, swallowed, sequence: nat ::
                DeletionHidden(w, v, plan, basis, deliver, echoes, events, swallowed, x, sequence)
    {
      DeletionIsHidden(d, x);
    }
    SettingExists();
  }
}
