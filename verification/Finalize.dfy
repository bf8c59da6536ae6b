/**
 Moving a staged batch into place: only the top-level paths of the batch are renamed, each taking
 its whole staged subtree along and replacing whatever was at its name.  For the batches the planner
 makes this is the same as installing the items one by one, and removes nothing outside the batch.
 */
module Finalize {
  import opened Wrappers
  import opened Journal
  import opened Entries
  import opened Reconcile
  import opened Planning
  import opened Trees
  import opened Cycle
  import opened Engine

  // The staging area holds the items and the directories above them.
  ghost predicate IsStaged(staging: Tree, source: Tree, items: set<Path>, deliver: Delivery) {
    forall p :: At(staging, p) ==
      if p in items then deliver.copy(p, At(source, p))
      else if exists q :: q in items && Above(p, q) then Touched(NEW_DIRECTORY, deliver.time(p))
      else Missing
  }

  // Renames a staged path into place, creating what is missing above it.
  function ReplaceSubtree(tree: Tree, staging: Tree, top: Path, time: Path -> int): Tree {
    (map p | p in tree.Keys + MissingAbove(tree, top) && !Within(p, top) :: HeldAt(tree, {top}, {}, time, p))
    + (map p | p in staging && Within(p, top) :: staging[p])
  }

  lemma ReplaceSubtreeAt(tree: Tree, staging: Tree, top: Path, time: Path -> int, p: Path)
    ensures At(ReplaceSubtree(tree, staging, top, time), p)
            == if Within(p, top) then At(staging, p) else HeldAt(tree, {top}, {}, time, p)
  {
    if Above(p, top) { assert p == top[..|p|]; }
  }

  ghost function FinalizedAt(before: Tree, staging: Tree, tops: set<Path>, time: Path -> int, p: Path): State {
    if exists t :: t in tops && Within(p, t) then At(staging, p) else HeldAt(before, tops, {}, time, p)
  }

  ghost predicate SideBySide(tops: set<Path>) {
    forall t, u | t in tops && u in tops :: !Above(t, u)
  }

  // What is at a path on the way to the next top-level path was not renamed into place before.
  lemma OnTheWayIsOutside(tops: set<Path>, top: Path, p: Path, c: Path)
    requires SideBySide(tops + {top}) && top !in tops && Above(p, top) && c == Child(p, top) && c != top
    ensures forall t | t in tops :: !Within(c, t)
  {
    forall t | t in tops
      ensures !Within(c, t)
    {
      assert t in tops + {top} && top in tops + {top};
      ChildIsAbove(p, top);
      if Above(t, c) { AboveTransitive(t, c, top); }
    }
  }

  lemma ChildIsAbove(p: Path, top: Path)
    requires Above(p, top)
    ensures Within(top, Child(p, top)) && Above(p, Child(p, top))
  {
    assert Child(p, top)[..|p|] == top[..|p|];
  }

  lemma StirredOutside(before: Tree, after: Tree, staging: Tree, tops: set<Path>, top: Path, time: Path -> int, p: Path)
    requires SideBySide(tops + {top}) && top !in tops
    requires forall q :: At(after, q) == FinalizedAt(before, staging, tops, time, q)
    ensures Stirred(after, p, top) ==> Stirred(before, p, top)
    ensures Stirred(before, p, top) ==> Stirred(after, p, top) || exists t :: t in tops && Stirred(before, p, t)
  {
    if Above(p, top) && Child(p, top) != top {
      var c := Child(p, top);
      OnTheWayIsOutside(tops, top, p, c);
      assert At(after, c) == HeldAt(before, tops, {}, time, c);
      HeldIsAlike(before, tops, {}, time, c);
      if At(before, c).Missing? && At(after, c).Present? {
        var t :| t in tops && Above(c, t);
        ChildOnTheWay(p, top, t);
        assert Stirred(before, p, t);
      }
    }
  }

  lemma FinalizeStep(before: Tree, after: Tree, staging: Tree, tops: set<Path>, top: Path, time: Path -> int, p: Path)
    requires SideBySide(tops + {top}) && top !in tops
    requires forall q :: At(after, q) == FinalizedAt(before, staging, tops, time, q)
    ensures At(ReplaceSubtree(after, staging, top, time), p) == FinalizedAt(before, staging, tops + {top}, time, p)
  {
    ReplaceSubtreeAt(after, staging, top, time, p);
    assert top in tops + {top};
    forall t | t in tops ensures t in tops + {top} {}
    if exists t :: t in tops && Within(p, t) {
      var t :| t in tops && Within(p, t);
      UnderAnother(tops, top, time, after, t, p);
    } else if !Within(p, top) {
      StirredOutside(before, after, staging, tops, top, time, p);
      DisturbedStep(before, tops, top, p);
    }
  }

  // What was renamed into place is not changed by the next rename.
  lemma UnderAnother(tops: set<Path>, top: Path, time: Path -> int, after: Tree, t: Path, p: Path)
    requires SideBySide(tops + {top}) && t in tops && Within(p, t)
    ensures !Within(p, top) ==> HeldAt(after, {top}, {}, time, p) == At(after, p)
    ensures Within(p, top) ==> top == t
  {
    assert t in tops + {top} && top in tops + {top};
    if Above(p, top) {
      if p != t { AboveTransitive(t, p, top); }
      assert false;
    }
    if Within(p, top) { AncestorsOnALine(t, top, p); }
  }

  // `paths` are the items of the batch.
  method FinalizeEntries(before: Tree, staging: Tree, paths: seq<Path>, time: Path -> int) returns (after: Tree)
    requires Distinct(paths)
    ensures forall p :: At(after, p) == FinalizedAt(before, staging, (set t | t in paths && TopLevel(ToSet(paths), t)), time, p)
  {
    var tops := TopLevelPaths(paths);
    after := before;
    for i := 0 to |tops|
      invariant forall p :: At(after, p) == FinalizedAt(before, staging, ToSet(tops[..i]), time, p)
    {
      assert tops[..i + 1] == tops[..i] + [tops[i]];
      assert ToSet(tops[..i + 1]) == ToSet(tops[..i]) + {tops[i]};
      forall t, u | t in ToSet(tops[..i + 1]) && u in ToSet(tops[..i + 1])
        ensures !Above(t, u)
      {
        assert t in tops && u in tops && t in ToSet(paths);
      }
      forall p
        ensures At(ReplaceSubtree(after, staging, tops[i], time), p) == FinalizedAt(before, staging, ToSet(tops[..i + 1]), time, p)
      {
        FinalizeStep(before, after, staging, ToSet(tops[..i]), tops[i], time, p);
      }
      after := ReplaceSubtree(after, staging, tops[i], time);
    }
    assert tops[..|tops|] == tops;
    assert ToSet(tops) == set t | t in paths && TopLevel(ToSet(paths), t);
  }

  // A directory is transferred only to where nothing is.
  ghost predicate DirectoriesOntoNothing(source: Tree, destination: Tree, items: set<Path>) {
    forall p | p in items && IsDir(At(source, p)) :: At(destination, p).Missing?
  }

  lemma PlannedDirectoriesOntoNothing(w: World, plan: Plan, basis: Basis)
    requires Planned(w, plan, basis)
    ensures Transferable(w.local, w.remote, plan.Doing(Push)) && DirectoriesOntoNothing(w.local, w.remote, plan.Doing(Push))
    ensures Transferable(w.remote, w.local, plan.Doing(Pull)) && DirectoriesOntoNothing(w.remote, w.local, plan.Doing(Pull))
  {
    ActionsAreSafe(w, plan, basis);
    SafeIsTransferable(w, plan);
  }

  // Nothing but the batch is at or below one of its top-level paths.
  lemma NothingBesides(before: Tree, source: Tree, items: set<Path>, t: Path, p: Path)
    requires Closed(before) && Closed(source) && Transferable(source, before, items) && DirectoriesOntoNothing(source, before, items)
    requires t in items && Within(p, t) && p !in items
    ensures At(before, p).Missing?
  {
    assert Above(t, p);
  }

  // An item lies in the same entry of a directory as its top-level path.
  lemma StirredByTop(before: Tree, items: set<Path>, top: Path, q: Path, p: Path)
    requires TopLevel(items, top) && q in items && Within(q, top) && Above(p, q) && !Within(p, top)
    ensures Above(p, top) && (Stirred(before, p, q) ==> Stirred(before, p, top))
  {
    AncestorsOnALine(top, p, q);
    ChildIsAbove(p, top);
    if q != top && Child(p, top) != top { AboveTransitive(Child(p, top), top, q); }
    ChildOnTheWay(p, top, q);
  }

  lemma TopsDisturb(before: Tree, items: set<Path>, p: Path)
    requires forall t | TopLevel(items, t) :: !Within(p, t)
    ensures Disturbed(before, (set t | t in items && TopLevel(items, t)), {}, p) <==> Disturbed(before, items, {}, p)
  {
    var tops := set t | t in items && TopLevel(items, t);
    if Disturbed(before, items, {}, p) {
      var q :| q in items && if At(before, p).Missing? then Above(p, q) else Stirred(before, p, q);
      var top := TopLevelOf(items, q);
      StirredByTop(before, items, top, q, p);
      assert top in tops;
    }
  }

  // Renaming the top-level paths is installing every item.
  lemma FinalizeInstalls(before: Tree, source: Tree, staging: Tree, items: set<Path>, deliver: Delivery, p: Path)
    requires Closed(before) && Closed(source) && Transferable(source, before, items) && DirectoriesOntoNothing(source, before, items)
    requires IsStaged(staging, source, items, deliver)
    ensures FinalizedAt(before, staging, (set t | t in items && TopLevel(items, t)), deliver.time, p)
            == InstalledAt(before, source, items, deliver, p)
  {
    var tops := set t | t in items && TopLevel(items, t);
    if p in items {
      var top := TopLevelOf(items, p);
      assert top in tops;
    } else if exists t :: t in tops && Within(p, t) {
      var t :| t in tops && Within(p, t);
      NothingBesides(before, source, items, t, p);
    } else {
      TopsDisturb(before, items, p);
    }
  }

  // For a planned batch the renames leave exactly what the cycle's installs leave, and keep every
  // entry that the batch does not name, apart from the times of directories they work in.
  lemma PushesStayInside(w: World, plan: Plan, basis: Basis, deliver: Delivery, staging: Tree, p: Path)
    requires Planned(w, plan, basis)
    requires IsStaged(staging, w.local, plan.Doing(Push), deliver)
    ensures var items := plan.Doing(Push);
            var after := FinalizedAt(w.remote, staging, (set t | t in items && TopLevel(items, t)), deliver.time, p);
            && after == InstalledAt(w.remote, w.local, items, deliver, p)
            && (p !in items && At(w.remote, p).Present? ==> Alike(after, At(w.remote, p)))
            && (p !in items && after != At(w.remote, p) ==> Disturbed(w.remote, items, {}, p))
  {
    PlannedDirectoriesOntoNothing(w, plan, basis);
    FinalizeInstalls(w.remote, w.local, staging, plan.Doing(Push), deliver, p);
    HeldIsAlike(w.remote, plan.Doing(Push), {}, deliver.time, p);
  }

  lemma PullsStayInside(w: World, plan: Plan, basis: Basis, deliver: Delivery, staging: Tree, p: Path)
    requires Planned(w, plan, basis)
    requires IsStaged(staging, w.remote, plan.Doing(Pull), deliver)
    ensures var items := plan.Doing(Pull);
            var after := FinalizedAt(w.local, staging, (set t | t in items && TopLevel(items, t)), deliver.time, p);
            && after == InstalledAt(w.local, w.remote, items, deliver, p)
            && (p !in items && At(w.local, p).Present? ==> Alike(after, At(w.local, p)))
            && (p !in items && after != At(w.local, p) ==> Disturbed(w.local, items, {}, p))
  {
    PlannedDirectoriesOntoNothing(w, plan, basis);
    FinalizeInstalls(w.local, w.remote, staging, plan.Doing(Pull), deliver, p);
    HeldIsAlike(w.local, plan.Doing(Pull), {}, deliver.time, p);
  }
}
