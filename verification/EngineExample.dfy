/**
 Cycles that cannot commit although nobody else writes, and no later cycle can either: what is in
 the way stays there.  And a cycle that commits without ever doing what it planned.  Each is shown for
 every directory at the root and every path directly in it.
 */
module EngineExample {
  import opened Wrappers
  import opened Journal
  import opened Entries
  import opened Reconcile
  import opened Planning
  import opened Trees
  import opened Cycle
  import opened CycleExample
  import opened Engine

  // ---------------------------------------------------------------- nothing can be looked at

  // The local user replaces a directory by a file; the file that was in it is requeued.
  function Flattened(d: Path, x: Path): World {
    World(map[d := D, x := X], map[d := X], map[d := D, x := X], {d, x}, map[])
  }

  function WouldDelete(d: Path, x: Path): Plan {
    Plan(map[d := Conflict(KindDivergence, X, D), x := Act(DeleteRemote, Missing, X, Missing)], {})
  }

  // The plan would be to delete the file on the remote side, and nothing would be in the way of that;
  // but the cycle fails before it plans, whatever its events are.
  lemma NotObservable(d: Path, x: Path, deliver: Transport, events: seq<Event>)
    requires Setting(d, x)
    ensures Planned(Flattened(d, x), WouldDelete(d, x), Basis({d, x}, NothingIgnored, map[d := X], map[d := D, x := X]))
    ensures Feasible(Flattened(d, x), WouldDelete(d, x), deliver)
    ensures !Observable(Flattened(d, x), events)
  {
    hide Planned, Feasible;
    var w, plan := Flattened(d, x), WouldDelete(d, x);
    assert x != d;
    WouldDeleteIsPlanned(d, x);
    WouldDeleteIsFeasible(d, x, deliver);
    assert Mentioned(w, events, x) && x[..1] == d && !IsDir(At(w.local, d));
    assert !Accessible(w.local, x);
  }

  lemma WouldDeleteIsPlanned(d: Path, x: Path)
    requires Setting(d, x)
    ensures Planned(Flattened(d, x), WouldDelete(d, x), Basis({d, x}, NothingIgnored, map[d := X], map[d := D, x := X]))
  {
    hide Planned;
    assert x != d;
    PlannedInFull(Flattened(d, x), WouldDelete(d, x), d, x);
  }

  lemma WouldDeleteIsFeasible(d: Path, x: Path, deliver: Transport)
    requires Setting(d, x)
    ensures Feasible(Flattened(d, x), WouldDelete(d, x), deliver)
  {
    var w, plan := Flattened(d, x), WouldDelete(d, x);
    assert x != d;
    assert plan.Doing(Push) == {} && plan.Doing(Pull) == {} && plan.Doing(DeleteLocal) == {} && plan.Doing(DeleteRemote) == {x};
    forall q | Above(x, q) ensures InstalledAt(w.remote, w.local, {}, deliver.remote, q).Missing? {}
  }

  // ---------------------------------------------------------------- nothing can be installed

  // New on both sides: a directory with a file in it here, a file of the directory's name there.
  function Crossed(d: Path, x: Path): World {
    World(map[], map[d := D, x := X], map[d := X], {}, map[])
  }

  function WouldPush(d: Path, x: Path): Plan {
    Plan(map[d := Conflict(KindDivergence, D, X), x := Act(Push, X, Missing, X)], {})
  }

  // Everything can be looked at, but the file has to be pushed below a file.
  lemma NotInstallable(d: Path, x: Path, deliver: Transport)
    requires Setting(d, x)
    ensures Planned(Crossed(d, x), WouldPush(d, x), Basis({d, x}, NothingIgnored, map[d := D, x := X], map[d := X]))
    ensures Accessible(Crossed(d, x).local, d) && Accessible(Crossed(d, x).local, x)
    ensures !Feasible(Crossed(d, x), WouldPush(d, x), deliver)
  {
    hide Planned;
    var w, plan := Crossed(d, x), WouldPush(d, x);
    assert x != d;
    WouldPushIsPlanned(d, x);
    assert x[..1] == d && x in plan.Doing(Push);
    assert !Accessible(w.remote, x);
  }

  lemma WouldPushIsPlanned(d: Path, x: Path)
    requires Setting(d, x)
    ensures Planned(Crossed(d, x), WouldPush(d, x), Basis({d, x}, NothingIgnored, map[d := D, x := X], map[d := X]))
  {
    hide Planned;
    assert x != d;
    PlannedInFull(Crossed(d, x), WouldPush(d, x), d, x);
  }

  // ---------------------------------------------------------------- links that cannot be deleted

  const L := Present(Entry(EntryKind.Symlink, None, Some(1), Some(1), Some("target"), Some("h"), false))

  // The local user deletes a symbolic link at the root.
  function Unlinked(d: Path, requeued: set<Path>): World {
    World(map[d := L], map[], map[d := L], requeued, map[])
  }

  function LeavesLink(d: Path, x: Path): Plan {
    Plan(map[d := Act(DeleteRemote, Missing, L, Missing), x := NoChange], {})
  }

  // The link stays on the remote side and in the base and is requeued, and the events are not
  // acknowledged, in the first cycle and in every later one.
  lemma LinkIsNeverDeleted(d: Path, x: Path, requeued: set<Path>, deliver: Transport)
    requires Setting(d, x)
    ensures Planned(Unlinked(d, requeued), LeavesLink(d, x), Basis({d, x}, NothingIgnored, map[], map[d := L]))
    ensures Feasible(Unlinked(d, requeued), LeavesLink(d, x), deliver)
    ensures Commits(Unlinked(d, requeued), Unlinked(d, {d}), LeavesLink(d, x), deliver)
    ensures !Acknowledges(Unlinked(d, requeued), Unlinked(d, {d}), LeavesLink(d, x))
  {
    hide Planned, Commits, Feasible;
    LeavesLinkIsPlanned(d, x, requeued);
    LeavesLinkDoes(d, x);
    LeavesLinkIsFeasible(d, x, requeued, deliver);
    LeavesLinkCommits(d, x, requeued, deliver);
  }

  lemma LeavesLinkDoes(d: Path, x: Path)
    requires Setting(d, x)
    ensures var plan := LeavesLink(d, x);
            && plan.Doing(Push) == {} && plan.Doing(Pull) == {} && plan.Doing(DeleteLocal) == {} && plan.Doing(DeleteRemote) == {d}
            && plan.Undone() == {d} && plan.GoneRemote() == {} && plan.Completed() == {} && plan.InConflict() == {}
  {
    assert x != d;
  }

  lemma LeavesLinkIsPlanned(d: Path, x: Path, requeued: set<Path>)
    requires Setting(d, x)
    ensures Planned(Unlinked(d, requeued), LeavesLink(d, x), Basis({d, x}, NothingIgnored, map[], map[d := L]))
  {
    hide Planned;
    assert x != d;
    PlannedInFull(Unlinked(d, requeued), LeavesLink(d, x), d, x);
  }

  lemma LeavesLinkIsFeasible(d: Path, x: Path, requeued: set<Path>, deliver: Transport)
    requires Setting(d, x)
    ensures Feasible(Unlinked(d, requeued), LeavesLink(d, x), deliver)
  {
    LeavesLinkDoes(d, x);
  }

  lemma LeavesLinkCommits(d: Path, x: Path, requeued: set<Path>, deliver: Transport)
    requires Setting(d, x)
    ensures Commits(Unlinked(d, requeued), Unlinked(d, {d}), LeavesLink(d, x), deliver)
  {
    hide Installed;
    var w, v, plan := Unlinked(d, requeued), Unlinked(d, {d}), LeavesLink(d, x);
    LeavesLinkDoes(d, x);
    NothingHeldUp(w.local, deliver.local.time);
    NothingHeldUp(w.remote, deliver.remote.time);
    forall p
      ensures At(v.remote, p) == DeletedAt(w.remote, plan.Doing(DeleteRemote), plan.Undone(), deliver.remote.time, p)
    {
      assert !IsDir(At(w.remote, p));
    }
    assert CommitsFrom(w, v, plan, deliver, w.local, w.remote);
  }

  // The local user deletes a directory with a symbolic link in it.
  function Uprooted(d: Path, x: Path): World {
    World(map[d := D, x := L], map[], map[d := D, x := L], {d, x}, map[])
  }

  function WouldUproot(d: Path, x: Path): Plan {
    Plan(map[d := Act(DeleteRemote, Missing, D, Missing), x := Act(DeleteRemote, Missing, L, Missing)], {})
  }

  // Everything can be looked at, but the link keeps the directory from going, in this cycle and every
  // later one.
  lemma LinkKeepsDirectory(d: Path, x: Path, deliver: Transport)
    requires Setting(d, x)
    ensures Planned(Uprooted(d, x), WouldUproot(d, x), Basis({d, x}, NothingIgnored, map[], map[d := D, x := L]))
    ensures Accessible(Uprooted(d, x).local, d) && Accessible(Uprooted(d, x).local, x)
    ensures !Feasible(Uprooted(d, x), WouldUproot(d, x), deliver)
  {
    hide Planned;
    var w, plan := Uprooted(d, x), WouldUproot(d, x);
    assert x != d;
    WouldUprootIsPlanned(d, x);
    assert plan.Doing(Push) == {} && d in plan.GoneRemote() && x !in plan.GoneRemote();
    HeldIsAlike(w.remote, {}, {}, deliver.remote.time, x);
    assert Above(d, x) && InstalledAt(w.remote, w.local, plan.Doing(Push), deliver.remote, x).Present?;
  }

  lemma WouldUprootIsPlanned(d: Path, x: Path)
    requires Setting(d, x)
    ensures Planned(Uprooted(d, x), WouldUproot(d, x), Basis({d, x}, NothingIgnored, map[], map[d := D, x := L]))
  {
    hide Planned;
    assert x != d;
    PlannedInFull(Uprooted(d, x), WouldUproot(d, x), d, x);
  }

  // ---------------------------------------------------------------- both conflicts not recorded

  // The two cycles whose conflict is not recorded do commit.
  lemma TroubledCyclesCommit(d: Path, x: Path, deliver: Transport)
    requires Setting(d, x)
    ensures Feasible(Replaced(d, x), Empties(d, x), deliver)
    ensures Feasible(Swapped(d, x), Fills(d, x), deliver)
  {
    assert x != d;
    var w, plan := Replaced(d, x), Empties(d, x);
    assert plan.Doing(Push) == {} && plan.Doing(Pull) == {} && plan.Doing(DeleteLocal) == {x} && plan.Doing(DeleteRemote) == {};
    forall q | Above(x, q) ensures InstalledAt(w.local, w.remote, {}, deliver.local, q).Missing? {}
    var next := Fills(d, x);
    assert next.Doing(Push) == {} && next.Doing(Pull) == {x} && next.Doing(DeleteLocal) == {} && next.Doing(DeleteRemote) == {};
  }
}
