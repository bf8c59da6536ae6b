/**
 Three kinds of trouble that need nobody else to write: a deletion that only the second cycle makes,
 and conflicts whose capture the cycle itself prevents.  Each is shown for every directory at the
 root and every path directly in it.
 */
module CycleExample {
  import opened Wrappers
  import opened Journal
  import opened Entries
  import opened Reconcile
  import opened Planning
  import opened Trees
  import opened Cycle

  const D := Present(Entry(EntryKind.Dir, None, None, None, None, None, false))
  const X := Present(Entry(EntryKind.File, Some(1), Some(1), Some(1), None, Some("h"), false))

  function NothingIgnored(p: Path): bool { false }

  function Copied(p: Path, s: State): State {
    if s.Present? then Present(s.entry.(placeholder := false)) else s
  }

  function Later(p: Path): int { 2 }

  const CARRIED := Delivery(Copied, Later)
  const CARRIER := Transport(CARRIED, CARRIED)

  // A directory at the root and something directly in it.
  predicate Setting(d: Path, x: Path) {
    |d| == 1 && DirectlyIn(x, d)
  }

  lemma SettingExists()
    ensures Setting(["d"], ["d", "x"])
  {
    assert ["d", "x"][..1] == ["d"];
  }

  // Nothing but the two paths is there, and the directory if anything is in it.
  lemma SmallTreeIsClosed(d: Path, x: Path, tree: Tree)
    requires Setting(d, x) && tree.Keys <= {d, x} && (At(tree, x).Present? ==> IsDir(At(tree, d)))
    ensures Closed(tree)
  {
    forall a, p | Above(a, p) && At(tree, p).Present?
      ensures IsDir(At(tree, a))
    {
      assert p == x;
      assert a == x[..1] == d;
    }
  }

  // Seeing everything in full is one way to plan.
  lemma SeenInFull(base: State, local: State, remote: State)
    requires Hashed(local) && Hashed(remote)
    ensures LazyDecision(base, local, remote, local, remote) == Decide(base, local, remote)
    ensures SeenAs(local, local) && TrustIsSound(local, local, base)
    ensures SeenAs(remote, remote) && TrustIsSound(remote, remote, base)
  {
  }

  predicate DecidesAt(w: World, plan: Plan, p: Path) {
    p in plan.decisions && plan.decisions[p] == Decide(At(w.base, p), At(w.local, p), At(w.remote, p))
  }

  lemma PlannedInFull(w: World, plan: Plan, d: Path, x: Path)
    requires Setting(d, x) && Sound(w) && Defers(plan, w)
    requires w.local.Keys <= {d, x} && (At(w.local, x).Present? ==> IsDir(At(w.local, d)))
    requires w.remote.Keys <= {d, x} && (At(w.remote, x).Present? ==> IsDir(At(w.remote, d)))
    requires plan.decisions.Keys == {d, x} && DecidesAt(w, plan, d) && DecidesAt(w, plan, x)
    ensures Planned(w, plan, Basis({d, x}, NothingIgnored, w.local, w.remote))
  {
    hide LazyDecision, Decide, Closed, Defers, SeenAs, TrustIsSound;
    SmallTreeIsClosed(d, x, w.local);
    SmallTreeIsClosed(d, x, w.remote);
    SeenInFull(At(w.base, d), At(w.local, d), At(w.remote, d));
    SeenInFull(At(w.base, x), At(w.local, x), At(w.remote, x));
  }

  lemma CarrierIsReliable()
    ensures Reliable(CARRIER)
  {
  }

  lemma NothingHeldUp(tree: Tree, time: Path -> int)
    ensures forall p :: DeletedAt(tree, {}, {}, time, p) == At(tree, p)
    ensures forall source, deliver :: Installed(tree, tree, source, {}, deliver)
  {
  }

  // ---------------------------------------------------------------- a deletion put off

  // The remote side deleted a directory together with a file in it that was in conflict; the local
  // side deleted the file too.  The first cycle closes the conflict but, having seen it open, puts the
  // directory off; the second one deletes the directory.
  function Before(d: Path, x: Path): World {
    World(map[d := D, x := X], map[d := D], map[], {}, map[x := Record(BothModified, X, X)])
  }

  function Between(d: Path, x: Path): World {
    World(map[d := D, x := Missing], map[d := D], map[], {d}, map[])
  }

  const DELETION := Act(DeleteLocal, D, Missing, Missing)

  function First(d: Path, x: Path): Plan {
    Plan(map[d := DELETION, x := Act(UpdateBase, Missing, Missing, Missing)], {d})
  }

  function Second(d: Path, x: Path): Plan {
    Plan(map[d := DELETION, x := NoChange], {})
  }

  lemma FirstIsPlanned(d: Path, x: Path)
    requires Setting(d, x)
    ensures Planned(Before(d, x), First(d, x), Basis({d, x}, NothingIgnored, map[d := D], map[]))
  {
    hide Planned;
    assert x in Before(d, x).conflicts && Within(x, d) && x != d;
    PlannedInFull(Before(d, x), First(d, x), d, x);
  }

  lemma SecondIsPlanned(d: Path, x: Path)
    requires Setting(d, x)
    ensures Planned(Between(d, x), Second(d, x), Basis({d, x}, NothingIgnored, map[d := D], map[]))
  {
    hide Planned;
    assert x != d;
    PlannedInFull(Between(d, x), Second(d, x), d, x);
  }

  lemma FirstCommits(d: Path, x: Path)
    requires Setting(d, x)
    ensures Commits(Before(d, x), Between(d, x), First(d, x), CARRIER)
  {
    var w, v, plan := Before(d, x), Between(d, x), First(d, x);
    assert plan.Doing(Push) == {} && plan.Doing(Pull) == {};
    assert plan.Doing(DeleteLocal) == {} && plan.Doing(DeleteRemote) == {};
    assert plan.Completed() == {x} && plan.InConflict() == {};
    NothingHeldUp(w.local, Later);
    NothingHeldUp(w.remote, Later);
    assert CommitsFrom(w, v, plan, CARRIER, w.local, w.remote);
  }

  lemma FirstCovers(d: Path, x: Path)
    ensures NewTimes(Before(d, x), CARRIER)
    ensures forall p | !NothingIgnored(p) && p !in {d, x} :: Agreed(Before(d, x), p) && p !in Before(d, x).conflicts
  {
  }

  lemma SecondDoes(d: Path, x: Path)
    requires Setting(d, x)
    ensures Second(d, x).Doing(DeleteLocal) == {d}
  {
    assert x != d;
  }

  ghost predicate SecondDeletes(d: Path, x: Path) {
    && TwoCycles(Before(d, x), Between(d, x), First(d, x), Second(d, x),
                 Basis({d, x}, NothingIgnored, map[d := D], map[]), Basis({d, x}, NothingIgnored, map[d := D], map[]), CARRIER)
    && Second(d, x).Doing(DeleteLocal) == {d}
  }

  lemma DeletedInSecond(d: Path, x: Path)
    requires Setting(d, x)
    ensures SecondDeletes(d, x)
  {
    hide Planned, Commits, Reliable, NewTimes, Agreed;
    FirstIsPlanned(d, x);
    SecondIsPlanned(d, x);
    FirstCommits(d, x);
    FirstCovers(d, x);
    CarrierIsReliable();
    SecondDoes(d, x);
  }

  // For every such directory the second of two undisturbed cycles deletes it, and there is one.
  lemma SecondCycleDeletes()
    ensures forall d, x | Setting(d, x) :: SecondDeletes(d, x)
    ensures exists d, x :: Setting(d, x) && SecondDeletes(d, x)
  {
    hide SecondDeletes;
    forall d, x | Setting(d, x) { DeletedInSecond(d, x); }
    SettingExists();
    assert SecondDeletes(["d"], ["d", "x"]);
  }

  // ---------------------------------------------------------------- a directory the cycle works in

  // The remote user replaces a directory by a file.  The cycle deletes the local file in the
  // directory, which changes the time of the directory: its conflict is not recorded.
  function Replaced(d: Path, x: Path): World {
    World(map[d := D, x := X], map[d := D, x := X], map[d := X], {}, map[])
  }

  function Emptied(d: Path, x: Path): World {
    World(map[d := D, x := Missing], map[d := Touched(D, 2)], map[d := X], {d}, map[])
  }

  const FILE_DELETION := Act(DeleteLocal, X, Missing, Missing)

  function Empties(d: Path, x: Path): Plan {
    Plan(map[d := Conflict(KindDivergence, D, X), x := FILE_DELETION], {})
  }

  function Notices(d: Path, x: Path): Plan {
    Plan(map[d := Conflict(KindDivergence, Touched(D, 2), X), x := NoChange], {})
  }

  lemma EmptiesIsPlanned(d: Path, x: Path)
    requires Setting(d, x)
    ensures Planned(Replaced(d, x), Empties(d, x), Basis({d, x}, NothingIgnored, map[d := D, x := X], map[d := X]))
  {
    hide Planned;
    assert x != d;
    PlannedInFull(Replaced(d, x), Empties(d, x), d, x);
  }

  lemma NoticesIsPlanned(d: Path, x: Path)
    requires Setting(d, x)
    ensures Planned(Emptied(d, x), Notices(d, x), Basis({d, x}, NothingIgnored, map[d := Touched(D, 2)], map[d := X]))
  {
    hide Planned;
    assert x != d;
    PlannedInFull(Emptied(d, x), Notices(d, x), d, x);
  }

  lemma EmptiesDoes(d: Path, x: Path)
    requires Setting(d, x)
    ensures var plan := Empties(d, x);
            && plan.Doing(Push) == {} && plan.Doing(Pull) == {} && plan.Doing(DeleteRemote) == {}
            && plan.Doing(DeleteLocal) == {x} == plan.Completed() && plan.InConflict() == {d}
            && plan.Undone() == {} && plan.GoneRemote() == {}
  {
    assert x != d;
  }

  lemma EmptiesCommits(d: Path, x: Path)
    requires Setting(d, x)
    ensures Commits(Replaced(d, x), Emptied(d, x), Empties(d, x), CARRIER)
  {
    hide Installed, DeletedAt;
    var w, v, plan := Replaced(d, x), Emptied(d, x), Empties(d, x);
    assert x != d && D != Touched(D, 2);
    EmptiesDoes(d, x);
    NothingHeldUp(w.local, Later);
    NothingHeldUp(w.remote, Later);
    DeletedFrom(d, x);
    assert ClosedDownwards(w.local, {x}) by {
      forall q | Above(x, q) ensures At(w.local, q).Missing? {}
    }
    assert CommitsFrom(w, v, plan, CARRIER, w.local, w.remote);
  }

  lemma DeletedFrom(d: Path, x: Path)
    requires Setting(d, x)
    ensures forall p :: DeletedAt(map[d := D, x := X], {x}, {}, Later, p) == At(map[d := Touched(D, 2)], p)
  {
    assert x != d && x in {x} && DirectlyIn(x, d);
  }

  // For every such directory its conflict is not recorded in the first cycle but requeued, and is new
  // to the second one.
  lemma DirectoryConflictComesLater(d: Path, x: Path)
    requires Setting(d, x)
    ensures TwoCycles(Replaced(d, x), Emptied(d, x), Empties(d, x), Notices(d, x),
                      Basis({d, x}, NothingIgnored, map[d := D, x := X], map[d := X]),
                      Basis({d, x}, NothingIgnored, map[d := Touched(D, 2)], map[d := X]), CARRIER)
    ensures d in Empties(d, x).InConflict() && Emptied(d, x).conflicts == map[] && Emptied(d, x).requeued == {d}
    ensures IsNew(Notices(d, x), Emptied(d, x), d)
  {
    hide Planned, Commits, Reliable;
    EmptiesIsPlanned(d, x);
    NoticesIsPlanned(d, x);
    EmptiesCommits(d, x);
    CarrierIsReliable();
    assert x != d;
  }

  // ---------------------------------------------------------------- a directory the cycle creates

  // The local user deletes a file that the remote user replaces by a directory.  The cycle pulls what
  // is in the directory and so creates the directory too: the conflict is not recorded.
  function Swapped(d: Path, x: Path): World {
    World(map[d := X], map[], map[d := D, x := X], {}, map[])
  }

  function Filled(d: Path, x: Path): World {
    World(map[d := X, x := X], map[d := Touched(NEW_DIRECTORY, 2), x := X], map[d := D, x := X], {d}, map[])
  }

  function Fills(d: Path, x: Path): Plan {
    Plan(map[d := Conflict(DeleteVersusModify, Missing, D), x := Act(Pull, Missing, X, X)], {})
  }

  lemma FillsInstalls(d: Path, x: Path)
    requires Setting(d, x)
    ensures Installed(map[], Filled(d, x).local, map[d := D, x := X], {x}, CARRIED)
  {
    assert x != d && x in {x} && Above(d, x);
    forall p
      ensures At(Filled(d, x).local, p) == InstalledAt(map[], map[d := D, x := X], {x}, CARRIED, p)
    {
      if Above(p, x) { assert p == x[..1] == d; }
    }
  }

  lemma FillsIsPlanned(d: Path, x: Path)
    requires Setting(d, x)
    ensures Planned(Swapped(d, x), Fills(d, x), Basis({d, x}, NothingIgnored, map[], map[d := D, x := X]))
  {
    hide Planned;
    assert x != d;
    PlannedInFull(Swapped(d, x), Fills(d, x), d, x);
  }

  lemma FillsDoes(d: Path, x: Path)
    requires Setting(d, x)
    ensures var plan := Fills(d, x);
            && plan.Doing(Push) == {} && plan.Doing(DeleteLocal) == {} && plan.Doing(DeleteRemote) == {}
            && plan.Doing(Pull) == {x} == plan.Completed() && plan.InConflict() == {d}
            && plan.Undone() == {} && plan.GoneRemote() == {}
  {
    assert x != d;
  }

  lemma FillsCommits(d: Path, x: Path)
    requires Setting(d, x)
    ensures Commits(Swapped(d, x), Filled(d, x), Fills(d, x), CARRIER)
  {
    hide Installed, DeletedAt;
    var w, v, plan := Swapped(d, x), Filled(d, x), Fills(d, x);
    assert x != d;
    FillsDoes(d, x);
    NothingHeldUp(v.local, Later);
    NothingHeldUp(w.remote, Later);
    FillsInstalls(d, x);
    assert CommitsFrom(w, v, plan, CARRIER, v.local, w.remote);
  }

  // For every such directory its conflict is left unrecorded and requeued.
  lemma CreatedConflictIsRequeued(d: Path, x: Path)
    requires Setting(d, x)
    ensures Planned(Swapped(d, x), Fills(d, x), Basis({d, x}, NothingIgnored, map[], map[d := D, x := X]))
    ensures Commits(Swapped(d, x), Filled(d, x), Fills(d, x), CARRIER)
    ensures d in Fills(d, x).InConflict() && Filled(d, x).conflicts == map[] && Filled(d, x).requeued == {d}
  {
    hide Planned, Commits;
    FillsIsPlanned(d, x);
    FillsCommits(d, x);
    assert x != d;
  }
}
