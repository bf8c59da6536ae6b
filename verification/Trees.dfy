/**
 Paths as component lists, and the tree shape of a replica: a path can only be present below
 directories.  Installing creates what is missing above the path; deleting works deepest first.
 */
module Trees {
  import opened Wrappers
  import opened Journal
  import opened Entries
  import opened Reconcile

  // `a` is a strict ancestor of `p`: as text, `p` starts with `a/`.
  predicate Above(a: Path, p: Path) {
    0 < |a| < |p| && p[..|a|] == a
  }

  predicate Within(p: Path, directory: Path) {
    p == directory || Above(directory, p)
  }

  lemma AboveTransitive(a: Path, b: Path, c: Path)
    requires Above(a, b) && Above(b, c)
    ensures Above(a, c)
  {
    assert c[..|a|] == c[..|b|][..|a|];
  }

  // Two ancestors of one path lie on one line.
  lemma AncestorsOnALine(a: Path, b: Path, p: Path)
    requires Within(p, a) && Within(p, b)
    ensures a == b || Above(a, b) || Above(b, a)
  {
    if |a| <= |b| {
      assert b[..|a|] == p[..|b|][..|a|] == p[..|a|];
    } else {
      assert a[..|b|] == p[..|a|][..|b|] == p[..|b|];
    }
  }

  predicate IsDir(s: State) {
    s.Present? && s.entry.kind.Dir?
  }

  // Whatever is present lies below directories only.
  ghost predicate Closed(tree: Tree) {
    forall a, p | Above(a, p) && At(tree, p).Present? :: IsDir(At(tree, a))
  }

  // ---------------------------------------------------------------- top-level paths of a batch

  predicate TopLevel(paths: set<Path>, p: Path) {
    p in paths && forall other | other in paths :: !Above(other, p)
  }

  // Every path of a batch is at or below exactly one top-level path of the batch.
  lemma {:induction false} TopLevelOf(paths: set<Path>, p: Path) returns (top: Path)
    requires p in paths
    ensures TopLevel(paths, top) && Within(p, top)
    ensures forall other | TopLevel(paths, other) && Within(p, other) :: other == top
    decreases |p|
  {
    if TopLevel(paths, p) {
      top := p;
    } else {
      var above :| above in paths && Above(above, p);
      top := TopLevelOf(paths, above);
      if top != above { AboveTransitive(top, above, p); }
    }
    forall other | TopLevel(paths, other) && Within(p, other)
      ensures other == top
    {
      AncestorsOnALine(other, top, p);
    }
  }

  method TopLevelPaths(paths: seq<Path>) returns (top: seq<Path>)
    ensures forall p :: p in top <==> TopLevel(ToSet(paths), p)
    ensures Distinct(paths) ==> Distinct(top)
  {
    top := [];
    for i := 0 to |paths|
      invariant forall p :: p in top <==> p in paths[..i] && TopLevel(ToSet(paths), p)
      invariant Distinct(paths) ==> Distinct(top)
    {
      assert paths[..i + 1] == paths[..i] + [paths[i]];
      if forall other | other in paths :: !Above(other, paths[i]) {
        assert Distinct(paths) ==> paths[i] !in paths[..i];
        top := top + [paths[i]];
      }
    }
    assert paths[..|paths|] == paths;
  }

  // ---------------------------------------------------------------- modification times

  // A directory carries the time of the last change directly in it.
  function Touched(s: State, time: int): State {
    if IsDir(s) then Present(s.entry.(mtime := Some(time))) else s
  }

  // What is created above an installed path where nothing was.
  const NEW_DIRECTORY := Present(Entry(Dir, None, None, None, None, None, false))

  // The same entry, up to the time of a directory.
  predicate Alike(a: State, b: State) {
    a == b || (IsDir(a) && IsDir(b) && a.entry.(mtime := None) == b.entry.(mtime := None))
  }

  // The path directly in `a` on the way to `p`.
  function Child(a: Path, p: Path): Path
    requires Above(a, p)
  {
    p[..|a| + 1]
  }

  predicate DirectlyIn(p: Path, directory: Path) {
    Above(directory, p) && |p| == |directory| + 1
  }

  // Putting something at `p` creates or replaces an entry directly in `a`.
  predicate Stirred(tree: Tree, a: Path, p: Path) {
    Above(a, p) && (Child(a, p) == p || At(tree, Child(a, p)).Missing?)
  }

  // Installing and deleting elsewhere changes `p` all the same: it is created as a directory, or it
  // is a directory in which an entry is created, replaced or deleted.
  predicate Disturbed(tree: Tree, installed: set<Path>, deleted: set<Path>, p: Path) {
    if At(tree, p).Missing? then exists q | q in installed :: Above(p, q)
    else IsDir(At(tree, p))
         && ((exists q | q in installed :: Stirred(tree, p, q)) || (exists q | q in deleted :: DirectlyIn(q, p)))
  }

  // What is left at a path that is itself neither installed nor deleted.
  function HeldAt(tree: Tree, installed: set<Path>, deleted: set<Path>, time: Path -> int, p: Path): State {
    if !Disturbed(tree, installed, deleted, p) then At(tree, p)
    else Touched(if At(tree, p).Missing? then NEW_DIRECTORY else At(tree, p), time(p))
  }

  lemma HeldIsAlike(tree: Tree, installed: set<Path>, deleted: set<Path>, time: Path -> int, p: Path)
    ensures var s := HeldAt(tree, installed, deleted, time, p);
            if At(tree, p).Present? then Alike(s, At(tree, p))
            else if exists q :: q in installed && Above(p, q) then IsDir(s)
            else s.Missing?
  {
  }

  lemma AlikeSaysTheSame(a: State, b: State, c: State)
    requires Alike(a, b)
    ensures ContentEqual(a, c) == ContentEqual(b, c) && ContentEqual(c, a) == ContentEqual(c, b)
    ensures IsDir(a) == IsDir(b) && a.Missing? == b.Missing? && IsSpecial(a) == IsSpecial(b)
    ensures Hashed(a) == Hashed(b) && Plain(a) == Plain(b) && IsFile(a) == IsFile(b)
  {
  }

  // On the way to anything at or below it, `c` is the child of what it lies directly in.
  lemma ChildOnTheWay(a: Path, p: Path, r: Path)
    requires Above(a, p) && Within(r, Child(a, p))
    ensures Above(a, r) && Child(a, r) == Child(a, p)
  {
    var c := Child(a, p);
    assert c[..|a|] == p[..|a|] == a;
    assert r[..|c|] == c;
    assert r[..|a|] == c[..|a|];
  }

  // ---------------------------------------------------------------- installing

  // The missing ancestors of a path.
  function MissingAbove(tree: Tree, p: Path): set<Path> {
    set i | 0 < i < |p| && At(tree, p[..i]).Missing? :: p[..i]
  }

  // Nothing but directories above a path, as far as there is anything.
  predicate Accessible(tree: Tree, p: Path) {
    forall i | 0 < i < |p| :: At(tree, p[..i]).Missing? || IsDir(At(tree, p[..i]))
  }

  // The paths in `kept` are as they were delivered, whatever is installed below them.
  function Install(tree: Tree, p: Path, s: State, kept: set<Path>, time: Path -> int): Tree {
    (map a | a in tree.Keys + MissingAbove(tree, p) :: if a in kept then At(tree, a) else HeldAt(tree, {p}, {}, time, a))[p := s]
  }

  lemma InstallAt(tree: Tree, p: Path, s: State, kept: set<Path>, time: Path -> int, q: Path)
    ensures At(Install(tree, p, s, kept, time), q)
            == if q == p then s else if q in kept then At(tree, q) else HeldAt(tree, {p}, {}, time, q)
  {
    if Above(q, p) { assert q == p[..|q|]; }
  }

  // Replacing anything but a directory, or putting something where nothing is, keeps the tree shape.
  lemma InstallKeepsClosed(tree: Tree, p: Path, s: State, kept: set<Path>, time: Path -> int)
    requires Closed(tree) && Accessible(tree, p) && s.Present? && p != []
    requires IsDir(At(tree, p)) ==> IsDir(s)
    requires forall q | q in kept :: At(tree, q).Present?
    ensures Closed(Install(tree, p, s, kept, time))
  {
    var after := Install(tree, p, s, kept, time);
    forall a, q | Above(a, q) && At(after, q).Present?
      ensures IsDir(At(after, a))
    {
      InstallAt(tree, p, s, kept, time, a);
      InstallAt(tree, p, s, kept, time, q);
      if q == p {
        assert a == p[..|a|];
      } else if At(tree, q).Missing? {
        AboveTransitive(a, q, p);
        assert a == p[..|a|];
      }
    }
  }

  // ---------------------------------------------------------------- deleting deepest first

  predicate DeepestFirst(paths: seq<Path>) {
    forall i, j | 0 <= i < j < |paths| :: |paths[i]| >= |paths[j]|
  }

  function RemoveAll(tree: Tree, paths: set<Path>): Tree {
    map p | p in tree && p !in paths :: tree[p]
  }

  ghost predicate EmptyBelow(tree: Tree, p: Path) {
    forall q | Above(p, q) :: At(tree, q).Missing?
  }

  // All that is present below the directories of the set is in the set too.
  ghost predicate ClosedDownwards(tree: Tree, paths: set<Path>) {
    forall p, q | p in paths && Above(p, q) && At(tree, q).Present? :: q in paths
  }

  // Deepest first, every directory of a batch is empty when its turn comes, if all that is in it is
  // in the batch too and not left undone; otherwise there is still something in it.
  lemma DeepestFirstEmpties(tree: Tree, paths: seq<Path>, undone: set<Path>, i: nat)
    requires Distinct(paths) && DeepestFirst(paths) && i < |paths|
    ensures EmptyBelow(RemoveAll(tree, ToSet(paths[..i]) - undone), paths[i])
            <==> forall q | Above(paths[i], q) && At(tree, q).Present? :: q in paths && q !in undone
  {
    var left := RemoveAll(tree, ToSet(paths[..i]) - undone);
    forall q | Above(paths[i], q) && At(tree, q).Present?
      ensures q in paths && q !in undone <==> At(left, q).Missing?
    {
      if q in paths {
        var j :| 0 <= j < |paths| && paths[j] == q;
        assert |paths[j]| > |paths[i]|;
        assert j < i;
        assert paths[j] in paths[..i];
      }
    }
  }

  lemma DistinctLast(paths: seq<Path>)
    requires paths != [] && Distinct(paths)
    ensures paths[|paths| - 1] !in paths[..|paths| - 1]
  {
  }

  lemma AppendShallowest(paths: seq<Path>, p: Path)
    ensures DeepestFirst(paths) && (forall x | x in paths :: |x| >= |p|) ==> DeepestFirst(paths + [p])
    ensures Distinct(paths) && p !in paths ==> Distinct(paths + [p])
  {
    assert forall i | 0 <= i < |paths| :: paths[i] in paths;
  }

  lemma RemovedAt(tree: Tree, paths: set<Path>, p: Path)
    ensures At(RemoveAll(tree, paths), p) == if p in paths then Missing else At(tree, p)
  {
  }

  function InsertDeepest(paths: seq<Path>, p: Path): (r: seq<Path>)
    requires DeepestFirst(paths)
    ensures DeepestFirst(r)
    ensures forall x :: x in r <==> x == p || x in paths
    ensures Distinct(paths) && p !in paths ==> Distinct(r)
  {
    if paths == [] then [p]
    else
      var n := |paths| - 1;
      assert forall x :: x in paths <==> x in paths[..n] || x == paths[n];
      assert Distinct(paths) ==> paths[n] !in paths[..n] by { if Distinct(paths) { DistinctLast(paths); } }
      if |p| > |paths[n]| then
        var r := InsertDeepest(paths[..n], p);
        AppendShallowest(r, paths[n]);
        r + [paths[n]]
      else
        AppendShallowest(paths, p);
        paths + [p]
  }

  // The order in which a batch of deletions is carried out.
  function SortDeepest(paths: seq<Path>): (r: seq<Path>)
    ensures DeepestFirst(r)
    ensures forall x :: x in r <==> x in paths
    ensures Distinct(paths) ==> Distinct(r)
  {
    if paths == [] then []
    else
      var n := |paths| - 1;
      assert forall x :: x in paths <==> x in paths[..n] || x == paths[n];
      InsertDeepest(SortDeepest(paths[..n]), paths[n])
  }

  // What a batch of deletions leaves at a path.  Deletions that are left undone are attempted all the
  // same: the entry is moved aside and back.
  function DeletedAt(tree: Tree, paths: set<Path>, undone: set<Path>, time: Path -> int, p: Path): State {
    if p in paths && p !in undone then Missing else HeldAt(tree, {}, paths, time, p)
  }

  // The remote side leaves the deletion of symbolic links undone: it expects the length of the target
  // for their size, and finds none when it checks what it has moved aside.
  function Undeleted(tree: Tree, paths: set<Path>, keepsLinks: bool): set<Path> {
    set p | p in paths && keepsLinks && IsLink(At(tree, p))
  }

  function Delete(tree: Tree, p: Path, undone: bool, time: Path -> int): Tree {
    map q | q in tree && (q != p || undone) :: if DirectlyIn(p, q) then Touched(tree[q], time(q)) else tree[q]
  }

  lemma DeleteStep(tree: Tree, after: Tree, done: set<Path>, undone: set<Path>, p: Path, time: Path -> int, q: Path)
    requires At(after, q) == DeletedAt(tree, done, undone, time, q) && p !in done + undone
    ensures At(Delete(after, p, false, time), q) == DeletedAt(tree, done + {p}, undone, time, q)
    ensures !IsDir(At(tree, p)) ==>
              At(Delete(after, p, true, time), q) == DeletedAt(tree, done + {p}, undone + {p}, time, q)
  {
    assert p in done + {p};
    if exists r :: r in done && DirectlyIn(r, q) {
      var r :| r in done && DirectlyIn(r, q);
      assert r in done + {p};
    }
  }

  lemma DeletedIsRemoved(tree: Tree, paths: set<Path>, undone: set<Path>, time: Path -> int, p: Path)
    ensures DeletedAt(tree, paths, undone, time, p).Present? <==> At(RemoveAll(tree, paths - undone), p).Present?
  {
    RemovedAt(tree, paths - undone, p);
  }

  lemma StillPresent(tree: Tree, after: Tree, done: set<Path>, undone: set<Path>, time: Path -> int)
    requires forall p :: At(after, p) == DeletedAt(tree, done, undone, time, p)
    ensures forall p :: At(after, p).Present? <==> At(RemoveAll(tree, done - undone), p).Present?
  {
    forall p ensures At(after, p).Present? <==> At(RemoveAll(tree, done - undone), p).Present? {
      DeletedIsRemoved(tree, done, undone, time, p);
    }
  }

  // What has been left undone so far is all that will be, among the paths whose turn has come.
  lemma UndeletedSoFar(tree: Tree, ordered: seq<Path>, i: nat, keepsLinks: bool)
    requires i < |ordered| && Distinct(ordered)
    ensures ordered[i] !in ToSet(ordered[..i]) + Undeleted(tree, ToSet(ordered[..i]), keepsLinks)
    ensures ToSet(ordered[..i + 1]) == ToSet(ordered[..i]) + {ordered[i]}
    ensures Undeleted(tree, ToSet(ordered[..i + 1]), keepsLinks)
            == Undeleted(tree, ToSet(ordered[..i]), keepsLinks)
               + if keepsLinks && IsLink(At(tree, ordered[i])) then {ordered[i]} else {}
    ensures ToSet(ordered[..i]) - Undeleted(tree, ToSet(ordered[..i]), keepsLinks)
            == ToSet(ordered[..i]) - Undeleted(tree, ToSet(ordered), keepsLinks)
  {
    assert forall p :: p in ToSet(ordered[..i]) ==> p in ordered;
  }

  // Deletes what the batch names, deepest first, and stops at a directory that is not empty.
  method DeleteBatch(tree: Tree, paths: seq<Path>, keepsLinks: bool, time: Path -> int)
    returns (after: Tree, undone: set<Path>, ok: bool)
    requires Distinct(paths) && Closed(tree) && forall p | p in paths :: At(tree, p).Present?
    ensures ok <==> ClosedDownwards(tree, ToSet(paths) - Undeleted(tree, ToSet(paths), keepsLinks))
    ensures ok ==> undone == Undeleted(tree, ToSet(paths), keepsLinks)
    ensures ok ==> forall p :: At(after, p) == DeletedAt(tree, ToSet(paths), undone, time, p)
  {
    hide DeletedAt, HeldAt, Undeleted, EmptyBelow, ClosedDownwards, Closed, RemoveAll, Delete;
    var ordered := SortDeepest(paths);
    ghost var kept := Undeleted(tree, ToSet(paths), keepsLinks);
    assert ToSet(ordered) == ToSet(paths);
    after, undone, ok := tree, {}, true;
    NothingDeleted(tree, keepsLinks, time);
    assert ToSet(ordered[..0]) == {};
    UndeletedAreLinks(tree, ToSet(paths), keepsLinks);
    for i := 0 to |ordered|
      invariant undone == Undeleted(tree, ToSet(ordered[..i]), keepsLinks)
      invariant forall p :: At(after, p) == DeletedAt(tree, ToSet(ordered[..i]), undone, time, p)
      invariant forall j, q | 0 <= j < i && Above(ordered[j], q) && At(tree, q).Present? :: q in paths && q !in kept
    {
      var p := ordered[i];
      DeepestFirstEmpties(tree, ordered, kept, i);
      LeftSoFar(tree, after, ordered, i, keepsLinks, time);
      if exists q | q in after :: Above(p, q) && after[q].Present? {
        ghost var q :| q in after && Above(p, q) && after[q].Present?;
        NotEmptied(tree, ordered, kept, i, q);
        ok := false;
        return;
      }
      NothingBelow(after, RemoveAll(tree, ToSet(ordered[..i]) - kept), p);
      BatchStep(tree, after, ordered, i, keepsLinks, time);
      after := Delete(after, p, keepsLinks && IsLink(At(tree, p)), time);
      if keepsLinks && IsLink(At(tree, p)) { undone := undone + {p}; }
    }
    assert ordered[..|ordered|] == ordered;
    AllEmptied(tree, ordered, kept);
  }

  lemma NothingDeleted(tree: Tree, keepsLinks: bool, time: Path -> int)
    ensures Undeleted(tree, {}, keepsLinks) == {}
    ensures forall p :: DeletedAt(tree, {}, {}, time, p) == At(tree, p)
  {
  }

  lemma UndeletedAreLinks(tree: Tree, paths: set<Path>, keepsLinks: bool)
    ensures forall p | p in Undeleted(tree, paths, keepsLinks) :: IsLink(At(tree, p))
  {
  }

  lemma AllEmptied(tree: Tree, ordered: seq<Path>, kept: set<Path>)
    requires forall j, q | 0 <= j < |ordered| && Above(ordered[j], q) && At(tree, q).Present? :: q in ordered && q !in kept
    ensures ClosedDownwards(tree, ToSet(ordered) - kept)
  {
    forall p, q | p in ToSet(ordered) - kept && Above(p, q) && At(tree, q).Present?
      ensures q in ToSet(ordered) - kept
    {
      var j :| 0 <= j < |ordered| && ordered[j] == p;
    }
  }

  // What is left before a path's turn.
  lemma LeftSoFar(tree: Tree, after: Tree, ordered: seq<Path>, i: nat, keepsLinks: bool, time: Path -> int)
    requires i < |ordered| && Distinct(ordered)
    requires var undone := Undeleted(tree, ToSet(ordered[..i]), keepsLinks);
             forall p :: At(after, p) == DeletedAt(tree, ToSet(ordered[..i]), undone, time, p)
    ensures var left := RemoveAll(tree, ToSet(ordered[..i]) - Undeleted(tree, ToSet(ordered), keepsLinks));
            forall p :: At(after, p).Present? <==> At(left, p).Present?
  {
    UndeletedSoFar(tree, ordered, i, keepsLinks);
    StillPresent(tree, after, ToSet(ordered[..i]), Undeleted(tree, ToSet(ordered[..i]), keepsLinks), time);
  }

  // One more deletion of a batch.
  lemma BatchStep(tree: Tree, after: Tree, ordered: seq<Path>, i: nat, keepsLinks: bool, time: Path -> int)
    requires i < |ordered| && Distinct(ordered)
    requires var undone := Undeleted(tree, ToSet(ordered[..i]), keepsLinks);
             forall p :: At(after, p) == DeletedAt(tree, ToSet(ordered[..i]), undone, time, p)
    ensures var stays := keepsLinks && IsLink(At(tree, ordered[i]));
            var undone := Undeleted(tree, ToSet(ordered[..i + 1]), keepsLinks);
            && undone == Undeleted(tree, ToSet(ordered[..i]), keepsLinks) + (if stays then {ordered[i]} else {})
            && forall q :: At(Delete(after, ordered[i], stays, time), q)
                           == DeletedAt(tree, ToSet(ordered[..i + 1]), undone, time, q)
  {
    hide DeletedAt, Delete;
    UndeletedSoFar(tree, ordered, i, keepsLinks);
    var p, done := ordered[i], ToSet(ordered[..i + 1]);
    var next, undone := Delete(after, p, keepsLinks && IsLink(At(tree, p)), time), Undeleted(tree, done, keepsLinks);
    var before, kept := ToSet(ordered[..i]), Undeleted(tree, ToSet(ordered[..i]), keepsLinks);
    assert done == before + {p} && undone == if keepsLinks && IsLink(At(tree, p)) then kept + {p} else kept;
    forall q
      ensures At(next, q) == DeletedAt(tree, done, undone, time, q)
    {
      DeleteStep(tree, after, before, kept, p, time, q);
    }
  }

  // Something is left in a directory of the batch.
  lemma NotEmptied(tree: Tree, ordered: seq<Path>, kept: set<Path>, i: nat, q: Path)
    requires Closed(tree) && i < |ordered| && (forall p | p in kept :: IsLink(At(tree, p)))
    requires Above(ordered[i], q) && At(RemoveAll(tree, ToSet(ordered[..i]) - kept), q).Present?
    requires DeepestFirst(ordered)
    ensures !ClosedDownwards(tree, ToSet(ordered) - kept)
  {
    RemovedAt(tree, ToSet(ordered[..i]) - kept, q);
    assert IsDir(At(tree, ordered[i])) && ordered[i] in ToSet(ordered) - kept;
  }

  lemma NothingBelow(after: Tree, left: Tree, p: Path)
    requires forall q :: At(after, q).Present? <==> At(left, q).Present?
    requires !exists q :: q in after && Above(p, q) && after[q].Present?
    ensures EmptyBelow(left, p)
  {
    forall q | Above(p, q) ensures At(left, q).Missing? {
      assert At(after, q).Missing?;
    }
  }

  // A set of paths as a list without repetition; its order is not modelled.
  method Listing(paths: set<Path>) returns (r: seq<Path>)
    ensures Distinct(r) && ToSet(r) == paths
  {
    r := [];
    var left := paths;
    while left != {}
      invariant Distinct(r) && ToSet(r) + left == paths && ToSet(r) !! left
      decreases left
    {
      var p :| p in left;
      AppendShallowest(r, p);
      assert ToSet(r + [p]) == ToSet(r) + {p};
      r, left := r + [p], left - {p};
    }
  }
}
