/**
 Polling watchers: the difference of two snapshots as a list of events, and what a reader who
 applies the events one by one sees in between.
 */
module SnapshotDiff {
  import opened Wrappers
  import opened Journal
  import opened Reconcile
  import opened Trees

  datatype Signature = Signature(directory: bool, identity: string)

  type Snapshot = map<Path, Signature>

  datatype Change = Deleted(path: Path) | Created(path: Path) | Modified(path: Path)

  // A reader removes what was deleted and reads anew what was created or modified.
  function Apply(seen: Snapshot, change: Change, current: Snapshot): Snapshot {
    match change
    case Deleted(p) => seen - {p}
    case Created(p) => if p in current then seen[p := current[p]] else seen
    case Modified(p) => if p in current then seen[p := current[p]] else seen
  }

  function Replay(seen: Snapshot, changes: seq<Change>, current: Snapshot): Snapshot {
    if changes == [] then seen
    else Apply(Replay(seen, changes[..|changes| - 1], current), changes[|changes| - 1], current)
  }

  predicate ShallowestFirst(paths: seq<Path>) {
    forall i, j | 0 <= i < j < |paths| :: |paths[i]| <= |paths[j]|
  }

  // Deletions deepest first, creations shallowest first, then modifications; both watchers order
  // paths of the same depth in their own way.
  datatype Diff = Diff(deleted: seq<Path>, created: seq<Path>, modified: seq<Path>) {
    function Changes(): (r: seq<Change>)
      ensures |r| == |deleted| + |created| + |modified|
    {
      seq(|deleted|, i requires 0 <= i < |deleted| => Deleted(deleted[i]))
      + seq(|created|, i requires 0 <= i < |created| => Created(created[i]))
      + seq(|modified|, i requires 0 <= i < |modified| => Modified(modified[i]))
    }
  }

  ghost predicate IsDiff(d: Diff, previous: Snapshot, current: Snapshot) {
    && Distinct(d.deleted) && DeepestFirst(d.deleted) && Distinct(d.created) && ShallowestFirst(d.created) && Distinct(d.modified)
    && (forall p :: p in d.deleted <==> p in previous && p !in current)
    && (forall p :: p in d.created <==> p in current && p !in previous)
    && (forall p :: p in d.modified <==> p in current && p in previous && previous[p] != current[p])
  }

  // ---------------------------------------------------------------- what a reader sees after n events

  function Min(a: int, b: int): int {
    if a < b then a else b
  }

  // The previous snapshot without what is deleted so far, with what is created and modified so far
  // as in the current snapshot.
  function SeenWith(previous: Snapshot, current: Snapshot, deleted: seq<Path>, created: seq<Path>, modified: seq<Path>): Snapshot {
    map p | p in previous.Keys + current.Keys
            && if p in previous then p !in deleted else p in created ::
      if p in current && (p !in previous || p in modified) then current[p] else previous[p]
  }

  // After `n` changes: deletions come first, then creations, then modifications.
  function SeenAfter(d: Diff, previous: Snapshot, current: Snapshot, n: nat): Snapshot {
    var a, b := |d.deleted|, |d.deleted| + |d.created|;
    SeenWith(previous, current,
             d.deleted[..Min(n, a)],
             if n <= a then [] else d.created[..Min(n - a, |d.created|)],
             if n <= b then [] else d.modified[..Min(n - b, |d.modified|)])
  }

  lemma {:induction false} ReplayIsSeenAfter(d: Diff, previous: Snapshot, current: Snapshot, n: nat)
    requires IsDiff(d, previous, current) && n <= |d.Changes()|
    ensures Replay(previous, d.Changes()[..n], current) == SeenAfter(d, previous, current, n)
    decreases n
  {
    if n == 0 {
      assert SeenAfter(d, previous, current, 0) == previous;
    } else {
      ReplayIsSeenAfter(d, previous, current, n - 1);
      ReplayStep(previous, d.Changes(), current, n - 1);
      SeenAfterStep(d, previous, current, n - 1);
    }
  }

  lemma ReplayStep(seen: Snapshot, changes: seq<Change>, current: Snapshot, k: nat)
    requires k < |changes|
    ensures Replay(seen, changes[..k + 1], current) == Apply(Replay(seen, changes[..k], current), changes[k], current)
  {
    assert changes[..k + 1][..k] == changes[..k];
  }

  lemma SeenAfterStep(d: Diff, previous: Snapshot, current: Snapshot, k: nat)
    requires IsDiff(d, previous, current) && k < |d.Changes()|
    ensures SeenAfter(d, previous, current, k + 1) == Apply(SeenAfter(d, previous, current, k), d.Changes()[k], current)
  {
    if k < |d.deleted| {
      DeleteStep(d, previous, current, k);
    } else if k < |d.deleted| + |d.created| {
      CreateStep(d, previous, current, k);
    } else {
      ModifyStep(d, previous, current, k);
    }
  }

  lemma Snoc<T>(s: seq<T>, i: nat)
    requires i < |s|
    ensures s[..i + 1] == s[..i] + [s[i]] && s[i] in s
  {
  }

  lemma DeletedMore(previous: Snapshot, current: Snapshot, deleted: seq<Path>, p: Path)
    requires p in previous
    ensures SeenWith(previous, current, deleted + [p], [], []) == SeenWith(previous, current, deleted, [], []) - {p}
  {
  }

  lemma CreatedMore(previous: Snapshot, current: Snapshot, deleted: seq<Path>, created: seq<Path>, p: Path)
    requires p in current && p !in previous
    ensures SeenWith(previous, current, deleted, created + [p], [])
            == SeenWith(previous, current, deleted, created, [])[p := current[p]]
  {
  }

  lemma ModifiedMore(previous: Snapshot, current: Snapshot, deleted: seq<Path>, created: seq<Path>, modified: seq<Path>, p: Path)
    requires p in current && p in previous && p !in deleted
    ensures SeenWith(previous, current, deleted, created, modified + [p])
            == SeenWith(previous, current, deleted, created, modified)[p := current[p]]
  {
  }

  lemma DeleteStep(d: Diff, previous: Snapshot, current: Snapshot, k: nat)
    requires IsDiff(d, previous, current) && k < |d.deleted|
    ensures SeenAfter(d, previous, current, k + 1) == SeenAfter(d, previous, current, k) - {d.deleted[k]}
  {
    hide SeenWith;
    Snoc(d.deleted, k);
    DeletedMore(previous, current, d.deleted[..k], d.deleted[k]);
  }

  lemma CreateStep(d: Diff, previous: Snapshot, current: Snapshot, k: nat)
    requires IsDiff(d, previous, current) && |d.deleted| <= k < |d.deleted| + |d.created|
    ensures var p := d.created[k - |d.deleted|];
            p in current && SeenAfter(d, previous, current, k + 1) == SeenAfter(d, previous, current, k)[p := current[p]]
  {
    hide SeenWith;
    var i := k - |d.deleted|;
    Snoc(d.created, i);
    assert i == 0 ==> d.created[..i] == [];
    CreatedMore(previous, current, d.deleted[..|d.deleted|], d.created[..i], d.created[i]);
  }

  lemma ModifyStep(d: Diff, previous: Snapshot, current: Snapshot, k: nat)
    requires IsDiff(d, previous, current) && |d.deleted| + |d.created| <= k < |d.deleted| + |d.created| + |d.modified|
    ensures var p := d.modified[k - |d.deleted| - |d.created|];
            p in current && SeenAfter(d, previous, current, k + 1) == SeenAfter(d, previous, current, k)[p := current[p]]
  {
    hide SeenWith;
    var i := k - |d.deleted| - |d.created|;
    Snoc(d.modified, i);
    assert i == 0 ==> d.modified[..i] == [];
    assert |d.created| == 0 ==> d.created[..0] == [];
    assert d.deleted[..|d.deleted|] == d.deleted;
    ModifiedMore(previous, current, d.deleted[..|d.deleted|], d.created[..|d.created|], d.modified[..i], d.modified[i]);
  }

  // Applying all events to the previous snapshot gives the current one.
  lemma ReplayGivesCurrent(d: Diff, previous: Snapshot, current: Snapshot)
    requires IsDiff(d, previous, current)
    ensures Replay(previous, d.Changes(), current) == current
  {
    var n := |d.Changes()|;
    assert d.Changes()[..n] == d.Changes();
    assert d.deleted[..|d.deleted|] == d.deleted && d.created[..|d.created|] == d.created && d.modified[..|d.modified|] == d.modified;
    ReplayIsSeenAfter(d, previous, current, n);
  }

  // ---------------------------------------------------------------- in between

  ghost predicate ParentClosed(s: Snapshot) {
    forall a, p | Above(a, p) && p in s :: a in s
  }

  ghost predicate TreeShaped(s: Snapshot) {
    forall a, p | Above(a, p) && p in s :: a in s && s[a].directory
  }

  // No reader ever sees a path without the paths above it.
  lemma EveryMomentIsParentClosed(d: Diff, previous: Snapshot, current: Snapshot, n: nat)
    requires IsDiff(d, previous, current) && ParentClosed(previous) && ParentClosed(current) && n <= |d.Changes()|
    ensures ParentClosed(Replay(previous, d.Changes()[..n], current))
  {
    ReplayIsSeenAfter(d, previous, current, n);
    var s := SeenAfter(d, previous, current, n);
    forall a, p | Above(a, p) && p in s
      ensures a in s
    {
      if a in previous {
        AncestorNotDeleted(d, previous, current, n, a, p);
      } else {
        assert p !in previous;
        AncestorCreated(d, current, previous, Min(n - |d.deleted|, |d.created|), a, p);
      }
    }
  }

  lemma AncestorNotDeleted(d: Diff, previous: Snapshot, current: Snapshot, n: nat, a: Path, p: Path)
    requires IsDiff(d, previous, current) && ParentClosed(previous) && ParentClosed(current) && n <= |d.Changes()|
    requires Above(a, p) && p in SeenAfter(d, previous, current, n)
    ensures a !in d.deleted[..Min(n, |d.deleted|)]
  {
  }

  lemma AncestorCreated(d: Diff, current: Snapshot, previous: Snapshot, m: nat, a: Path, p: Path)
    requires IsDiff(d, previous, current) && ParentClosed(current) && m <= |d.created|
    requires Above(a, p) && p in d.created[..m] && a !in previous
    ensures a in d.created[..m]
  {
    var i :| 0 <= i < m && d.created[i] == p;
    assert p in d.created && a in current && a in d.created;
    var j :| 0 <= j < |d.created| && d.created[j] == a;
    assert j < i;
  }

  // A path that stays but turns into a directory only shows as one after what was created in it.
  ghost predicate ChildBeforeDirectory(previous: Snapshot, current: Snapshot, a: Path, p: Path) {
    Above(a, p) && p in current && p !in previous && a in previous && !previous[a].directory
  }

  // When the snapshots are proper trees, every moment is one exactly if nothing was created below a
  // path that stayed and was no directory before.
  lemma EveryMomentIsATree(d: Diff, previous: Snapshot, current: Snapshot)
    requires IsDiff(d, previous, current) && TreeShaped(previous) && TreeShaped(current)
    ensures (forall n: nat | n <= |d.Changes()| :: TreeShaped(Replay(previous, d.Changes()[..n], current)))
            <==> !(exists a, p :: ChildBeforeDirectory(previous, current, a, p))
  {
    if exists a, p :: ChildBeforeDirectory(previous, current, a, p) {
      var a, p :| ChildBeforeDirectory(previous, current, a, p);
      ChildShowsFirst(d, previous, current, a, p);
    } else {
      forall n: nat | n <= |d.Changes()|
        ensures TreeShaped(Replay(previous, d.Changes()[..n], current))
      {
        MomentIsATree(d, previous, current, n);
      }
    }
  }

  lemma ChildShowsFirst(d: Diff, previous: Snapshot, current: Snapshot, a: Path, p: Path)
    requires IsDiff(d, previous, current) && TreeShaped(current) && ChildBeforeDirectory(previous, current, a, p)
    ensures exists n: nat :: n <= |d.Changes()| && !TreeShaped(Replay(previous, d.Changes()[..n], current))
  {
    var n := |d.deleted| + |d.created|;
    ReplayIsSeenAfter(d, previous, current, n);
    assert d.created[..|d.created|] == d.created && d.deleted[..|d.deleted|] == d.deleted;
    var s := SeenAfter(d, previous, current, n);
    assert p in d.created && p in s;
    assert a in current && a in s && s[a] == previous[a];
  }

  lemma MomentIsATree(d: Diff, previous: Snapshot, current: Snapshot, n: nat)
    requires IsDiff(d, previous, current) && TreeShaped(previous) && TreeShaped(current) && n <= |d.Changes()|
    requires !(exists a, p :: ChildBeforeDirectory(previous, current, a, p))
    ensures TreeShaped(Replay(previous, d.Changes()[..n], current))
  {
    EveryMomentIsParentClosed(d, previous, current, n);
    ReplayIsSeenAfter(d, previous, current, n);
    var s := SeenAfter(d, previous, current, n);
    forall a, p | Above(a, p) && p in s
      ensures a in s && s[a].directory
    {
      assert a in s;
      if p !in previous { assert !ChildBeforeDirectory(previous, current, a, p); }
      if p in previous && p !in current && a in current && s[a] == current[a] {
        NothingModifiedBeforeDeletions(d, previous, current, n, p);
      }
    }
  }

  // While something to be deleted is still seen, nothing has been created or modified.
  lemma NothingModifiedBeforeDeletions(d: Diff, previous: Snapshot, current: Snapshot, n: nat, p: Path)
    requires IsDiff(d, previous, current) && n <= |d.Changes()|
    requires p in SeenAfter(d, previous, current, n) && p in previous && p !in current
    ensures n < |d.deleted|
  {
  }

  // ---------------------------------------------------------------- computing the difference

  function Reversed(paths: seq<Path>): (r: seq<Path>)
    ensures |r| == |paths| && forall i | 0 <= i < |r| :: r[i] == paths[|paths| - 1 - i]
  {
    seq(|paths|, i requires 0 <= i < |paths| => paths[|paths| - 1 - i])
  }

  lemma ReversedOrder(paths: seq<Path>)
    requires Distinct(paths) && DeepestFirst(paths)
    ensures Distinct(Reversed(paths)) && ShallowestFirst(Reversed(paths))
    ensures forall p :: p in Reversed(paths) <==> p in paths
  {
    var r := Reversed(paths);
    forall p | p in paths
      ensures p in r
    {
      var i :| 0 <= i < |paths| && paths[i] == p;
      assert r[|paths| - 1 - i] == p;
    }
  }

  method SnapshotEvents(previous: Snapshot, current: Snapshot) returns (d: Diff)
    ensures IsDiff(d, previous, current)
    ensures Replay(previous, d.Changes(), current) == current
  {
    var gone, arrived := previous.Keys - current.Keys, current.Keys - previous.Keys;
    var changed := set p | p in previous.Keys * current.Keys && previous[p] != current[p];
    var deleted := Listing(gone);
    var created := Listing(arrived);
    var modified := Listing(changed);
    assert forall p :: p in deleted <==> p in ToSet(deleted);
    assert forall p :: p in created <==> p in ToSet(created);
    assert forall p :: p in modified <==> p in ToSet(modified);
    ReversedOrder(SortDeepest(created));
    d := Diff(SortDeepest(deleted), Reversed(SortDeepest(created)), modified);
    ReplayGivesCurrent(d, previous, current);
  }
}
