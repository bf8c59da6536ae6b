/**
 Conflict records: capturing both versions of a path, and the table that keeps at most one
 unresolved record per path.
 */
module Conflicts {
  import opened Wrappers
  import opened Journal
  import opened Entries
  import opened Reconcile

  type Blob = seq<bv8>

  // The digest of a blob and the text of a link target; both rest on library code.
  datatype Codec = Codec(digest: Blob -> string, text: Blob -> string)

  // ---------------------------------------------------------------- capturing

  // The captured bytes are what the fingerprint describes.
  predicate BlobMatches(codec: Codec, s: State, blob: Option<Blob>) {
    match s
    case Missing => blob.None?
    case Present(e) =>
      match e.kind
      case File => blob.Some? && e.size == Some(|blob.value|) && e.hash == Some(codec.digest(blob.value))
      case Symlink => blob.Some? && e.linkTarget == Some(codec.text(blob.value))
      case _ => blob.None? || blob.value == []
  }

  datatype Capture = Capture(local: State, remote: State, localBlob: Option<Blob>, remoteBlob: Option<Blob>)

  // What a capture must hold: the bytes of a regular file, by length and digest; the target of a
  // link; no bytes of anything else.
  ghost predicate Describes(codec: Codec, s: State, blob: Option<Blob>) {
    && (blob.Some? && blob.value != [] ==> s.Present? && (s.entry.kind.File? || s.entry.kind.Symlink?))
    && (blob == Some([]) ==> s.Present?)
    && (s.Present? && (s.entry.kind.File? || s.entry.kind.Symlink?) ==> blob.Some?)
    && (IsFile(s) && blob.Some? ==> s.entry.size == Some(|blob.value|) && s.entry.hash == Some(codec.digest(blob.value)))
    && (IsLink(s) && blob.Some? ==> s.entry.linkTarget == Some(codec.text(blob.value)))
  }

  // Both versions of a planned conflict, read separately; nothing when either side no longer
  // matches the plan, or its bytes do not match its fingerprint.  A record needs at least one blob.
  method PrepareConflict(codec: Codec, planned: ConflictDecision,
                         localObserved: State, localBlob: Option<Blob>,
                         remoteBlob: Option<Blob>, remoteObserved: State)
    returns (captured: Option<Capture>)
    ensures captured.Some? <==>
      && AsPlanned(planned.local, localObserved) && AsPlanned(planned.remote, remoteObserved)
      && Describes(codec, localObserved, localBlob) && Describes(codec, remoteObserved, remoteBlob)
    ensures captured.Some? ==>
      && captured.value.local == localObserved && captured.value.remote == remoteObserved
      && captured.value.remoteBlob == remoteBlob
      && captured.value.localBlob == (if localBlob.None? && remoteBlob.None? then Some([]) else localBlob)
      && (IsFile(localObserved) ==> captured.value.localBlob.Some?
                                    && localObserved.entry.hash == Some(codec.digest(captured.value.localBlob.value)))
      && (IsFile(remoteObserved) ==> captured.value.remoteBlob.Some?
                                     && remoteObserved.entry.hash == Some(codec.digest(captured.value.remoteBlob.value)))
  {
    if !AsPlanned(planned.local, localObserved)
       || !AsPlanned(planned.remote, remoteObserved)
       || !BlobMatches(codec, localObserved, localBlob)
       || !BlobMatches(codec, remoteObserved, remoteBlob)
    {
      return None;
    }
    var kept := if localBlob.None? && remoteBlob.None? then Some([]) else localBlob;
    captured := Some(Capture(localObserved, remoteObserved, kept, remoteBlob));
  }

  // ---------------------------------------------------------------- the table

  // Identifiers are fixed-width hexadecimal strings; only their order matters here.
  datatype Row = Row(id: nat, path: Path, reason: Reason, capture: Capture, createdAt: int, resolvedAt: Option<int>)

  ghost predicate UniqueIds(rows: seq<Row>) {
    forall i, j | 0 <= i < j < |rows| :: rows[i].id != rows[j].id
  }

  ghost predicate OneOpenPerPath(rows: seq<Row>) {
    forall i, j | 0 <= i < j < |rows| && rows[i].resolvedAt.None? && rows[j].resolvedAt.None? ::
      rows[i].path != rows[j].path
  }

  // Sets the resolution time of the open rows chosen; a row already resolved keeps its own.
  function ResolveWhere(rows: seq<Row>, chosen: Row -> bool, now: int): (r: seq<Row>)
    ensures |r| == |rows|
    ensures forall i | 0 <= i < |rows| ::
              r[i] == if rows[i].resolvedAt.None? && chosen(rows[i]) then rows[i].(resolvedAt := Some(now)) else rows[i]
  {
    seq(|rows|, i requires 0 <= i < |rows| =>
      if rows[i].resolvedAt.None? && chosen(rows[i]) then rows[i].(resolvedAt := Some(now)) else rows[i])
  }

  // A later record of the same path: created later, or at the same time under a greater identifier.
  predicate Newer(a: Row, b: Row) {
    a.path == b.path && (a.createdAt > b.createdAt || (a.createdAt == b.createdAt && a.id > b.id))
  }

  predicate HasNewerOpen(rows: seq<Row>, row: Row) {
    exists j | 0 <= j < |rows| :: rows[j].resolvedAt.None? && Newer(rows[j], row)
  }

  // The migration's repair of a table that may hold several open records for one path.
  function Repair(rows: seq<Row>, now: int): seq<Row> {
    ResolveWhere(rows, row => HasNewerOpen(rows, row), now)
  }

  lemma {:induction false} NewestOpen(rows: seq<Row>, n: nat, i: nat) returns (k: nat)
    requires i < n <= |rows| && rows[i].resolvedAt.None?
    ensures k < n && rows[k].resolvedAt.None? && rows[k].path == rows[i].path
    ensures forall j | 0 <= j < n && rows[j].resolvedAt.None? :: !Newer(rows[j], rows[k])
    decreases n
  {
    if i == n - 1 {
      k := i;
      if exists j :: 0 <= j < n - 1 && rows[j].resolvedAt.None? && Newer(rows[j], rows[i]) {
        var j :| 0 <= j < n - 1 && rows[j].resolvedAt.None? && Newer(rows[j], rows[i]);
        k := NewestOpen(rows, n - 1, j);
      }
    } else {
      k := NewestOpen(rows, n - 1, i);
      if rows[n - 1].resolvedAt.None? && Newer(rows[n - 1], rows[k]) { k := n - 1; }
    }
  }

  // All other open records of the path are older, by creation time and then by identifier.
  ghost predicate IsNewest(rows: seq<Row>, i: nat)
    requires i < |rows|
  {
    forall j | 0 <= j < |rows| && j != i && rows[j].resolvedAt.None? && rows[j].path == rows[i].path ::
      rows[j].createdAt < rows[i].createdAt || (rows[j].createdAt == rows[i].createdAt && rows[j].id < rows[i].id)
  }

  lemma NewestIsUnsurpassed(rows: seq<Row>, i: nat)
    requires UniqueIds(rows) && i < |rows|
    ensures HasNewerOpen(rows, rows[i]) <==> !IsNewest(rows, i)
  {
    forall j | 0 <= j < |rows| && j != i ensures rows[j].id != rows[i].id {
      if j < i { assert rows[j].id != rows[i].id; } else { assert rows[i].id != rows[j].id; }
    }
    if HasNewerOpen(rows, rows[i]) {
      var j :| 0 <= j < |rows| && rows[j].resolvedAt.None? && Newer(rows[j], rows[i]);
      assert j != i;
    }
    if !IsNewest(rows, i) {
      var j :| 0 <= j < |rows| && j != i && rows[j].resolvedAt.None? && rows[j].path == rows[i].path
               && !(rows[j].createdAt < rows[i].createdAt || (rows[j].createdAt == rows[i].createdAt && rows[j].id < rows[i].id));
      assert Newer(rows[j], rows[i]);
    }
  }

  lemma OnlyOneIsNewest(rows: seq<Row>, i: nat, j: nat)
    requires i < j < |rows| && rows[i].path == rows[j].path && rows[i].resolvedAt.None? && rows[j].resolvedAt.None?
    ensures !IsNewest(rows, i) || !IsNewest(rows, j)
  {
  }

  lemma RepairedAt(rows: seq<Row>, now: int, i: nat)
    requires UniqueIds(rows)
    ensures |Repair(rows, now)| == |rows|
    ensures i < |rows| ==>
              Repair(rows, now)[i] == if rows[i].resolvedAt.None? && !IsNewest(rows, i) then rows[i].(resolvedAt := Some(now))
                                      else rows[i]
  {
    if i < |rows| { NewestIsUnsurpassed(rows, i); }
  }

  lemma SomeNewest(rows: seq<Row>, i: nat) returns (k: nat)
    requires UniqueIds(rows) && i < |rows| && rows[i].resolvedAt.None?
    ensures k < |rows| && rows[k].path == rows[i].path && rows[k].resolvedAt.None? && IsNewest(rows, k)
  {
    k := NewestOpen(rows, |rows|, i);
    NewestIsUnsurpassed(rows, k);
  }

  // On an arbitrary table, repair leaves open exactly the newest open record of every path that
  // had one, and touches nothing but the resolution times of the others.
  lemma RepairKeepsNewest(rows: seq<Row>, now: int)
    requires UniqueIds(rows)
    ensures |Repair(rows, now)| == |rows|
    ensures forall i | 0 <= i < |rows| ::
              Repair(rows, now)[i] == if rows[i].resolvedAt.None? && !IsNewest(rows, i)
                                      then rows[i].(resolvedAt := Some(now)) else rows[i]
    ensures forall i | 0 <= i < |rows| && rows[i].resolvedAt.None? ::
              exists k | 0 <= k < |rows| :: rows[k].path == rows[i].path && rows[k].resolvedAt.None? && IsNewest(rows, k)
    ensures OneOpenPerPath(Repair(rows, now))
  {
    hide IsNewest, Repair, OneOpenPerPath;
    RepairedAt(rows, now, |rows|);
    forall i | 0 <= i < |rows|
      ensures Repair(rows, now)[i] == if rows[i].resolvedAt.None? && !IsNewest(rows, i)
                                      then rows[i].(resolvedAt := Some(now)) else rows[i]
    {
      RepairedAt(rows, now, i);
    }
    forall i | 0 <= i < |rows| && rows[i].resolvedAt.None?
      ensures exists k | 0 <= k < |rows| :: rows[k].path == rows[i].path && rows[k].resolvedAt.None? && IsNewest(rows, k)
    {
      var k := SomeNewest(rows, i);
    }
    RepairIsUnique(rows, now);
  }

  lemma RepairIsUnique(rows: seq<Row>, now: int)
    requires UniqueIds(rows)
    ensures OneOpenPerPath(Repair(rows, now))
  {
    hide IsNewest, Repair;
    var repaired := Repair(rows, now);
    RepairedAt(rows, now, 0);
    forall i, j | 0 <= i < j < |repaired| && repaired[i].resolvedAt.None? && repaired[j].resolvedAt.None?
      ensures repaired[i].path != repaired[j].path
    {
      RepairedAt(rows, now, i);
      RepairedAt(rows, now, j);
      if rows[i].path == rows[j].path { OnlyOneIsNewest(rows, i, j); }
    }
  }

  lemma RepairedIsValid(rows: seq<Row>, now: int)
    requires UniqueIds(rows)
    ensures UniqueIds(Repair(rows, now)) && OneOpenPerPath(Repair(rows, now))
  {
    hide OneOpenPerPath, Repair, IsNewest;
    RepairKeepsNewest(rows, now);
    var repaired := Repair(rows, now);
    forall i | 0 <= i < |rows|
      ensures repaired[i].id == rows[i].id
    {
      assert repaired[i] == rows[i] || repaired[i] == rows[i].(resolvedAt := Some(now));
    }
  }

  class ConflictTable {
    var rows: seq<Row>

    ghost predicate Valid()
      reads this
    {
      UniqueIds(rows) && OneOpenPerPath(rows)
    }

    // Opens a store on an arbitrary earlier table.
    constructor Migrate(legacy: seq<Row>, now: int)
      requires UniqueIds(legacy)
      ensures Valid() && rows == Repair(legacy, now)
      ensures forall i, j | 0 <= i < j < |rows| && rows[i].path == rows[j].path ::
                rows[i].resolvedAt.Some? || rows[j].resolvedAt.Some?
    {
      RepairedIsValid(legacy, now);
      rows := Repair(legacy, now);
    }

    // A new record supersedes whatever is open for its path.
    method CreateConflict(id: nat, path: Path, reason: Reason, capture: Capture, now: int)
      requires Valid() && forall i | 0 <= i < |rows| :: rows[i].id != id
      modifies this
      ensures Valid()
      ensures |rows| == |old(rows)| + 1 && rows[|old(rows)|] == Row(id, path, reason, capture, now, None)
      ensures forall i | 0 <= i < |old(rows)| ::
                rows[i] == if old(rows)[i].path == path && old(rows)[i].resolvedAt.None?
                           then old(rows)[i].(resolvedAt := Some(now)) else old(rows)[i]
      ensures forall i | 0 <= i < |old(rows)| && rows[i].path == path :: rows[i].resolvedAt.Some?
    {
      rows := ResolveWhere(rows, (row: Row) => row.path == path, now) + [Row(id, path, reason, capture, now, None)];
    }

    method ResolveConflictsForPath(path: Path, now: int) returns (count: nat)
      requires Valid()
      modifies this
      ensures Valid() && |rows| == |old(rows)|
      ensures forall i | 0 <= i < |rows| :: rows[i].resolvedAt.None? <==> old(rows)[i].resolvedAt.None? && rows[i].path != path
      ensures forall i | 0 <= i < |rows| ::
                rows[i] == if old(rows)[i].path == path && old(rows)[i].resolvedAt.None?
                           then old(rows)[i].(resolvedAt := Some(now)) else old(rows)[i]
      ensures count <= 1
      ensures count == 1 <==> exists i | 0 <= i < |old(rows)| :: old(rows)[i].resolvedAt.None? && old(rows)[i].path == path
    {
      count := if exists i | 0 <= i < |rows| :: rows[i].resolvedAt.None? && rows[i].path == path then 1 else 0;
      rows := ResolveWhere(rows, (row: Row) => row.path == path, now);
    }

    // False stands for the error raised for an unknown identifier.
    method ResolveConflict(id: nat, now: int) returns (known: bool)
      requires Valid()
      modifies this
      ensures Valid() && |rows| == |old(rows)|
      ensures known <==> exists i | 0 <= i < |rows| :: rows[i].id == id
      ensures forall i | 0 <= i < |rows| ::
                rows[i] == if old(rows)[i].id == id && old(rows)[i].resolvedAt.None?
                           then old(rows)[i].(resolvedAt := Some(now)) else old(rows)[i]
    {
      known := exists i | 0 <= i < |rows| :: rows[i].id == id;
      ghost var before := rows;
      rows := ResolveWhere(rows, (row: Row) => row.id == id, now);
      assert forall i | 0 <= i < |rows| :: rows[i].id == before[i].id;
    }
  }
}
