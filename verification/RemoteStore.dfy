/**
 The durable event journal on the remote machine.

 Appending merges into an entry only above both watermarks, so an entry that any reader has seen
 never changes.  `Store` is the journal as a value and carries the laws; the class `RemoteStore`
 updates it in place.
 */
module RemoteStore {
  import opened Wrappers
  import opened Journal

  datatype Row = Row(sequence: nat, kind: Kind, path: Path, destination: Option<Path>)

  datatype Store = Store(rows: seq<Row>, acknowledged: nat, delivered: nat) {
    // Sequences are allocated densely from 1 and never freed.
    ghost predicate Valid() {
      && (forall i | 0 <= i < |rows| :: rows[i].sequence == i + 1)
      && acknowledged <= |rows| && delivered <= |rows|
    }

    function Protected(): nat {
      if acknowledged < delivered then delivered else acknowledged
    }
  }

  predicate ValidEntry(kind: Kind, path: Path, destination: Option<Path>) {
    && (kind.Move? <==> destination.Some?)
    && (kind.RescanRequired? ==> path == STAR)
  }

  predicate Touches(row: Row, path: Path) {
    row.path == path || row.destination == Some(path)
  }

  // The greatest index at or above `from` whose row touches `path`.
  function LastTouching(rows: seq<Row>, from: nat, path: Path): (r: Option<nat>)
    requires from <= |rows|
    ensures r.Some? ==> from <= r.value < |rows| && Touches(rows[r.value], path)
    ensures r.Some? ==> forall i | r.value < i < |rows| :: !Touches(rows[i], path)
    ensures r.None? ==> forall i | from <= i < |rows| :: !Touches(rows[i], path)
    decreases |rows|
  {
    var n := |rows| - 1;
    if from == |rows| then None
    else if Touches(rows[n], path) then Some(n)
    else LastTouching(rows[..n], from, path)
  }

  predicate HasRescan(rows: seq<Row>) {
    exists i | 0 <= i < |rows| :: rows[i].kind.RescanRequired?
  }

  function MergeKinds(previous: Kind, current: Kind): Kind
    requires !Structural(previous) && !Structural(current)
  {
    match (previous, current)
    case (Create, Create) => Create
    case (Create, Modify) => Create
    case (Create, Delete) => Delete
    case (Modify, Create) => Modify
    case (Modify, Modify) => Modify
    case (Modify, Delete) => Delete
    case (Delete, Create) => Modify
    case (Delete, Modify) => Modify
    case (Delete, Delete) => Delete
  }

  // The entry an append would merge into, if any.
  function MergeTarget(s: Store, kind: Kind, path: Path): (r: Option<nat>)
    requires s.Valid() && !Structural(kind)
    ensures r.Some? ==> s.Protected() <= r.value < |s.rows|
  {
    var last := LastTouching(s.rows, s.Protected(), path);
    if last.None? || s.rows[last.value].destination.Some? || Structural(s.rows[last.value].kind) then None else last
  }

  function Insert(s: Store, kind: Kind, path: Path, destination: Option<Path>): Store {
    s.(rows := s.rows + [Row(|s.rows| + 1, kind, path, destination)])
  }

  function Append(s: Store, kind: Kind, path: Path, destination: Option<Path>): Store
    requires s.Valid() && ValidEntry(kind, path, destination)
  {
    if kind.RescanRequired? then
      if HasRescan(s.rows[s.Protected()..]) then s else Insert(s, kind, path, destination)
    else if kind.Move? then Insert(s, kind, path, destination)
    else
      match MergeTarget(s, kind, path)
      case None => Insert(s, kind, path, destination)
      case Some(i) => s.(rows := s.rows[i := s.rows[i].(kind := MergeKinds(s.rows[i].kind, kind))])
  }

  // The rows above a sequence, at most `limit` of them.
  function RowsAfter(s: Store, after: nat, limit: Option<nat>): (rows: seq<Row>)
    ensures |rows| <= |s.rows|
    ensures after <= |s.rows| ==> after + |rows| <= |s.rows| && rows == s.rows[after..after + |rows|]
    ensures limit.Some? ==> |rows| <= limit.value
    ensures limit.None? || |rows| < limit.value ==> after + |rows| >= |s.rows|
  {
    if after >= |s.rows| then []
    else
      var available := |s.rows| - after;
      var count := if limit.Some? && limit.value < available then limit.value else available;
      s.rows[after..after + count]
  }

  function Deliver(s: Store, rows: seq<Row>): Store {
    if rows == [] then s
    else
      var last := rows[|rows| - 1].sequence;
      s.(delivered := if s.delivered < last then last else s.delivered)
  }

  // An acknowledgement past the end of the journal is refused.
  function Acknowledge(s: Store, sequence: nat): Option<Store> {
    if sequence > |s.rows| then None
    else Some(s.(acknowledged := if s.acknowledged < sequence then sequence else s.acknowledged))
  }

  // ---------------------------------------------------------------- runs of the store

  datatype Op =
    | AppendOp(kind: Kind, path: Path, destination: Option<Path>)
    | ReadOp(after: nat, limit: Option<nat>)
    | AckOp(sequence: nat)

  predicate ValidOp(op: Op) {
    op.AppendOp? ==> ValidEntry(op.kind, op.path, op.destination)
  }

  function Apply(s: Store, op: Op): (t: Store)
    requires s.Valid() && ValidOp(op)
  {
    match op
    case AppendOp(kind, path, destination) => Append(s, kind, path, destination)
    case ReadOp(after, limit) => Deliver(s, RowsAfter(s, after, limit))
    case AckOp(sequence) => (match Acknowledge(s, sequence) case None => s case Some(t) => t)
  }

  function Returned(s: Store, op: Op): seq<Row> {
    if op.ReadOp? then RowsAfter(s, op.after, op.limit) else []
  }

  ghost predicate WellFormed(s: Store) {
    s.Valid() && forall i | 0 <= i < |s.rows| :: ValidEntry(s.rows[i].kind, s.rows[i].path, s.rows[i].destination)
  }

  // One step keeps the journal valid, never renumbers or drops an entry, and leaves everything at
  // or below a watermark exactly as it was.
  lemma StepExtends(s: Store, op: Op)
    requires s.Valid() && ValidOp(op)
    ensures var t := Apply(s, op);
            && t.Valid() && (WellFormed(s) ==> WellFormed(t))
            && |s.rows| <= |t.rows| <= |s.rows| + 1
            && s.acknowledged <= t.acknowledged && s.delivered <= t.delivered
            && t.rows[..s.Protected()] == s.rows[..s.Protected()]
            && (forall i | 0 <= i < |s.rows| && (i < s.acknowledged || i < s.delivered) :: t.rows[i] == s.rows[i])
            && (forall i | 0 <= i < |s.rows| ::
                  t.rows[i].path == s.rows[i].path && t.rows[i].destination == s.rows[i].destination)
  {
  }

  // Every entry a read returns is protected from then on.
  lemma ReadProtects(s: Store, op: Op, row: Row)
    requires s.Valid() && ValidOp(op) && row in Returned(s, op)
    ensures var t := Apply(s, op);
            1 <= row.sequence <= t.delivered && t.rows[row.sequence - 1] == row
  {
    var rows := RowsAfter(s, op.after, op.limit);
    var i :| 0 <= i < |rows| && rows[i] == row;
    assert s.rows[op.after + i] == row;
    assert rows[|rows| - 1] == s.rows[op.after + |rows| - 1];
  }

  function Final(s: Store, ops: seq<Op>): (t: Store)
    requires s.Valid() && forall op | op in ops :: ValidOp(op)
    ensures t.Valid()
    decreases |ops|
  {
    if ops == [] then s
    else
      StepExtends(s, ops[0]);
      Final(Apply(s, ops[0]), ops[1..])
  }

  // Everything read during a run, read by read.
  function Reads(s: Store, ops: seq<Op>): seq<Row>
    requires s.Valid() && forall op | op in ops :: ValidOp(op)
    decreases |ops|
  {
    if ops == [] then []
    else
      StepExtends(s, ops[0]);
      Returned(s, ops[0]) + Reads(Apply(s, ops[0]), ops[1..])
  }

  lemma {:induction false} ProtectedForever(s: Store, ops: seq<Op>, i: nat)
    requires s.Valid() && (forall op | op in ops :: ValidOp(op)) && (i < s.acknowledged || i < s.delivered)
    ensures i < |Final(s, ops).rows| && Final(s, ops).rows[i] == s.rows[i]
    decreases |ops|
  {
    if ops != [] {
      StepExtends(s, ops[0]);
      var t := Apply(s, ops[0]);
      assert t.rows[i] == s.rows[i];
      ProtectedForever(t, ops[1..], i);
    }
  }

  lemma ReadIsFinal(s: Store, op: Op, rest: seq<Op>, row: Row)
    requires s.Valid() && ValidOp(op) && (forall o | o in rest :: ValidOp(o)) && row in Returned(s, op)
    ensures Apply(s, op).Valid()
    ensures 1 <= row.sequence <= |Final(Apply(s, op), rest).rows| && Final(Apply(s, op), rest).rows[row.sequence - 1] == row
  {
    StepExtends(s, op);
    ReadProtects(s, op, row);
    ProtectedForever(Apply(s, op), rest, row.sequence - 1);
  }

  // Whatever any reader was ever given for a sequence is what the journal holds for it at the end,
  // so two reads of one sequence always agree.
  lemma {:induction false} ReadsAreFinal(s: Store, ops: seq<Op>, row: Row)
    requires s.Valid() && (forall op | op in ops :: ValidOp(op)) && row in Reads(s, ops)
    ensures 1 <= row.sequence <= |Final(s, ops).rows| && Final(s, ops).rows[row.sequence - 1] == row
    decreases |ops|
  {
    var op, rest := ops[0], ops[1..];
    assert op in ops && forall o | o in rest :: o in ops;
    StepExtends(s, op);
    if row in Returned(s, op) {
      ReadIsFinal(s, op, rest, row);
    } else {
      ReadsAreFinal(Apply(s, op), rest, row);
    }
  }

  // ---------------------------------------------------------------- merging refines the raw log

  // What the journal, read in order, finally says about a path.
  function Says(rows: seq<Row>, p: Path): Option<bool> {
    if rows == [] then None
    else
      var last := rows[|rows| - 1];
      var effect := Effect(last.kind, last.path, last.destination, p);
      if effect.Some? then effect else Says(rows[..|rows| - 1], p)
  }

  // Every reported entry, unmerged.
  function RawLog(ops: seq<Op>): seq<Row> {
    if ops == [] then []
    else
      var op := ops[|ops| - 1];
      RawLog(ops[..|ops| - 1])
      + if op.AppendOp? then [Row(0, op.kind, op.path, op.destination)] else []
  }

  lemma SaysLast(rows: seq<Row>, row: Row, p: Path)
    ensures Says(rows + [row], p)
            == if Effect(row.kind, row.path, row.destination, p).Some? then Effect(row.kind, row.path, row.destination, p)
               else Says(rows, p)
  {
    assert (rows + [row])[..|rows|] == rows;
  }

  // Rewriting one entry, with nothing after it about its path, rewrites what is said last.
  lemma {:induction false} SaysMerged(rows: seq<Row>, i: nat, kind: Kind, p: Path)
    requires i < |rows| && !Structural(kind) && !Structural(rows[i].kind) && rows[i].destination.None?
    requires forall j | i < j < |rows| :: !Touches(rows[j], rows[i].path)
    ensures Says(rows[i := rows[i].(kind := kind)], p)
            == if p == rows[i].path then Effect(kind, p, None, p) else Says(rows, p)
    decreases |rows|
  {
    var merged := rows[i := rows[i].(kind := kind)];
    var n := |rows| - 1;
    if i == n {
      assert merged[..n] == rows[..n];
    } else {
      assert merged[..n] == rows[..n][i := rows[..n][i].(kind := kind)];
      SaysMerged(rows[..n], i, kind, p);
    }
  }

  lemma AppendSays(s: Store, kind: Kind, path: Path, destination: Option<Path>, p: Path)
    requires s.Valid() && ValidEntry(kind, path, destination)
    ensures Says(Append(s, kind, path, destination).rows, p)
            == if Effect(kind, path, destination, p).Some? then Effect(kind, path, destination, p) else Says(s.rows, p)
  {
    SaysLast(s.rows, Row(|s.rows| + 1, kind, path, destination), p);
    if !Structural(kind) {
      var target := MergeTarget(s, kind, path);
      if target.Some? {
        var i := target.value;
        SaysMerged(s.rows, i, MergeKinds(s.rows[i].kind, kind), p);
      }
    }
  }

  lemma AppendRescan(s: Store, kind: Kind, path: Path, destination: Option<Path>)
    requires s.Valid() && ValidEntry(kind, path, destination)
    ensures HasRescan(Append(s, kind, path, destination).rows) <==> HasRescan(s.rows) || kind.RescanRequired?
  {
    var t := Append(s, kind, path, destination);
    forall i | 0 <= i < |s.rows|
      ensures t.rows[i].kind.RescanRequired? <==> s.rows[i].kind.RescanRequired?
    {
    }
    if kind.RescanRequired? && HasRescan(s.rows[s.Protected()..]) {
      var i :| 0 <= i < |s.rows| - s.Protected() && s.rows[s.Protected()..][i].kind.RescanRequired?;
      assert s.rows[s.Protected() + i].kind.RescanRequired?;
    } else if |t.rows| > |s.rows| {
      assert t.rows[|s.rows|].kind == kind;
    }
  }

  function Prefixed(ops: seq<Op>): seq<Op>
    requires ops != []
  {
    ops[..|ops| - 1]
  }

  lemma {:induction false} FinalSnoc(s: Store, ops: seq<Op>)
    requires s.Valid() && ops != [] && forall op | op in ops :: ValidOp(op)
    ensures Final(s, ops) == Apply(Final(s, Prefixed(ops)), ops[|ops| - 1])
    decreases |ops|
  {
    StepExtends(s, ops[0]);
    if |ops| > 1 {
      assert Prefixed(ops)[1..] == Prefixed(ops[1..]);
      FinalSnoc(Apply(s, ops[0]), ops[1..]);
    }
  }

  const EMPTY := Store([], 0, 0)

  // After any run from the empty journal, the merged journal says about every path what the raw
  // log of every report says, and asks for a rescan exactly when some report did.
  lemma {:induction false} MergingRefinesRawLog(ops: seq<Op>, p: Path)
    requires forall op | op in ops :: ValidOp(op)
    ensures Says(Final(EMPTY, ops).rows, p) == Says(RawLog(ops), p)
    ensures HasRescan(Final(EMPTY, ops).rows) <==> HasRescan(RawLog(ops))
    decreases |ops|
  {
    if ops != [] {
      var before, op := Final(EMPTY, Prefixed(ops)), ops[|ops| - 1];
      assert op in ops;
      MergingRefinesRawLog(Prefixed(ops), p);
      FinalSnoc(EMPTY, ops);
      var raw := RawLog(Prefixed(ops));
      if op.AppendOp? {
        AppendSays(before, op.kind, op.path, op.destination, p);
        AppendRescan(before, op.kind, op.path, op.destination);
        var row := Row(0, op.kind, op.path, op.destination);
        SaysLast(raw, row, p);
        RescanLast(raw, row);
      } else {
        assert raw + [] == raw;
      }
    }
  }

  // The entry an append goes into, unless a pending rescan absorbs it.
  function Lands(s: Store, op: Op): Option<nat>
    requires s.Valid() && ValidOp(op)
  {
    if !op.AppendOp? || (op.kind.RescanRequired? && HasRescan(s.rows[s.Protected()..])) then None
    else if Structural(op.kind) || MergeTarget(s, op.kind, op.path).None? then Some(|s.rows|)
    else MergeTarget(s, op.kind, op.path)
  }

  // The reported kinds that went into entry `i`, in order.
  function KindsInto(ops: seq<Op>, i: nat): seq<Kind>
    requires forall op | op in ops :: ValidOp(op)
    decreases |ops|
  {
    if ops == [] then []
    else
      assert ops[|ops| - 1] in ops;
      var op := ops[|ops| - 1];
      KindsInto(Prefixed(ops), i) + if Lands(Final(EMPTY, Prefixed(ops)), op) == Some(i) then [op.kind] else []
  }

  // What kind an entry has after all that was merged into it: a deletion when the last report was
  // one, a creation when the first was one and nothing was deleted since, else a modification.
  ghost predicate SumsUp(kind: Kind, kinds: seq<Kind>) {
    && kinds != []
    && (kind.Delete? <==> kinds[|kinds| - 1].Delete?)
    && (kind.Create? <==> kinds[0].Create? && Delete !in kinds)
    && (kind.Modify? <==> !kinds[|kinds| - 1].Delete? && !(kinds[0].Create? && Delete !in kinds))
  }

  lemma MergeSumsUp(previous: Kind, kinds: seq<Kind>, kind: Kind)
    requires !Structural(previous) && !Structural(kind) && SumsUp(previous, kinds)
    ensures SumsUp(MergeKinds(previous, kind), kinds + [kind])
  {
  }

  // In every run each path entry has the kind its reports sum up to; moves and rescans are never merged.
  lemma {:induction false} StoredKindMeaning(ops: seq<Op>, i: nat)
    requires forall op | op in ops :: ValidOp(op)
    ensures var rows, kinds := Final(EMPTY, ops).rows, KindsInto(ops, i);
            if i >= |rows| then kinds == []
            else if Structural(rows[i].kind) then kinds == [rows[i].kind]
            else SumsUp(rows[i].kind, kinds)
    decreases |ops|
  {
    if ops != [] {
      var before, op := Final(EMPTY, Prefixed(ops)), ops[|ops| - 1];
      assert op in ops;
      StoredKindMeaning(Prefixed(ops), i);
      FinalSnoc(EMPTY, ops);
      var kinds := KindsInto(Prefixed(ops), i);
      if Lands(before, op) == Some(i) {
        if i < |before.rows| {
          MergeSumsUp(before.rows[i].kind, kinds, op.kind);
        } else {
          assert kinds + [op.kind] == [op.kind];
        }
      } else {
        assert kinds + [] == kinds;
      }
    }
  }

  lemma RescanLast(rows: seq<Row>, row: Row)
    ensures HasRescan(rows + [row]) <==> HasRescan(rows) || row.kind.RescanRequired?
  {
    var all := rows + [row];
    if HasRescan(rows) {
      var i :| 0 <= i < |rows| && rows[i].kind.RescanRequired?;
      assert all[i].kind.RescanRequired?;
    }
    if row.kind.RescanRequired? { assert all[|rows|].kind.RescanRequired?; }
  }

  // ---------------------------------------------------------------- how small the backlog stays

  // Above the watermarks there is at most one rescan, and between two path entries for one path
  // there is always a move that touches it.  The pseudo path is excluded: a file of that name
  // shares its path with the rescans.
  ghost predicate Compact(s: Store) {
    && (forall i, j | s.Protected() <= i < j < |s.rows| ::
          !(s.rows[i].kind.RescanRequired? && s.rows[j].kind.RescanRequired?))
    && (forall i, j | s.Protected() <= i < j < |s.rows| && SamePathEntries(s.rows[i], s.rows[j]) ::
          MoveBetween(s.rows, i, j))
  }

  predicate SamePathEntries(a: Row, b: Row) {
    !Structural(a.kind) && !Structural(b.kind) && a.path == b.path && a.path != STAR
  }

  predicate MoveBetween(rows: seq<Row>, i: nat, j: nat)
    requires i < j < |rows|
  {
    exists k | i < k < j :: rows[k].kind.Move? && Touches(rows[k], rows[i].path)
  }

  lemma InsertCompact(s: Store, kind: Kind, path: Path, destination: Option<Path>)
    requires WellFormed(s) && Compact(s) && ValidEntry(kind, path, destination)
    requires Append(s, kind, path, destination) == Insert(s, kind, path, destination)
    ensures Compact(Append(s, kind, path, destination))
  {
    var t := Append(s, kind, path, destination);
    var n := |s.rows|;
    forall i, j | t.Protected() <= i < j < |t.rows|
      ensures !(t.rows[i].kind.RescanRequired? && t.rows[j].kind.RescanRequired?)
      ensures SamePathEntries(t.rows[i], t.rows[j]) ==> MoveBetween(t.rows, i, j)
    {
      if j < n {
        if SamePathEntries(t.rows[i], t.rows[j]) {
          assert SamePathEntries(s.rows[i], s.rows[j]) && MoveBetween(s.rows, i, j);
          var k :| i < k < j && s.rows[k].kind.Move? && Touches(s.rows[k], s.rows[i].path);
          assert t.rows[k] == s.rows[k];
        }
      } else {
        assert s.rows[s.Protected()..][i - s.Protected()] == s.rows[i];
        if SamePathEntries(t.rows[i], t.rows[j]) {
          var k := LastTouching(s.rows, s.Protected(), path).value;
          assert t.rows[k] == s.rows[k] && k >= i;
          assert MergeTarget(s, kind, path).None?;
          assert t.rows[k].kind.Move?;
        }
      }
    }
  }

  lemma MergeCompact(s: Store, kind: Kind, path: Path, destination: Option<Path>)
    requires WellFormed(s) && Compact(s) && ValidEntry(kind, path, destination)
    requires !Structural(kind) && MergeTarget(s, kind, path).Some?
    ensures Compact(Append(s, kind, path, destination))
  {
    var t := Append(s, kind, path, destination);
    forall i, j | t.Protected() <= i < j < |t.rows|
      ensures !(t.rows[i].kind.RescanRequired? && t.rows[j].kind.RescanRequired?)
      ensures SamePathEntries(t.rows[i], t.rows[j]) ==> MoveBetween(t.rows, i, j)
    {
      assert !(s.rows[i].kind.RescanRequired? && s.rows[j].kind.RescanRequired?);
      if SamePathEntries(t.rows[i], t.rows[j]) {
        assert SamePathEntries(s.rows[i], s.rows[j]) && MoveBetween(s.rows, i, j);
        var k :| i < k < j && s.rows[k].kind.Move? && Touches(s.rows[k], s.rows[i].path);
        assert t.rows[k] == s.rows[k];
      }
    }
  }

  lemma StepCompact(s: Store, op: Op)
    requires WellFormed(s) && Compact(s) && ValidOp(op)
    ensures WellFormed(Apply(s, op)) && Compact(Apply(s, op))
  {
    StepExtends(s, op);
    var t := Apply(s, op);
    if op.AppendOp? {
      if !Structural(op.kind) && MergeTarget(s, op.kind, op.path).Some? {
        MergeCompact(s, op.kind, op.path, op.destination);
      } else if t != s {
        InsertCompact(s, op.kind, op.path, op.destination);
      }
    } else {
      assert t.rows == s.rows && t.Protected() >= s.Protected();
    }
  }

  // The backlog of every reachable journal is compact.
  lemma {:induction false} BacklogStaysCompact(s: Store, ops: seq<Op>)
    requires WellFormed(s) && Compact(s) && forall op | op in ops :: ValidOp(op)
    ensures WellFormed(Final(s, ops)) && Compact(Final(s, ops))
    decreases |ops|
  {
    if ops != [] {
      StepCompact(s, ops[0]);
      BacklogStaysCompact(Apply(s, ops[0]), ops[1..]);
    }
  }

  // ---------------------------------------------------------------- the store in place

  class RemoteStore {
    var rows: seq<Row>
    var acknowledged: nat
    var delivered: nat

    function State(): Store
      reads this
    {
      Store(rows, acknowledged, delivered)
    }

    constructor ()
      ensures State() == EMPTY && WellFormed(State())
    {
      rows, acknowledged, delivered := [], 0, 0;
    }

    // Merges into an unprotected entry or allocates the next sequence; returns the entry.
    method AppendEvent(kind: Kind, path: Path, destination: Option<Path>) returns (row: Row)
      requires WellFormed(State()) && ValidEntry(kind, path, destination)
      modifies this
      ensures State() == Append(old(State()), kind, path, destination) && WellFormed(State())
      ensures old(acknowledged) < row.sequence && old(delivered) < row.sequence <= |rows| && rows[row.sequence - 1] == row
      ensures row.path == path && row.destination == destination
      ensures row.kind.RescanRequired? == kind.RescanRequired? && row.kind.Move? == kind.Move?
      ensures row.kind.Delete? == kind.Delete?
    {
      StepExtends(State(), AppendOp(kind, path, destination));
      var protected := State().Protected();
      if kind.RescanRequired? && HasRescan(rows[protected..]) {
        var i :| 0 <= i < |rows| - protected && rows[protected..][i].kind.RescanRequired?;
        row := rows[protected + i];
        return;
      }
      if !Structural(kind) {
        var target := MergeTarget(State(), kind, path);
        if target != None {
          row := rows[target.value].(kind := MergeKinds(rows[target.value].kind, kind));
          rows := rows[target.value := row];
          return;
        }
      }
      row := Row(|rows| + 1, kind, path, destination);
      rows := rows + [row];
    }

    // Reads a batch and raises the delivered watermark over it, in one transaction.
    method EventsAfter(sequence: nat, limit: Option<nat>) returns (batch: seq<Row>)
      requires WellFormed(State())
      modifies this`delivered
      ensures batch == RowsAfter(old(State()), sequence, limit)
      ensures State() == Apply(old(State()), ReadOp(sequence, limit)) && WellFormed(State())
      ensures forall row | row in batch :: sequence < row.sequence <= delivered
    {
      StepExtends(State(), ReadOp(sequence, limit));
      batch := RowsAfter(State(), sequence, limit);
      if batch != [] {
        var last := batch[|batch| - 1].sequence;
        if delivered < last { delivered := last; }
      }
      forall row | row in batch
        ensures sequence < row.sequence <= delivered
      {
        ReadProtects(old(State()), ReadOp(sequence, limit), row);
        var i :| 0 <= i < |batch| && batch[i] == row;
        assert row == rows[sequence + i];
      }
    }

    // False stands for the refusal of an acknowledgement past the end.
    method AcknowledgeThrough(sequence: nat) returns (ok: bool)
      requires WellFormed(State())
      modifies this`acknowledged
      ensures ok <==> sequence <= |rows|
      ensures acknowledged == if ok && sequence > old(acknowledged) then sequence else old(acknowledged)
      ensures State() == Apply(old(State()), AckOp(sequence)) && WellFormed(State())
    {
      ok := sequence <= |rows|;
      if ok && acknowledged < sequence { acknowledged := sequence; }
    }
  }
}
