/**
 One side's journal in the local workspace store: events recorded by sequence, and the watermark
 through which a committed cycle has dealt with them.
 */
module WorkspaceJournal {
  import opened Wrappers
  import opened Journal
  import opened RemoteStore

  // `top` is the greatest recorded sequence, 0 when there is none.
  datatype Log = Log(events: map<nat, Row>, top: nat, acknowledged: nat) {
    ghost predicate Valid() {
      && (forall n | n in events :: 1 <= n <= top && events[n].sequence == n)
      && (top == 0 || top in events)
      && acknowledged <= top
    }

    // Every sequence from 1 to the top is recorded.
    ghost predicate Dense() {
      Valid() && forall n :: n in events <==> 1 <= n <= top
    }
  }

  const EMPTY_LOG := Log(map[], 0, 0)

  function LastAllocated(log: Log): nat {
    if log.top < log.acknowledged then log.acknowledged else log.top
  }

  // A local report gets the next sequence; the local journal never merges.
  function AppendLog(log: Log, kind: Kind, path: Path, destination: Option<Path>): Log {
    var n := LastAllocated(log) + 1;
    Log(log.events[n := Row(n, kind, path, destination)], n, log.acknowledged)
  }

  // Recording is idempotent; a different event under a recorded sequence is refused.
  function RecordOne(log: Log, row: Row): Option<Log> {
    if row.sequence in log.events then
      if log.events[row.sequence] == row then Some(log) else None
    else
      Some(Log(log.events[row.sequence := row],
               if log.top < row.sequence then row.sequence else log.top, log.acknowledged))
  }

  // Recording a batch is one transaction: all of it, or none.
  function Record(log: Log, rows: seq<Row>): Option<Log>
    decreases |rows|
  {
    if rows == [] then Some(log)
    else
      match RecordOne(log, rows[0])
      case None => None
      case Some(next) => Record(next, rows[1..])
  }

  // The recorded rows with sequence in `from + 1 .. end`, in order.
  function Slice(log: Log, from: nat, end: nat): seq<Row>
    decreases end
  {
    if end <= from then []
    else Slice(log, from, end - 1) + if end in log.events then [log.events[end]] else []
  }

  // Everything recorded above `after` and above the watermark.
  function Pending(log: Log, after: nat): seq<Row> {
    Slice(log, if after < log.acknowledged then log.acknowledged else after, log.top)
  }

  function AcknowledgeLog(log: Log, through: nat): Option<Log> {
    if through > LastAllocated(log) then None
    else Some(log.(acknowledged := if log.acknowledged < through then through else log.acknowledged))
  }

  // Acknowledging the last event of a list, if it has one.
  function AcknowledgeList(log: Log, listed: seq<Row>): Option<Log> {
    if listed == [] then Some(log) else AcknowledgeLog(log, listed[|listed| - 1].sequence)
  }

  // ---------------------------------------------------------------- laws

  lemma {:induction false} DenseSlice(log: Log, from: nat, end: nat)
    requires log.Dense() && from <= end <= log.top
    ensures |Slice(log, from, end)| == end - from
    ensures forall k | 0 <= k < end - from :: Slice(log, from, end)[k] == log.events[from + k + 1]
    decreases end
  {
    if end > from { DenseSlice(log, from, end - 1); }
  }

  // Rows that continue a dense log without a gap, and agree with it where they overlap, are
  // recorded without complaint and keep it dense.
  ghost predicate Continues(log: Log, rows: seq<Row>) {
    forall k | 0 <= k < |rows| ::
      && rows[k].sequence == rows[0].sequence + k
      && 1 <= rows[0].sequence <= log.top + 1
      && (rows[k].sequence in log.events ==> log.events[rows[k].sequence] == rows[k])
  }

  lemma {:induction false} RecordContinues(log: Log, rows: seq<Row>)
    requires log.Dense() && Continues(log, rows)
    ensures var r := Record(log, rows);
            && r.Some? && r.value.Dense() && r.value.acknowledged == log.acknowledged
            && r.value.top >= log.top
            && (forall n | n in log.events :: r.value.events[n] == log.events[n])
            && (forall n | n in r.value.events && n !in log.events :: exists k :: 0 <= k < |rows| && rows[k] == r.value.events[n])
            && (rows != [] ==> r.value.top >= rows[|rows| - 1].sequence)
    decreases |rows|
  {
    if rows != [] {
      assert rows[0].sequence == rows[0].sequence + 0;
      var next := RecordOne(log, rows[0]).value;
      var rest := rows[1..];
      assert next.Dense();
      forall k | 0 <= k < |rest|
        ensures rest[k].sequence == rest[0].sequence + k && 1 <= rest[0].sequence <= next.top + 1
        ensures rest[k].sequence in next.events ==> next.events[rest[k].sequence] == rest[k]
      {
        assert rest[k] == rows[k + 1] && rest[0] == rows[1];
      }
      RecordContinues(next, rest);
      var r := Record(log, rows).value;
      forall n | n in r.events && n !in log.events
        ensures exists k :: 0 <= k < |rows| && rows[k] == r.events[n]
      {
        if n in next.events {
          assert rows[0] == r.events[n];
        } else {
          var k :| 0 <= k < |rest| && rest[k] == r.events[n];
          assert rows[k + 1] == r.events[n];
        }
      }
    }
  }

  // Recording the same batch again changes nothing, dense or not.
  lemma {:induction false} RecordIsIdempotent(log: Log, rows: seq<Row>)
    requires Record(log, rows).Some?
    ensures Record(Record(log, rows).value, rows) == Record(log, rows)
    decreases |rows|
  {
    if rows != [] {
      var next := RecordOne(log, rows[0]).value;
      RecordIsIdempotent(next, rows[1..]);
      RecordKeeps(next, rows[1..], rows[0]);
    }
  }

  lemma {:induction false} RecordKeeps(log: Log, rows: seq<Row>, row: Row)
    requires Record(log, rows).Some? && row.sequence in log.events && log.events[row.sequence] == row
    ensures var after := Record(log, rows).value; row.sequence in after.events && after.events[row.sequence] == row
    decreases |rows|
  {
    if rows != [] { RecordKeeps(RecordOne(log, rows[0]).value, rows[1..], row); }
  }

  // ---------------------------------------------------------------- the journal in place

  class JournalTable {
    var events: map<nat, Row>
    var top: nat
    var acknowledged: nat

    function State(): Log
      reads this
    {
      Log(events, top, acknowledged)
    }

    constructor ()
      ensures State() == EMPTY_LOG && State().Valid()
    {
      events, top, acknowledged := map[], 0, 0;
    }

    method AppendEvent(kind: Kind, path: Path, destination: Option<Path>) returns (row: Row)
      requires State().Valid()
      modifies this
      ensures State() == AppendLog(old(State()), kind, path, destination) && State().Valid()
      ensures row == Row(old(top) + 1, kind, path, destination) && Pending(State(), top - 1) == [row]
      ensures events == old(events)[row.sequence := row] && top == row.sequence && acknowledged == old(acknowledged)
    {
      var sequence := LastAllocated(State()) + 1;
      row := Row(sequence, kind, path, destination);
      events := events[sequence := row];
      top := sequence;
      assert Slice(State(), top - 1, top - 1) == [];
    }

    // False stands for the refusal of a changed event; the transaction is then rolled back.
    method RecordEvents(recorded: seq<Row>) returns (ok: bool)
      requires State().Valid() && forall row | row in recorded :: row.sequence >= 1
      modifies this
      ensures ok <==> Record(old(State()), recorded).Some?
      ensures State() == (if ok then Record(old(State()), recorded).value else old(State())) && State().Valid()
    {
      var saved := State();
      ok := true;
      for i := 0 to |recorded|
        invariant State().Valid()
        invariant Record(saved, recorded) == Record(State(), recorded[i..])
      {
        var row := recorded[i];
        assert recorded[i..][0] == row && recorded[i..][1..] == recorded[i + 1..];
        if row.sequence in events {
          if events[row.sequence] != row {
            events, top, acknowledged := saved.events, saved.top, saved.acknowledged;
            return false;
          }
        } else {
          events := events[row.sequence := row];
          if top < row.sequence { top := row.sequence; }
        }
      }
    }

    method PendingEvents(after: nat) returns (rows: seq<Row>)
      ensures rows == Pending(State(), after)
    {
      var from := if after < acknowledged then acknowledged else after;
      rows := [];
      var n := from;
      while n < top
        invariant from <= n && (n <= top || n == from)
        invariant rows == Slice(State(), from, n)
      {
        n := n + 1;
        if n in events { rows := rows + [events[n]]; }
      }
      if top < n { assert Slice(State(), from, top) == []; }
    }

    method AcknowledgeThrough(through: nat) returns (ok: bool)
      requires State().Valid()
      modifies this`acknowledged
      ensures ok <==> AcknowledgeLog(old(State()), through).Some?
      ensures acknowledged == if ok && through > old(acknowledged) then through else old(acknowledged)
      ensures State() == (if ok then AcknowledgeLog(old(State()), through).value else old(State())) && State().Valid()
    {
      ok := through <= LastAllocated(State());
      if ok && acknowledged < through { acknowledged := through; }
    }
  }
}
