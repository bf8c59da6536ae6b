/**
 The event protocol between the remote watcher, the local watcher and the sync engine.

 Remote reports land in the remote store.  They reach the workspace store twice over: through the
 poll at the start of every cycle and through a subscription stream that is reopened, from the
 last acknowledgement, whenever it breaks.  A cycle lists what is pending on both sides, does its
 work, and acknowledges what it listed.  Every arrow below is one atomic step; steps of different
 parties interleave freely, and the engine or the stream may die between any two of them.
 */
module EventProtocol {
  import opened Wrappers
  import opened Journal
  import opened RemoteStore
  import opened WorkspaceJournal

  // Where the engine is in a cycle.
  datatype Phase =
    | Idle
    | Polling(after: nat, polled: seq<Row>)
    | Imported(after: nat)
    | LocalListed(after: nat, local: seq<Row>)
    | Listed(local: seq<Row>, remote: seq<Row>)
    | AcknowledgingRemote(through: nat)

  // A live stream: how far the remote agent has read, and the lines not consumed yet.
  datatype Stream = Stream(cursor: nat, pipe: seq<Row>)

  datatype World = World(
    remote: Store,
    remoteLog: Log,
    localLog: Log,
    engine: Phase,
    subscribedAfter: nat,
    stream: Option<Stream>,
    // History: every report of either side, the lists of all cycles that acknowledged, in order, and
    // whether one of the protocol's errors was ever raised.
    reported: seq<Row>,
    reportedLocal: seq<Row>,
    dealtRemote: seq<Row>,
    dealtLocal: seq<Row>,
    failed: bool)

  datatype Step =
    | RemoteReport(kind: Kind, path: Path, destination: Option<Path>)
    | LocalReport(kind: Kind, path: Path, destination: Option<Path>)
    | StartCycle
    | PollBatch(limit: nat)
    | Import
    | ListLocal
    | ListRemote
    | CommitAcknowledging
    | CommitWithout
    | AcknowledgeRemote
    | EngineDies
    | Subscribe
    | OpenStream
    | StreamBatch(limit: nat)
    | StreamDeliver
    | StreamDies

  predicate ValidStep(step: Step) {
    match step
    case RemoteReport(kind, path, destination) => ValidEntry(kind, path, destination)
    case LocalReport(kind, path, destination) => ValidEntry(kind, path, destination)
    case PollBatch(limit) => limit > 0
    case StreamBatch(limit) => limit > 0
    case _ => true
  }

  const START := World(EMPTY, EMPTY_LOG, EMPTY_LOG, Idle, 0, None, [], [], [], [], false)

  function LastSequence(rows: seq<Row>, otherwise: nat): nat {
    if rows == [] then otherwise else rows[|rows| - 1].sequence
  }

  // The client refuses a poll whose sequences do not strictly increase.
  predicate Increasing(after: nat, rows: seq<Row>) {
    forall k | 0 <= k < |rows| :: rows[k].sequence > (if k == 0 then after else rows[k - 1].sequence)
  }

  // The cycle's transaction: both watermarks move to the end of the listed events.
  function Commit(w: World, local: seq<Row>, remote: seq<Row>): World {
    match (AcknowledgeList(w.localLog, local), AcknowledgeList(w.remoteLog, remote))
    case (Some(localLog), Some(remoteLog)) =>
      w.(localLog := localLog, remoteLog := remoteLog, engine := AcknowledgingRemote(remoteLog.acknowledged),
         dealtLocal := w.dealtLocal + local, dealtRemote := w.dealtRemote + remote)
    case _ => w.(failed := true, engine := Idle)
  }

  // A step that is not enabled leaves the world as it is.
  function Next(w: World, step: Step): World
    requires w.remote.Valid() && ValidStep(step)
  {
    match step
    case RemoteReport(kind, path, destination) =>
      w.(remote := Append(w.remote, kind, path, destination),
         reported := w.reported + [Row(0, kind, path, destination)])
    case LocalReport(kind, path, destination) =>
      w.(localLog := AppendLog(w.localLog, kind, path, destination),
         reportedLocal := w.reportedLocal + [Row(|w.reportedLocal| + 1, kind, path, destination)])
    case StartCycle =>
      if w.engine.Idle? then w.(engine := Polling(w.remoteLog.acknowledged, [])) else w
    case PollBatch(limit) =>
      if !w.engine.Polling? then w
      else
        var rows := RowsAfter(w.remote, LastSequence(w.engine.polled, w.engine.after), Some(limit));
        w.(remote := Deliver(w.remote, rows), engine := w.engine.(polled := w.engine.polled + rows))
    case Import =>
      if !w.engine.Polling? then w
      else if !Increasing(w.engine.after, w.engine.polled) then w.(failed := true, engine := Idle)
      else (match Record(w.remoteLog, w.engine.polled)
            case None => w.(failed := true, engine := Idle)
            case Some(log) => w.(remoteLog := log, engine := Imported(w.engine.after)))
    case ListLocal =>
      if !w.engine.Imported? then w
      else w.(engine := LocalListed(w.engine.after, Pending(w.localLog, w.localLog.acknowledged)))
    case ListRemote =>
      if !w.engine.LocalListed? then w
      else w.(engine := Listed(w.engine.local, Pending(w.remoteLog, w.engine.after)))
    case CommitAcknowledging =>
      if w.engine.Listed? then Commit(w, w.engine.local, w.engine.remote) else w
    case CommitWithout =>
      if w.engine.Listed? then w.(engine := Idle) else w
    case AcknowledgeRemote =>
      if !w.engine.AcknowledgingRemote? then w
      else (match Acknowledge(w.remote, w.engine.through)
            case None => w.(failed := true, engine := Idle)
            case Some(remote) =>
              w.(remote := remote, engine := Idle,
                 subscribedAfter := if w.subscribedAfter < remote.acknowledged then remote.acknowledged
                                    else w.subscribedAfter))
    case EngineDies => w.(engine := Idle)
    case Subscribe => w.(subscribedAfter := w.remoteLog.acknowledged, stream := None)
    case OpenStream =>
      if w.stream.None? then w.(stream := Some(Stream(w.subscribedAfter, []))) else w
    case StreamBatch(limit) =>
      if w.stream.None? then w
      else
        var rows := RowsAfter(w.remote, w.stream.value.cursor, Some(limit));
        w.(remote := Deliver(w.remote, rows),
           stream := Some(Stream(LastSequence(rows, w.stream.value.cursor), w.stream.value.pipe + rows)))
    case StreamDeliver =>
      if w.stream.None? || w.stream.value.pipe == [] then w
      else (match Record(w.remoteLog, [w.stream.value.pipe[0]])
            case None => w.(failed := true, stream := None)
            case Some(log) =>
              w.(remoteLog := log, stream := Some(w.stream.value.(pipe := w.stream.value.pipe[1..]))))
    case StreamDies => w.(stream := None)
  }

  // ---------------------------------------------------------------- the invariant

  // `rows` is the stretch of the remote journal after `from`, all of it delivered.
  ghost predicate DeliveredStretch(remote: Store, from: nat, rows: seq<Row>) {
    && (rows != [] ==> from + |rows| <= remote.delivered <= |remote.rows|)
    && forall k | 0 <= k < |rows| :: from + k < |remote.rows| && rows[k] == remote.rows[from + k]
  }

  // `rows` is what a log holds right above its watermark.
  ghost predicate NextUp(log: Log, rows: seq<Row>) {
    && log.acknowledged + |rows| <= log.top
    && forall k | 0 <= k < |rows| ::
         log.acknowledged + k + 1 in log.events && rows[k] == log.events[log.acknowledged + k + 1]
  }

  // What has been dealt with is exactly the log up to its watermark, each event once, in order.
  ghost predicate DealtExactly(log: Log, dealt: seq<Row>) {
    && |dealt| == log.acknowledged
    && forall k | 0 <= k < |dealt| :: k + 1 in log.events && dealt[k] == log.events[k + 1]
  }

  // The log holds the reports as they came.
  ghost predicate HoldsReports(log: Log, reports: seq<Row>) {
    log.top == |reports| && forall n | n in log.events :: 1 <= n <= |reports| && log.events[n] == reports[n - 1]
  }

  ghost predicate EngineInv(w: World) {
    match w.engine
    case Idle => true
    case Polling(after, polled) => after == w.remoteLog.acknowledged && DeliveredStretch(w.remote, after, polled)
    case Imported(after) => after == w.remoteLog.acknowledged
    case LocalListed(after, local) => after == w.remoteLog.acknowledged && NextUp(w.localLog, local)
    case Listed(local, remote) => NextUp(w.localLog, local) && NextUp(w.remoteLog, remote)
    case AcknowledgingRemote(through) => through == w.remoteLog.acknowledged
  }

  ghost predicate StreamInv(w: World) {
    w.stream.Some? ==>
      var s := w.stream.value;
      && |s.pipe| <= s.cursor && s.cursor - |s.pipe| <= w.remoteLog.top
      && DeliveredStretch(w.remote, s.cursor - |s.pipe|, s.pipe)
  }

  ghost predicate Inv(w: World) {
    && w.remote.Valid() && w.remoteLog.Dense() && w.localLog.Dense()
    && w.remoteLog.top <= w.remote.delivered
    && (forall n | n in w.remoteLog.events :: 1 <= n <= |w.remote.rows| && w.remoteLog.events[n] == w.remote.rows[n - 1])
    && w.remote.acknowledged <= w.remoteLog.acknowledged
    && w.subscribedAfter <= w.remoteLog.acknowledged
    && EngineInv(w) && StreamInv(w)
    && DealtExactly(w.remoteLog, w.dealtRemote) && DealtExactly(w.localLog, w.dealtLocal)
    && !w.failed
    && (forall p :: Says(w.remote.rows, p) == Says(w.reported, p))
    && HoldsReports(w.localLog, w.reportedLocal)
  }

  // ---------------------------------------------------------------- preservation, party by party

  lemma ProtectedStays(remote: Store, op: Op)
    requires remote.Valid() && ValidOp(op)
    ensures var after := Apply(remote, op);
            && after.Valid() && |remote.rows| <= |after.rows| && remote.delivered <= after.delivered
            && (!op.AckOp? ==> after.acknowledged == remote.acknowledged)
            && forall i | 0 <= i < remote.Protected() :: after.rows[i] == remote.rows[i]
  {
    StepExtends(remote, op);
    var after := Apply(remote, op);
    forall i | 0 <= i < remote.Protected()
      ensures after.rows[i] == remote.rows[i]
    {
      assert after.rows[i] == after.rows[..remote.Protected()][i];
    }
  }

  lemma StretchSurvives(remote: Store, op: Op, from: nat, rows: seq<Row>)
    requires remote.Valid() && ValidOp(op) && DeliveredStretch(remote, from, rows)
    ensures DeliveredStretch(Apply(remote, op), from, rows)
  {
    ProtectedStays(remote, op);
  }

  lemma StretchGrows(remote: Store, from: nat, rows: seq<Row>, cursor: nat, limit: nat)
    requires remote.Valid() && DeliveredStretch(remote, from, rows) && cursor == from + |rows|
    ensures var more := RowsAfter(remote, cursor, Some(limit));
            DeliveredStretch(Deliver(remote, more), from, rows + more)
            && LastSequence(more, cursor) == cursor + |more|
  {
    var more := RowsAfter(remote, cursor, Some(limit));
    StretchSurvives(remote, ReadOp(cursor, Some(limit)), from, rows);
    if more != [] {
      assert more[|more| - 1] == remote.rows[cursor + |more| - 1];
    }
  }

  // A journal operation of the remote store disturbs nothing else.
  lemma RemoteOpKeepsInv(w: World, op: Op)
    requires Inv(w) && ValidOp(op) && !op.AckOp?
    ensures var v := w.(remote := Apply(w.remote, op));
            && v.remote.Valid() && v.remoteLog.top <= v.remote.delivered
            && (forall n | n in v.remoteLog.events :: 1 <= n <= |v.remote.rows| && v.remoteLog.events[n] == v.remote.rows[n - 1])
            && v.remote.acknowledged <= v.remoteLog.acknowledged
            && EngineInv(v) && StreamInv(v)
  {
    ProtectedStays(w.remote, op);
    if w.engine.Polling? { StretchSurvives(w.remote, op, w.engine.after, w.engine.polled); }
    if w.stream.Some? {
      StretchSurvives(w.remote, op, w.stream.value.cursor - |w.stream.value.pipe|, w.stream.value.pipe);
    }
  }

  lemma ReportKeepsInv(w: World, kind: Kind, path: Path, destination: Option<Path>)
    requires Inv(w) && ValidEntry(kind, path, destination)
    ensures Inv(Next(w, RemoteReport(kind, path, destination)))
  {
    RemoteOpKeepsInv(w, AppendOp(kind, path, destination));
    forall p
      ensures Says(Append(w.remote, kind, path, destination).rows, p)
              == Says(w.reported + [Row(0, kind, path, destination)], p)
    {
      AppendSays(w.remote, kind, path, destination, p);
      SaysLast(w.reported, Row(0, kind, path, destination), p);
    }
  }

  lemma ReadKeepsInv(w: World, v: World, after: nat, limit: nat)
    requires Inv(w) && limit > 0 && v == w.(remote := Deliver(w.remote, RowsAfter(w.remote, after, Some(limit))))
    ensures Inv(v)
  {
    RemoteOpKeepsInv(w, ReadOp(after, Some(limit)));
  }

  lemma PolledKeepsInv(w: World, more: seq<Row>)
    requires Inv(w) && w.engine.Polling? && DeliveredStretch(w.remote, w.engine.after, w.engine.polled + more)
    ensures Inv(w.(engine := w.engine.(polled := w.engine.polled + more)))
  {
  }

  lemma PollKeepsInv(w: World, limit: nat)
    requires Inv(w) && limit > 0
    ensures Inv(Next(w, PollBatch(limit)))
  {
    if w.engine.Polling? {
      var after, polled := w.engine.after, w.engine.polled;
      var cursor := LastSequence(polled, after);
      if polled != [] { assert polled[|polled| - 1] == w.remote.rows[after + |polled| - 1]; }
      var more := RowsAfter(w.remote, cursor, Some(limit));
      var v := w.(remote := Deliver(w.remote, more));
      StretchGrows(w.remote, after, polled, cursor, limit);
      ReadKeepsInv(w, v, cursor, limit);
      PolledKeepsInv(v, more);
    }
  }

  lemma StreamedKeepsInv(w: World, stream: Stream)
    requires Inv(w) && w.stream.Some? && |stream.pipe| <= stream.cursor
    requires stream.cursor - |stream.pipe| == w.stream.value.cursor - |w.stream.value.pipe|
    requires DeliveredStretch(w.remote, stream.cursor - |stream.pipe|, stream.pipe)
    ensures Inv(w.(stream := Some(stream)))
  {
  }

  lemma StreamBatchKeepsInv(w: World, limit: nat)
    requires Inv(w) && limit > 0
    ensures Inv(Next(w, StreamBatch(limit)))
  {
    if w.stream.Some? {
      var s := w.stream.value;
      var more := RowsAfter(w.remote, s.cursor, Some(limit));
      var v := w.(remote := Deliver(w.remote, more));
      StretchGrows(w.remote, s.cursor - |s.pipe|, s.pipe, s.cursor, limit);
      ReadKeepsInv(w, v, s.cursor, limit);
      StreamedKeepsInv(v, Stream(LastSequence(more, s.cursor), s.pipe + more));
    }
  }

  // A delivered stretch that starts no later than right above the log continues it.
  lemma StretchContinues(w: World, from: nat, rows: seq<Row>)
    requires Inv(w) && DeliveredStretch(w.remote, from, rows) && from <= w.remoteLog.top
    ensures Continues(w.remoteLog, rows) && Increasing(from, rows)
  {
    forall k | 0 <= k < |rows|
      ensures rows[k].sequence == from + k + 1
    {
      assert rows[k] == w.remote.rows[from + k];
    }
  }

  ghost predicate LogGrows(before: Log, after: Log) {
    && after.Dense() && after.acknowledged == before.acknowledged && after.top >= before.top
    && forall n | n in before.events :: n in after.events && after.events[n] == before.events[n]
  }

  lemma RecordStretch(w: World, from: nat, rows: seq<Row>)
    requires Inv(w) && DeliveredStretch(w.remote, from, rows) && from <= w.remoteLog.top
    ensures var r := Record(w.remoteLog, rows);
            && r.Some? && LogGrows(w.remoteLog, r.value)
            && r.value.top <= w.remote.delivered
            && (rows != [] ==> r.value.top >= from + |rows|)
            && (forall n | n in r.value.events ::
                  1 <= n <= |w.remote.rows| && r.value.events[n] == w.remote.rows[n - 1])
  {
    StretchContinues(w, from, rows);
    RecordContinues(w.remoteLog, rows);
    var log := Record(w.remoteLog, rows).value;
    assert LogGrows(w.remoteLog, log);
    RecordedFromStretch(w, from, rows, log);
    assert log.top == 0 || log.top in log.events;
    if rows != [] { assert rows[|rows| - 1] == w.remote.rows[from + |rows| - 1]; }
  }

  lemma RecordedFromStretch(w: World, from: nat, rows: seq<Row>, log: Log)
    requires Inv(w) && DeliveredStretch(w.remote, from, rows)
    requires forall n | n in w.remoteLog.events :: n in log.events && log.events[n] == w.remoteLog.events[n]
    requires forall n | n in log.events && n !in w.remoteLog.events ::
               exists k :: 0 <= k < |rows| && rows[k] == log.events[n]
    requires log.Dense()
    ensures forall n | n in log.events ::
              n <= w.remote.delivered && 1 <= n <= |w.remote.rows| && log.events[n] == w.remote.rows[n - 1]
  {
    forall n | n in log.events
      ensures n <= w.remote.delivered && 1 <= n <= |w.remote.rows| && log.events[n] == w.remote.rows[n - 1]
    {
      if n !in w.remoteLog.events {
        var k :| 0 <= k < |rows| && rows[k] == log.events[n];
        assert rows[k] == w.remote.rows[from + k];
      }
    }
  }

  lemma LogGrowsKeeps(before: Log, after: Log, rows: seq<Row>, dealt: seq<Row>)
    requires LogGrows(before, after)
    ensures NextUp(before, rows) ==> NextUp(after, rows)
    ensures DealtExactly(before, dealt) ==> DealtExactly(after, dealt)
  {
  }

  lemma ImportKeepsInv(w: World)
    requires Inv(w)
    ensures Inv(Next(w, Import))
  {
    if w.engine.Polling? {
      StretchContinues(w, w.engine.after, w.engine.polled);
      RecordStretch(w, w.engine.after, w.engine.polled);
      var log := Record(w.remoteLog, w.engine.polled).value;
      LogGrowsKeeps(w.remoteLog, log, [], w.dealtRemote);
    }
  }

  lemma DeliveredKeepsInv(w: World, log: Log)
    requires Inv(w) && w.stream.Some? && w.stream.value.pipe != [] && LogGrows(w.remoteLog, log)
    requires log.top <= w.remote.delivered && log.top >= w.stream.value.cursor - |w.stream.value.pipe| + 1
    requires forall n | n in log.events :: 1 <= n <= |w.remote.rows| && log.events[n] == w.remote.rows[n - 1]
    ensures Inv(w.(remoteLog := log, stream := Some(w.stream.value.(pipe := w.stream.value.pipe[1..]))))
  {
    LogGrowsKeeps(w.remoteLog, log, if w.engine.Listed? then w.engine.remote else [], w.dealtRemote);
  }

  lemma DeliverKeepsInv(w: World)
    requires Inv(w)
    ensures Inv(Next(w, StreamDeliver))
  {
    if w.stream.Some? && w.stream.value.pipe != [] {
      var s := w.stream.value;
      RecordStretch(w, s.cursor - |s.pipe|, [s.pipe[0]]);
      DeliveredKeepsInv(w, Record(w.remoteLog, [s.pipe[0]]).value);
    }
  }

  lemma AppendedGrows(log: Log, reports: seq<Row>, kind: Kind, path: Path, destination: Option<Path>)
    requires log.Dense() && HoldsReports(log, reports)
    ensures LogGrows(log, AppendLog(log, kind, path, destination))
    ensures HoldsReports(AppendLog(log, kind, path, destination), reports + [Row(|reports| + 1, kind, path, destination)])
  {
  }

  lemma GrownKeepsInv(w: World, log: Log, reports: seq<Row>)
    requires Inv(w) && LogGrows(w.localLog, log) && HoldsReports(log, reports)
    ensures Inv(w.(localLog := log, reportedLocal := reports))
  {
    LogGrowsKeeps(w.localLog, log, if w.engine.Listed? || w.engine.LocalListed? then w.engine.local else [], w.dealtLocal);
  }

  lemma LocalReportKeepsInv(w: World, kind: Kind, path: Path, destination: Option<Path>)
    requires Inv(w) && ValidEntry(kind, path, destination)
    ensures Inv(Next(w, LocalReport(kind, path, destination)))
  {
    AppendedGrows(w.localLog, w.reportedLocal, kind, path, destination);
    GrownKeepsInv(w, AppendLog(w.localLog, kind, path, destination),
                  w.reportedLocal + [Row(|w.reportedLocal| + 1, kind, path, destination)]);
  }

  lemma PendingIsNextUp(log: Log, after: nat)
    requires log.Dense() && after <= log.acknowledged
    ensures NextUp(log, Pending(log, after)) && |Pending(log, after)| == log.top - log.acknowledged
  {
    DenseSlice(log, log.acknowledged, log.top);
  }

  lemma AcknowledgeNextUp(log: Log, rows: seq<Row>, dealt: seq<Row>)
    requires log.Dense() && NextUp(log, rows) && DealtExactly(log, dealt)
    ensures var r := AcknowledgeList(log, rows);
            && r.Some? && r.value == log.(acknowledged := log.acknowledged + |rows|)
            && r.value.Dense() && DealtExactly(r.value, dealt + rows)
  {
  }

  lemma MovedWatermarksKeepInv(w: World, localLog: Log, remoteLog: Log)
    requires Inv(w) && w.engine.Listed?
    requires localLog == w.localLog.(acknowledged := localLog.acknowledged) && localLog.Dense()
    requires remoteLog == w.remoteLog.(acknowledged := remoteLog.acknowledged) && remoteLog.Dense()
    requires w.remoteLog.acknowledged <= remoteLog.acknowledged
    requires DealtExactly(localLog, w.dealtLocal + w.engine.local) && DealtExactly(remoteLog, w.dealtRemote + w.engine.remote)
    ensures Inv(w.(localLog := localLog, remoteLog := remoteLog, engine := AcknowledgingRemote(remoteLog.acknowledged),
                   dealtLocal := w.dealtLocal + w.engine.local, dealtRemote := w.dealtRemote + w.engine.remote))
  {
  }

  lemma CommitKeepsInv(w: World)
    requires Inv(w)
    ensures Inv(Next(w, CommitAcknowledging))
  {
    if w.engine.Listed? {
      AcknowledgeNextUp(w.localLog, w.engine.local, w.dealtLocal);
      AcknowledgeNextUp(w.remoteLog, w.engine.remote, w.dealtRemote);
      MovedWatermarksKeepInv(w, AcknowledgeList(w.localLog, w.engine.local).value,
                             AcknowledgeList(w.remoteLog, w.engine.remote).value);
    }
  }

  lemma ListKeepsInv(w: World, step: Step)
    requires Inv(w) && (step.ListLocal? || step.ListRemote?)
    ensures Inv(Next(w, step))
  {
    PendingIsNextUp(w.localLog, w.localLog.acknowledged);
    if w.engine.LocalListed? { PendingIsNextUp(w.remoteLog, w.engine.after); }
  }

  lemma EngineStepKeepsInv(w: World, step: Step)
    requires Inv(w) && (step.StartCycle? || step.CommitWithout? || step.EngineDies?)
    ensures Inv(Next(w, step))
  {
  }

  lemma AcknowledgedKeepsInv(w: World, remote: Store, subscribedAfter: nat)
    requires Inv(w) && remote == w.remote.(acknowledged := remote.acknowledged) && remote.Valid()
    requires remote.acknowledged <= w.remoteLog.acknowledged && subscribedAfter <= w.remoteLog.acknowledged
    ensures Inv(w.(remote := remote, engine := Idle, subscribedAfter := subscribedAfter))
  {
  }

  lemma AcknowledgeRemoteKeepsInv(w: World)
    requires Inv(w)
    ensures Inv(Next(w, AcknowledgeRemote))
  {
    if w.engine.AcknowledgingRemote? {
      var remote := Acknowledge(w.remote, w.engine.through).value;
      AcknowledgedKeepsInv(w, remote, if w.subscribedAfter < remote.acknowledged then remote.acknowledged else w.subscribedAfter);
    }
  }

  lemma StreamStepKeepsInv(w: World, step: Step)
    requires Inv(w) && (step.Subscribe? || step.OpenStream? || step.StreamDies?)
    ensures Inv(Next(w, step))
  {
  }

  lemma StepKeepsInv(w: World, step: Step)
    requires Inv(w) && ValidStep(step)
    ensures Inv(Next(w, step))
  {
    if step.RemoteReport? { ReportKeepsInv(w, step.kind, step.path, step.destination); }
    else if step.LocalReport? { LocalReportKeepsInv(w, step.kind, step.path, step.destination); }
    else if step.PollBatch? { PollKeepsInv(w, step.limit); }
    else if step.Import? { ImportKeepsInv(w); }
    else if step.CommitAcknowledging? { CommitKeepsInv(w); }
    else if step.StreamBatch? { StreamBatchKeepsInv(w, step.limit); }
    else if step.StreamDeliver? { DeliverKeepsInv(w); }
    else if step.ListLocal? || step.ListRemote? { ListKeepsInv(w, step); }
    else if step.AcknowledgeRemote? { AcknowledgeRemoteKeepsInv(w); }
    else if step.Subscribe? || step.OpenStream? || step.StreamDies? { StreamStepKeepsInv(w, step); }
    else { EngineStepKeepsInv(w, step); }
  }

  // ---------------------------------------------------------------- what holds in every run

  ghost predicate Follows(worlds: seq<World>, steps: seq<Step>) {
    && |worlds| == |steps| + 1 && (forall i | 0 <= i < |steps| :: ValidStep(steps[i]))
    && forall i | 0 <= i < |steps| :: worlds[i].remote.Valid() && worlds[i + 1] == Next(worlds[i], steps[i])
  }

  ghost predicate Trace(worlds: seq<World>, steps: seq<Step>) {
    Follows(worlds, steps) && worlds[0] == START
  }

  lemma {:induction false} TraceInv(worlds: seq<World>, steps: seq<Step>, i: nat)
    requires Trace(worlds, steps) && i < |worlds|
    ensures Inv(worlds[i])
  {
    if i > 0 {
      TraceInv(worlds, steps, i - 1);
      StepKeepsInv(worlds[i - 1], steps[i - 1]);
    }
  }

  // No event is acknowledged unseen, and none is dealt with twice: at every point of every run the
  // lists of the acknowledging cycles, put end to end, are exactly the journal up to the watermark,
  // each event in the form it has for good; what is not acknowledged is still pending; on the local
  // side both together are the reports, each with its kind, path and destination; and the errors for
  // changed, unordered or unallocated sequences have not been raised.
  lemma NoEventAcknowledgedUnseen(worlds: seq<World>, steps: seq<Step>, i: nat)
    requires Trace(worlds, steps) && i < |worlds|
    ensures var w := worlds[i];
            && w.remoteLog.acknowledged <= w.remoteLog.top <= |w.remote.rows|
            && w.dealtRemote == w.remote.rows[..w.remoteLog.acknowledged]
            && Pending(w.remoteLog, 0) == w.remote.rows[w.remoteLog.acknowledged..w.remoteLog.top]
            && w.dealtLocal == Slice(w.localLog, 0, w.localLog.acknowledged)
            && w.dealtLocal + Pending(w.localLog, 0) == w.reportedLocal
            && !w.failed
  {
    hide Trace, Next;
    TraceInv(worlds, steps, i);
    RemoteAccount(worlds[i]);
    LocalAccount(worlds[i]);
  }

  lemma RemoteAccount(w: World)
    requires Inv(w)
    ensures w.remoteLog.acknowledged <= w.remoteLog.top <= |w.remote.rows|
    ensures w.dealtRemote == w.remote.rows[..w.remoteLog.acknowledged]
    ensures Pending(w.remoteLog, 0) == w.remote.rows[w.remoteLog.acknowledged..w.remoteLog.top]
  {
    DenseSlice(w.remoteLog, w.remoteLog.acknowledged, w.remoteLog.top);
  }

  lemma LocalAccount(w: World)
    requires Inv(w)
    ensures w.dealtLocal == Slice(w.localLog, 0, w.localLog.acknowledged)
    ensures w.dealtLocal + Pending(w.localLog, 0) == w.reportedLocal
  {
    DenseSlice(w.localLog, w.localLog.acknowledged, w.localLog.top);
    DenseSlice(w.localLog, 0, w.localLog.acknowledged);
  }

  // Once everything is acknowledged, the engine has been told about every path what the remote
  // watcher's reports, before any merging, finally say.
  lemma EngineHearsTheReports(worlds: seq<World>, steps: seq<Step>, i: nat, p: Path)
    requires Trace(worlds, steps) && i < |worlds| && worlds[i].remoteLog.acknowledged == |worlds[i].remote.rows|
    ensures Says(worlds[i].dealtRemote, p) == Says(worlds[i].reported, p)
  {
    TraceInv(worlds, steps, i);
    NoEventAcknowledgedUnseen(worlds, steps, i);
    var w := worlds[i];
    assert w.remote.rows[..|w.remote.rows|] == w.remote.rows;
  }

  // ---------------------------------------------------------------- a cycle that nobody disturbs

  // What such a cycle does not touch.
  ghost predicate SameReports(w: World, v: World) {
    v.remote.rows == w.remote.rows && v.reportedLocal == w.reportedLocal
  }

  lemma Starting(w: World)
    requires Inv(w) && w.engine.Idle?
    ensures var v := Next(w, StartCycle);
            Inv(v) && v.engine == Polling(v.remoteLog.acknowledged, []) && SameReports(w, v)
  {
    StepKeepsInv(w, StartCycle);
  }

  lemma Polls(w: World, limit: nat)
    requires Inv(w) && w.engine == Polling(w.remoteLog.acknowledged, []) && limit == |w.remote.rows| + 1
    ensures var v := Next(w, PollBatch(limit));
            && Inv(v) && v.engine.Polling? && v.remoteLog == w.remoteLog && SameReports(w, v)
            && v.engine.after + |v.engine.polled| >= |w.remote.rows|
  {
    StepKeepsInv(w, PollBatch(limit));
  }

  lemma Imports(w: World)
    requires Inv(w) && w.engine.Polling? && w.engine.after + |w.engine.polled| >= |w.remote.rows|
    ensures var v := Next(w, Import);
            && Inv(v) && v.engine == Imported(v.remoteLog.acknowledged) && SameReports(w, v)
            && v.remoteLog.top == |v.remote.rows|
  {
    StepKeepsInv(w, Import);
    StretchContinues(w, w.engine.after, w.engine.polled);
    RecordStretch(w, w.engine.after, w.engine.polled);
    AllRecorded(w, Record(w.remoteLog, w.engine.polled).value);
  }

  lemma AllRecorded(w: World, log: Log)
    requires Inv(w) && w.engine.Polling? && w.engine.after + |w.engine.polled| >= |w.remote.rows|
    requires log.top <= w.remote.delivered && log.top >= w.remoteLog.top
    requires w.engine.polled != [] ==> log.top >= w.engine.after + |w.engine.polled|
    ensures log.top == |w.remote.rows|
  {
  }

  lemma Lists(w: World)
    requires Inv(w) && w.engine == Imported(w.remoteLog.acknowledged) && w.remoteLog.top == |w.remote.rows|
    ensures var v := Next(Next(w, ListLocal), ListRemote);
            && Inv(v) && v.engine.Listed? && SameReports(w, v)
            && v.remoteLog.acknowledged + |v.engine.remote| == |v.remote.rows|
            && v.localLog.acknowledged + |v.engine.local| == v.localLog.top
  {
    StepKeepsInv(w, ListLocal);
    StepKeepsInv(Next(w, ListLocal), ListRemote);
    PendingIsNextUp(w.localLog, w.localLog.acknowledged);
    PendingIsNextUp(w.remoteLog, w.remoteLog.acknowledged);
  }

  lemma CommitsAll(w: World)
    requires Inv(w) && w.engine.Listed?
    requires w.remoteLog.acknowledged + |w.engine.remote| == |w.remote.rows|
    requires w.localLog.acknowledged + |w.engine.local| == w.localLog.top
    ensures var v := Next(w, CommitAcknowledging);
            && Inv(v) && v.engine == AcknowledgingRemote(|w.remote.rows|) && SameReports(w, v)
            && v.localLog.acknowledged == v.localLog.top && v.remoteLog.acknowledged == |v.remote.rows|
  {
    StepKeepsInv(w, CommitAcknowledging);
    AcknowledgeNextUp(w.localLog, w.engine.local, w.dealtLocal);
    AcknowledgeNextUp(w.remoteLog, w.engine.remote, w.dealtRemote);
  }

  lemma Acknowledging(w: World)
    requires Inv(w) && w.engine == AcknowledgingRemote(|w.remote.rows|)
    ensures var v := Next(w, AcknowledgeRemote);
            && Inv(v) && v.engine.Idle? && SameReports(w, v) && v.remote.acknowledged == |v.remote.rows|
            && v.localLog == w.localLog && v.remoteLog == w.remoteLog && v.subscribedAfter == v.remote.acknowledged
  {
    StepKeepsInv(w, AcknowledgeRemote);
  }

  lemma AllDealtWith(w: World)
    requires Inv(w) && w.localLog.acknowledged == w.localLog.top && w.remoteLog.acknowledged == |w.remote.rows|
    ensures w.dealtRemote == w.remote.rows && w.dealtLocal == w.reportedLocal
  {
  }

  lemma InvIsValid(w: World)
    requires Inv(w)
    ensures w.remote.Valid()
  {
  }

  ghost predicate IsRound(w: World, v: World, steps: seq<Step>) {
    exists worlds: seq<World> :: Follows(worlds, steps) && worlds[0] == w && worlds[|steps|] == v
  }

  lemma RoundOf(worlds: seq<World>, steps: seq<Step>)
    requires Follows(worlds, steps)
    ensures IsRound(worlds[0], worlds[|steps|], steps)
  {
  }

  lemma RoundGoesOn(u: World, w: World, v: World, first: seq<Step>, step: Step)
    requires IsRound(u, w, first) && ValidStep(step) && w.remote.Valid() && v == Next(w, step)
    ensures IsRound(u, v, first + [step])
  {
    hide Next;
    var worlds :| Follows(worlds, first) && worlds[0] == u && worlds[|first|] == w;
    var more, steps := worlds + [v], first + [step];
    forall i | 0 <= i < |steps|
      ensures more[i].remote.Valid() && ValidStep(steps[i]) && more[i + 1] == Next(more[i], steps[i])
    {
      if i < |first| { assert more[i] == worlds[i] && more[i + 1] == worlds[i + 1] && steps[i] == first[i]; }
    }
    RoundOf(more, steps);
  }

  lemma NoSteps(w: World)
    ensures IsRound(w, w, [])
  {
    assert Follows([w], []);
  }

  // One more step of a round, with what is known after it.
  lemma Goes(u: World, w: World, steps: seq<Step>, step: Step) returns (v: World, more: seq<Step>)
    requires IsRound(u, w, steps) && Inv(w) && ValidStep(step)
    ensures w.remote.Valid() && v == Next(w, step) && more == steps + [step] && IsRound(u, v, more) && Inv(v)
  {
    hide Next, IsRound;
    v, more := Next(w, step), steps + [step];
    StepKeepsInv(w, step);
    RoundGoesOn(u, w, v, steps, step);
  }

  lemma BringsIn(w: World, limit: nat) returns (v: World, steps: seq<Step>)
    requires Inv(w) && w.engine.Idle? && limit == |w.remote.rows| + 1
    ensures steps == [StartCycle, PollBatch(limit), Import] && IsRound(w, v, steps) && Inv(v) && SameReports(w, v)
    ensures v.engine == Imported(v.remoteLog.acknowledged) && v.remoteLog.top == |v.remote.rows|
  {
    hide Inv, Next, IsRound;
    NoSteps(w);
    v, steps := Goes(w, w, [], StartCycle);
    Starting(w);
    var w1 := v;
    v, steps := Goes(w, v, steps, PollBatch(limit));
    Polls(w1, limit);
    var w2 := v;
    v, steps := Goes(w, v, steps, Import);
    Imports(w2);
  }

  // A cycle that nobody disturbs and that acknowledges deals with every report of either side there
  // was at its start, and the remote side hears of it; a stream opened later starts after that.
  lemma QuietRound(w: World) returns (v: World, steps: seq<Step>)
    requires Inv(w) && w.engine.Idle?
    ensures steps == [StartCycle, PollBatch(|w.remote.rows| + 1), Import, ListLocal, ListRemote, CommitAcknowledging,
                      AcknowledgeRemote]
    ensures IsRound(w, v, steps) && Inv(v) && v.engine.Idle? && SameReports(w, v)
    ensures v.remote.acknowledged == |w.remote.rows| && v.dealtRemote == w.remote.rows && v.dealtLocal == w.reportedLocal
    ensures v.subscribedAfter == |w.remote.rows|
  {
    hide Inv, Next, IsRound;
    v, steps := BringsIn(w, |w.remote.rows| + 1);
    var w3 := v;
    v, steps := Goes(w, v, steps, ListLocal);
    v, steps := Goes(w, v, steps, ListRemote);
    Lists(w3);
    var w5 := v;
    v, steps := Goes(w, v, steps, CommitAcknowledging);
    CommitsAll(w5);
    var w6 := v;
    v, steps := Goes(w, v, steps, AcknowledgeRemote);
    Acknowledging(w6);
    AllDealtWith(v);
  }

  predicate OfStream(step: Step) {
    step.Subscribe? || step.OpenStream? || step.StreamBatch? || step.StreamDeliver?
  }

  // How far the stream is from bringing the engine up to date.
  ghost predicate Streaming(w: World, n: nat) {
    && Inv(w) && w.stream.Some? && w.stream.value.cursor >= |w.remote.rows| && |w.stream.value.pipe| == n
    && (n == 0 ==> w.remoteLog.top >= w.stream.value.cursor)
  }

  lemma Delivers(w: World, n: nat)
    requires Streaming(w, n) && n > 0
    ensures var v := Next(w, StreamDeliver); Streaming(v, n - 1) && SameReports(w, v)
  {
    StepKeepsInv(w, StreamDeliver);
    var s := w.stream.value;
    RecordStretch(w, s.cursor - |s.pipe|, [s.pipe[0]]);
  }

  lemma {:induction false} DeliversAll(u: World, w: World, first: seq<Step>, n: nat) returns (v: World, steps: seq<Step>)
    requires IsRound(u, w, first) && Streaming(w, n) && SameReports(u, w) && forall step | step in first :: OfStream(step)
    ensures IsRound(u, v, steps) && Streaming(v, 0) && SameReports(u, v) && forall step | step in steps :: OfStream(step)
    decreases n
  {
    hide Inv, Next, IsRound;
    if n == 0 {
      v, steps := w, first;
    } else {
      InvIsValid(w);
      var next := Next(w, StreamDeliver);
      Delivers(w, n);
      RoundGoesOn(u, w, next, first, StreamDeliver);
      v, steps := DeliversAll(u, next, first + [StreamDeliver], n - 1);
    }
  }

  lemma Opens(w: World, limit: nat)
    requires Inv(w) && limit == |w.remote.rows| + 1
    ensures var u := Next(w, Subscribe);
            var v := Next(u, OpenStream);
            && Inv(u) && Inv(v) && v.stream == Some(Stream(v.remoteLog.acknowledged, [])) && SameReports(w, v)
  {
    StepKeepsInv(w, Subscribe);
    StepKeepsInv(Next(w, Subscribe), OpenStream);
  }

  lemma StreamsBatch(w: World, limit: nat)
    requires Inv(w) && limit == |w.remote.rows| + 1 && w.stream == Some(Stream(w.remoteLog.acknowledged, []))
    ensures var v := Next(w, StreamBatch(limit)); Streaming(v, |v.stream.value.pipe|) && SameReports(w, v)
  {
    StepKeepsInv(w, StreamBatch(limit));
  }

  // A stream that is opened anew and not disturbed brings everything there is on the remote side into
  // the workspace store, whatever went before.
  lemma QuietStream(w: World) returns (v: World, steps: seq<Step>)
    requires Inv(w)
    ensures IsRound(w, v, steps) && Inv(v) && SameReports(w, v) && forall step | step in steps :: OfStream(step)
    ensures v.remoteLog.top == |w.remote.rows|
  {
    hide Inv, Next, IsRound;
    var limit := |w.remote.rows| + 1;
    NoSteps(w);
    Opens(w, limit);
    v, steps := Goes(w, w, [], Subscribe);
    v, steps := Goes(w, v, steps, OpenStream);
    StreamsBatch(v, limit);
    v, steps := Goes(w, v, steps, StreamBatch(limit));
    v, steps := DeliversAll(w, v, steps, |v.stream.value.pipe|);
    StreamedUp(v);
  }

  lemma StreamedUp(w: World)
    requires Streaming(w, 0)
    ensures w.remoteLog.top == |w.remote.rows|
  {
  }
}
