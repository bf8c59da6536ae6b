/**
 Journal events, the coalescing of an event list, and the paths a sync cycle must look at.

 An event list is read with "the last mention wins": what the list says about a path on a side is
 what the event with the greatest sequence number that mentions the path says.
 */
module Journal {
  import opened Wrappers

  // A canonical relative path, as its list of components.
  type Path = seq<string>

  // The pseudo path of rescan events.
  const STAR: Path := ["*"]

  datatype Side = Local | Remote

  datatype Kind = Create | Modify | Delete | Move | RescanRequired

  datatype Event = Event(side: Side, sequence: nat, kind: Kind, path: Path, destination: Option<Path>)

  predicate ValidEvent(e: Event) {
    && e.sequence >= 1
    && (e.kind.Move? <==> e.destination.Some?)
    && (e.kind.RescanRequired? ==> e.path == STAR)
  }

  predicate Structural(kind: Kind) {
    kind.Move? || kind.RescanRequired?
  }

  // What an event says about the presence of a path, if it mentions it.
  function Effect(kind: Kind, path: Path, destination: Option<Path>, p: Path): Option<bool> {
    match kind
    case RescanRequired => None
    case Move => if destination == Some(p) then Some(true) else if path == p then Some(false) else None
    case Delete => if path == p then Some(false) else None
    case _ => if path == p then Some(true) else None
  }

  function EventEffect(e: Event, p: Path): Option<bool> {
    Effect(e.kind, e.path, e.destination, p)
  }

  predicate Names(e: Event, side: Side, p: Path) {
    e.side == side && EventEffect(e, p).Some?
  }

  // What an event list, read in order, finally says about a path.
  function Presence(events: seq<Event>, side: Side, p: Path): Option<bool> {
    if events == [] then None
    else
      var last := events[|events| - 1];
      if Names(last, side, p) then EventEffect(last, p) else Presence(events[..|events| - 1], side, p)
  }

  // ---------------------------------------------------------------- ordering

  // The journal order: by sequence, then by side ("local" before "remote").
  predicate Before(a: Event, b: Event) {
    a.sequence < b.sequence || (a.sequence == b.sequence && a.side.Local? && b.side.Remote?)
  }

  predicate Sorted(events: seq<Event>) {
    forall i, j | 0 <= i < j < |events| :: !Before(events[j], events[i])
  }

  predicate SameKey(a: Event, b: Event) {
    a.side == b.side && a.sequence == b.sequence
  }

  ghost predicate FreshKey(events: seq<Event>, e: Event) {
    forall x | x in events :: !SameKey(x, e)
  }

  // Journal rows are keyed by side and sequence.
  ghost predicate UniqueKeys(events: seq<Event>) {
    forall i, j | 0 <= i < j < |events| :: !SameKey(events[i], events[j])
  }

  lemma AppendKeepsOrder(events: seq<Event>, last: Event)
    ensures Sorted(events) && (forall x | x in events :: !Before(last, x)) ==> Sorted(events + [last])
    ensures UniqueKeys(events) && FreshKey(events, last) ==> UniqueKeys(events + [last])
  {
    var all := events + [last];
    if Sorted(events) && forall x | x in events :: !Before(last, x) {
      forall i, j | 0 <= i < j < |all|
        ensures !Before(all[j], all[i])
      {
        if j == |events| { assert all[i] in events; }
      }
    }
    if UniqueKeys(events) && FreshKey(events, last) {
      forall i, j | 0 <= i < j < |all|
        ensures !SameKey(all[i], all[j])
      {
        if j == |events| { assert all[i] in events; }
      }
    }
  }

  lemma SplitLast(events: seq<Event>)
    requires Sorted(events) && events != []
    ensures var n := |events| - 1;
            && (forall x :: x in events <==> x in events[..n] || x == events[n])
            && (forall x | x in events[..n] :: !Before(events[n], x))
            && (UniqueKeys(events) ==> UniqueKeys(events[..n]) && FreshKey(events[..n], events[n]))
  {
    var n := |events| - 1;
    assert events == events[..n] + [events[n]];
    if UniqueKeys(events) {
      forall x | x in events[..n] ensures !SameKey(x, events[n]) {
        var i :| 0 <= i < n && events[i] == x;
        assert !SameKey(events[i], events[n]);
      }
    }
  }

  function InsertSorted(events: seq<Event>, e: Event): (r: seq<Event>)
    requires Sorted(events)
    ensures Sorted(r)
    ensures forall x :: x in r <==> x == e || x in events
    ensures UniqueKeys(events) && FreshKey(events, e) ==> UniqueKeys(r)
  {
    if events == [] then [e]
    else
      var n := |events| - 1;
      SplitLast(events);
      if Before(e, events[n]) then
        var r := InsertSorted(events[..n], e);
        AppendKeepsOrder(r, events[n]);
        r + [events[n]]
      else
        AppendKeepsOrder(events, e);
        events + [e]
  }

  // A stable sort into journal order.
  function SortEvents(events: seq<Event>): (r: seq<Event>)
    ensures Sorted(r)
    ensures forall x :: x in r <==> x in events
    ensures UniqueKeys(events) ==> UniqueKeys(r)
  {
    if events == [] then []
    else
      var n := |events| - 1;
      assert events == events[..n] + [events[n]];
      assert UniqueKeys(events) ==> FreshKey(events[..n], events[n]) by {
        if UniqueKeys(events) {
          forall x | x in events[..n] ensures !SameKey(x, events[n]) {
            var i :| 0 <= i < n && events[i] == x;
            assert !SameKey(events[i], events[n]);
          }
        }
      }
      InsertSorted(SortEvents(events[..n]), events[n])
  }

  // ---------------------------------------------------------------- the latest mention

  ghost predicate Latest(events: seq<Event>, side: Side, p: Path, e: Event) {
    e in events && Names(e, side, p) && forall f | f in events && Names(f, side, p) :: f.sequence <= e.sequence
  }

  lemma {:induction false} PresenceIsLatest(events: seq<Event>, side: Side, p: Path)
    requires Sorted(events)
    ensures Presence(events, side, p) == None ==> forall e | e in events :: !Names(e, side, p)
    ensures Presence(events, side, p) != None ==>
              exists e :: Latest(events, side, p, e) && Presence(events, side, p) == EventEffect(e, p)
  {
    if events != [] {
      var n := |events| - 1;
      var last := events[n];
      if Names(last, side, p) {
        assert Latest(events, side, p, last);
      } else {
        PresenceIsLatest(events[..n], side, p);
        if Presence(events, side, p) != None {
          var e :| Latest(events[..n], side, p, e) && Presence(events, side, p) == EventEffect(e, p);
          assert Latest(events, side, p, e);
        }
      }
    }
  }

  // ---------------------------------------------------------------- coalescing

  function CoalescePathEvent(previous: Option<Event>, current: Event): Event {
    if previous.None? then current
    else if previous.value.kind.Create? && current.kind.Modify? then current.(kind := Create)
    else if previous.value.kind.Delete? && current.kind.Create? then current.(kind := Modify)
    else current
  }

  // An event of the coalesced list stands for an original event at the same place: a move or a
  // rescan is kept as it is, and a path event keeps what it says about its path.
  predicate StandsFor(c: Event, e: Event) {
    && c.side == e.side && c.sequence == e.sequence && c.path == e.path && c.destination == e.destination
    && (Structural(e.kind) ==> c == e)
    && (!Structural(e.kind) ==> !Structural(c.kind) && (c.kind.Delete? <==> e.kind.Delete?))
  }

  ghost predicate Superseded(events: seq<Event>, e: Event) {
    && !Structural(e.kind)
    && exists f :: f in events && !Structural(f.kind) && f.side == e.side && f.path == e.path && f.sequence > e.sequence
  }

  // The kinds of the path events on one path, in order, and what they merge into.
  function KindsOf(events: seq<Event>, key: (Side, Path)): seq<Kind> {
    if events == [] then []
    else
      var n := |events| - 1;
      KindsOf(events[..n], key)
      + if !Structural(events[n].kind) && (events[n].side, events[n].path) == key then [events[n].kind] else []
  }

  function MergedKind(kinds: seq<Kind>): Kind
    requires kinds != []
  {
    var n := |kinds| - 1;
    if n == 0 then kinds[0]
    else
      var previous := MergedKind(kinds[..n]);
      if previous.Create? && kinds[n].Modify? then Create
      else if previous.Delete? && kinds[n].Create? then Modify
      else kinds[n]
  }

  // A merged event is a creation exactly when nothing but modifications follow some creation that
  // does not undo a deletion; it is a deletion exactly when the last event is one.
  ghost predicate NewSince(kinds: seq<Kind>, i: int) {
    && 0 <= i < |kinds| && kinds[i].Create? && (i > 0 ==> !kinds[i - 1].Delete?)
    && forall j | i < j < |kinds| :: kinds[j].Modify?
  }

  lemma {:induction false} MergedKindMeaning(kinds: seq<Kind>)
    requires kinds != [] && forall k | k in kinds :: !Structural(k)
    ensures MergedKind(kinds).Delete? <==> kinds[|kinds| - 1].Delete?
    ensures MergedKind(kinds).Create? <==> exists i :: NewSince(kinds, i)
    decreases |kinds|
  {
    var n := |kinds| - 1;
    if n == 0 {
      if kinds[0].Create? { assert NewSince(kinds, 0); }
    } else {
      var init := kinds[..n];
      MergedKindMeaning(init);
      if kinds[n].Modify? {
        if exists i :: NewSince(init, i) {
          var i :| NewSince(init, i);
          assert NewSince(kinds, i);
        }
        if exists i :: NewSince(kinds, i) {
          var i :| NewSince(kinds, i);
          assert NewSince(init, i);
        }
      } else if kinds[n].Create? && !kinds[n - 1].Delete? {
        assert NewSince(kinds, n);
      }
    }
  }

  ghost predicate HasOriginal(events: seq<Event>, c: Event) {
    exists e :: e in events && StandsFor(c, e) && !Superseded(events, e)
  }

  ghost predicate HasStandIn(r: seq<Event>, e: Event) {
    exists c :: c in r && StandsFor(c, e)
  }

  // What coalescing must deliver: journal order, one stand-in for every event that is not
  // superseded by a later path event on the same path, and nothing else.
  ghost predicate IsCoalesced(events: seq<Event>, r: seq<Event>) {
    && Sorted(r)
    && UniqueKeys(r)
    && (forall c {:trigger HasOriginal(events, c)} | c in r :: HasOriginal(events, c))
    && (forall e {:trigger HasStandIn(r, e)} | e in events && !Superseded(events, e) :: HasStandIn(r, e))
  }

  // The last path event on one path of one side.
  ghost predicate LastPathEvent(events: seq<Event>, key: (Side, Path), e: Event) {
    && e in events && !Structural(e.kind) && (e.side, e.path) == key
    && forall f | f in events && !Structural(f.kind) && (f.side, f.path) == key :: f.sequence <= e.sequence
  }

  // What the coalescing loop knows after the first events of the ordered list.
  ghost predicate Gathered(prefix: seq<Event>, structural: seq<Event>, pathEvents: map<(Side, Path), Event>) {
    && UniqueKeys(structural)
    && (forall e :: e in structural <==> e in prefix && Structural(e.kind))
    && (forall e | e in prefix && !Structural(e.kind) :: (e.side, e.path) in pathEvents)
    && (forall key | key in pathEvents ::
          exists e :: LastPathEvent(prefix, key, e) && StandsFor(pathEvents[key], e))
  }

  // The next event of an ordered list comes after everything gathered so far.
  ghost predicate ComesLast(prefix: seq<Event>, event: Event) {
    FreshKey(prefix, event) && forall f | f in prefix && f.side == event.side :: f.sequence <= event.sequence
  }

  lemma NextComesLast(ordered: seq<Event>, i: nat)
    requires i < |ordered| && Sorted(ordered) && UniqueKeys(ordered)
    ensures ComesLast(ordered[..i], ordered[i])
  {
    forall f | f in ordered[..i]
      ensures !SameKey(f, ordered[i]) && (f.side == ordered[i].side ==> f.sequence <= ordered[i].sequence)
    {
      var j :| 0 <= j < i && ordered[j] == f;
      assert !SameKey(ordered[j], ordered[i]) && !Before(ordered[i], ordered[j]);
    }
  }

  lemma GatherStructural(prefix: seq<Event>, event: Event, structural: seq<Event>, pathEvents: map<(Side, Path), Event>)
    requires Gathered(prefix, structural, pathEvents) && ComesLast(prefix, event) && Structural(event.kind)
    ensures Gathered(prefix + [event], structural + [event], pathEvents)
  {
    AppendKeepsOrder(structural, event);
    forall key | key in pathEvents
      ensures exists e :: LastPathEvent(prefix + [event], key, e) && StandsFor(pathEvents[key], e)
    {
      var e :| LastPathEvent(prefix, key, e) && StandsFor(pathEvents[key], e);
      assert LastPathEvent(prefix + [event], key, e);
    }
  }

  lemma GatherPathEvent(prefix: seq<Event>, event: Event, structural: seq<Event>, pathEvents: map<(Side, Path), Event>,
                        previous: Option<Event>)
    requires Gathered(prefix, structural, pathEvents) && ComesLast(prefix, event) && !Structural(event.kind)
    ensures Gathered(prefix + [event], structural, pathEvents[(event.side, event.path) := CoalescePathEvent(previous, event)])
  {
    var all, mine := prefix + [event], (event.side, event.path);
    var updated := pathEvents[mine := CoalescePathEvent(previous, event)];
    forall key | key in updated
      ensures exists e :: LastPathEvent(all, key, e) && StandsFor(updated[key], e)
    {
      if key == mine {
        assert LastPathEvent(all, key, event);
      } else {
        var e :| LastPathEvent(prefix, key, e) && StandsFor(pathEvents[key], e);
        assert LastPathEvent(all, key, e);
      }
    }
  }

  lemma SupersededUnlessLast(events: seq<Event>, key: (Side, Path), e: Event)
    requires LastPathEvent(events, key, e)
    ensures !Superseded(events, e)
  {
  }

  lemma NotSupersededIsLast(events: seq<Event>, e: Event, last: Event)
    requires UniqueKeys(events) && e in events && !Structural(e.kind) && !Superseded(events, e)
    requires LastPathEvent(events, (e.side, e.path), last)
    ensures last == e
  {
    var i :| 0 <= i < |events| && events[i] == e;
    var j :| 0 <= j < |events| && events[j] == last;
    assert SameKey(e, last);
    if i != j { assert SameKey(events[i], events[j]) && SameKey(events[j], events[i]); }
  }

  // Two merged events stand for different events of the list.
  lemma ValuesDiffer(events: seq<Event>, structural: seq<Event>, pathEvents: map<(Side, Path), Event>, a: (Side, Path), b: (Side, Path))
    requires UniqueKeys(events) && Gathered(events, structural, pathEvents) && a in pathEvents && b in pathEvents && a != b
    ensures !SameKey(pathEvents[a], pathEvents[b])
  {
    var e :| LastPathEvent(events, a, e) && StandsFor(pathEvents[a], e);
    var f :| LastPathEvent(events, b, f) && StandsFor(pathEvents[b], f);
    DistinctEvents(events, e, f);
  }

  lemma StructuralDiffers(events: seq<Event>, structural: seq<Event>, pathEvents: map<(Side, Path), Event>, s: Event, b: (Side, Path))
    requires UniqueKeys(events) && Gathered(events, structural, pathEvents) && s in structural && b in pathEvents
    ensures !SameKey(s, pathEvents[b])
  {
    var f :| LastPathEvent(events, b, f) && StandsFor(pathEvents[b], f);
    DistinctEvents(events, s, f);
  }

  lemma ValuesHaveUniqueKeys(events: seq<Event>, structural: seq<Event>, pathEvents: map<(Side, Path), Event>,
                             order: seq<(Side, Path)>, values: seq<Event>)
    requires UniqueKeys(events) && Gathered(events, structural, pathEvents)
    requires forall i, j | 0 <= i < j < |order| :: order[i] != order[j]
    requires |values| == |order|
    requires forall i | 0 <= i < |order| :: order[i] in pathEvents && values[i] == pathEvents[order[i]]
    ensures UniqueKeys(structural + values)
  {
    var all := structural + values;
    forall i, j | 0 <= i < j < |all|
      ensures !SameKey(all[i], all[j])
    {
      if j >= |structural| {
        if i < |structural| {
          StructuralDiffers(events, structural, pathEvents, all[i], order[j - |structural|]);
        } else {
          ValuesDiffer(events, structural, pathEvents, order[i - |structural|], order[j - |structural|]);
        }
      }
    }
  }

  lemma DistinctEvents(events: seq<Event>, e: Event, f: Event)
    requires UniqueKeys(events) && e in events && f in events && e != f
    ensures !SameKey(e, f)
  {
    var i :| 0 <= i < |events| && events[i] == e;
    var j :| 0 <= j < |events| && events[j] == f;
    if i < j { assert !SameKey(events[i], events[j]); } else { assert !SameKey(events[j], events[i]); }
  }

  lemma GatheredIsCoalesced(events: seq<Event>, ordered: seq<Event>, structural: seq<Event>,
                            pathEvents: map<(Side, Path), Event>, values: seq<Event>, r: seq<Event>)
    requires UniqueKeys(events) && UniqueKeys(ordered) && Gathered(ordered, structural, pathEvents)
    requires forall x :: x in ordered <==> x in events
    requires forall key | key in pathEvents :: pathEvents[key] in values
    requires forall v | v in values :: exists key :: key in pathEvents && v == pathEvents[key]
    requires Sorted(r) && UniqueKeys(r) && forall x :: x in r <==> x in structural || x in values
    ensures IsCoalesced(events, r)
  {
    forall c | c in r
      ensures HasOriginal(events, c)
    {
      if c in structural {
        assert c in events && StandsFor(c, c);
      } else {
        var key :| key in pathEvents && c == pathEvents[key];
        var e :| LastPathEvent(ordered, key, e) && StandsFor(c, e);
        assert LastPathEvent(events, key, e);
        SupersededUnlessLast(events, key, e);
      }
    }
    forall e | e in events && !Superseded(events, e)
      ensures HasStandIn(r, e)
    {
      if Structural(e.kind) {
        assert e in r && StandsFor(e, e);
      } else {
        var key := (e.side, e.path);
        var last :| LastPathEvent(ordered, key, last) && StandsFor(pathEvents[key], last);
        assert LastPathEvent(events, key, last);
        NotSupersededIsLast(events, e, last);
        assert pathEvents[key] in r;
      }
    }
  }

  ghost predicate HasMergedKind(events: seq<Event>, key: (Side, Path), kind: Kind) {
    KindsOf(events, key) != [] && kind == MergedKind(KindsOf(events, key))
  }

  // Every path event of the result carries the merger of the kinds reported for its path.
  ghost predicate MergesKinds(ordered: seq<Event>, r: seq<Event>) {
    forall c | c in r && !Structural(c.kind) :: HasMergedKind(ordered, (c.side, c.path), c.kind)
  }

  ghost predicate GatheredKinds(prefix: seq<Event>, pathEvents: map<(Side, Path), Event>) {
    && (forall key | key in pathEvents :: HasMergedKind(prefix, key, pathEvents[key].kind))
    && (forall key | key in pathEvents :: key == (pathEvents[key].side, pathEvents[key].path))
    && (forall key | key !in pathEvents :: KindsOf(prefix, key) == [])
  }

  lemma KindsStep(prefix: seq<Event>, event: Event, key: (Side, Path))
    ensures KindsOf(prefix + [event], key)
            == KindsOf(prefix, key)
               + if !Structural(event.kind) && (event.side, event.path) == key then [event.kind] else []
  {
    assert (prefix + [event])[..|prefix|] == prefix;
  }

  lemma KindsOfStructural(prefix: seq<Event>, event: Event, pathEvents: map<(Side, Path), Event>)
    requires GatheredKinds(prefix, pathEvents) && Structural(event.kind)
    ensures GatheredKinds(prefix + [event], pathEvents)
  {
    forall key: (Side, Path)
      ensures KindsOf(prefix + [event], key) == KindsOf(prefix, key)
    {
      KindsStep(prefix, event, key);
    }
  }

  // The event merged for a path carries the merger of the kinds seen so far and the new one.
  lemma OwnKind(prefix: seq<Event>, event: Event, previous: Option<Event>)
    requires !Structural(event.kind)
    requires var key := (event.side, event.path);
             if previous.Some? then HasMergedKind(prefix, key, previous.value.kind) else KindsOf(prefix, key) == []
    ensures HasMergedKind(prefix + [event], (event.side, event.path), CoalescePathEvent(previous, event).kind)
  {
    var own := (event.side, event.path);
    KindsStep(prefix, event, own);
    var kinds := KindsOf(prefix, own);
    assert (kinds + [event.kind])[..|kinds|] == kinds;
  }

  lemma KindsOfPathEvent(prefix: seq<Event>, event: Event, pathEvents: map<(Side, Path), Event>, previous: Option<Event>)
    requires GatheredKinds(prefix, pathEvents) && !Structural(event.kind)
    requires var key := (event.side, event.path);
             previous == if key in pathEvents then Some(pathEvents[key]) else None
    ensures GatheredKinds(prefix + [event], pathEvents[(event.side, event.path) := CoalescePathEvent(previous, event)])
  {
    var own, all := (event.side, event.path), prefix + [event];
    var merged := CoalescePathEvent(previous, event);
    OwnKind(prefix, event, previous);
    forall key: (Side, Path) | key != own
      ensures if key in pathEvents then HasMergedKind(all, key, pathEvents[key].kind) else KindsOf(all, key) == []
    {
      KindsStep(prefix, event, key);
      assert KindsOf(all, key) == KindsOf(prefix, key);
    }
    assert own == (merged.side, merged.path);
  }

  lemma StructuralStep(ordered: seq<Event>, i: nat, structural: seq<Event>, pathEvents: map<(Side, Path), Event>)
    requires Sorted(ordered) && UniqueKeys(ordered) && i < |ordered| && Structural(ordered[i].kind)
    requires Gathered(ordered[..i], structural, pathEvents) && GatheredKinds(ordered[..i], pathEvents)
    ensures Gathered(ordered[..i + 1], structural + [ordered[i]], pathEvents) && GatheredKinds(ordered[..i + 1], pathEvents)
  {
    assert ordered[..i + 1] == ordered[..i] + [ordered[i]];
    NextComesLast(ordered, i);
    KindsOfStructural(ordered[..i], ordered[i], pathEvents);
    GatherStructural(ordered[..i], ordered[i], structural, pathEvents);
  }

  lemma PathEventStep(ordered: seq<Event>, i: nat, structural: seq<Event>, pathEvents: map<(Side, Path), Event>, previous: Option<Event>)
    requires Sorted(ordered) && UniqueKeys(ordered) && i < |ordered| && !Structural(ordered[i].kind)
    requires Gathered(ordered[..i], structural, pathEvents) && GatheredKinds(ordered[..i], pathEvents)
    requires var key := (ordered[i].side, ordered[i].path);
             previous == if key in pathEvents then Some(pathEvents[key]) else None
    ensures var next := pathEvents[(ordered[i].side, ordered[i].path) := CoalescePathEvent(previous, ordered[i])];
            Gathered(ordered[..i + 1], structural, next) && GatheredKinds(ordered[..i + 1], next)
  {
    assert ordered[..i + 1] == ordered[..i] + [ordered[i]];
    NextComesLast(ordered, i);
    KindsOfPathEvent(ordered[..i], ordered[i], pathEvents, previous);
    GatherPathEvent(ordered[..i], ordered[i], structural, pathEvents, previous);
  }

  // The loop over the ordered list: structural events aside, one merged event per path.
  method GatherEvents(ordered: seq<Event>)
    returns (structural: seq<Event>, pathEvents: map<(Side, Path), Event>, order: seq<(Side, Path)>)
    requires Sorted(ordered) && UniqueKeys(ordered)
    ensures Gathered(ordered, structural, pathEvents) && GatheredKinds(ordered, pathEvents)
    ensures forall key :: key in order <==> key in pathEvents
    ensures forall j, k | 0 <= j < k < |order| :: order[j] != order[k]
  {
    structural, pathEvents, order := [], map[], [];
    for i := 0 to |ordered|
      invariant Gathered(ordered[..i], structural, pathEvents)
      invariant GatheredKinds(ordered[..i], pathEvents)
      invariant forall key :: key in order <==> key in pathEvents
      invariant forall j, k | 0 <= j < k < |order| :: order[j] != order[k]
    {
      var event := ordered[i];
      var key := (event.side, event.path);
      var previous := if key in pathEvents then Some(pathEvents[key]) else None;
      if Structural(event.kind) {
        StructuralStep(ordered, i, structural, pathEvents);
        structural := structural + [event];
      } else {
        PathEventStep(ordered, i, structural, pathEvents, previous);
        if previous == None { order := order + [key]; }
        pathEvents := pathEvents[key := CoalescePathEvent(previous, event)];
      }
    }
    assert ordered[..|ordered|] == ordered;
  }

  method CoalesceEvents(events: seq<Event>) returns (r: seq<Event>)
    requires UniqueKeys(events)
    ensures IsCoalesced(events, r) && MergesKinds(SortEvents(events), r)
  {
    var ordered := SortEvents(events);
    var structural, pathEvents, order := GatherEvents(ordered);
    var values := seq(|order|, i requires 0 <= i < |order| && order[i] in pathEvents => pathEvents[order[i]]);
    ValuesHaveUniqueKeys(ordered, structural, pathEvents, order, values);
    r := SortEvents(structural + values);
    ValuesOf(pathEvents, order, values);
    GatheredIsCoalesced(events, ordered, structural, pathEvents, values, r);
    GatheredMergesKinds(ordered, structural, pathEvents, values, r);
  }

  lemma ValuesOf(pathEvents: map<(Side, Path), Event>, order: seq<(Side, Path)>, values: seq<Event>)
    requires |values| == |order| && forall key :: key in order <==> key in pathEvents
    requires forall i | 0 <= i < |order| :: order[i] in pathEvents && values[i] == pathEvents[order[i]]
    ensures forall key | key in pathEvents :: pathEvents[key] in values
    ensures forall v | v in values :: exists key :: key in pathEvents && v == pathEvents[key]
  {
    forall key | key in pathEvents
      ensures pathEvents[key] in values
    {
      var i :| 0 <= i < |order| && order[i] == key;
      assert values[i] == pathEvents[key];
    }
  }

  lemma GatheredMergesKinds(ordered: seq<Event>, structural: seq<Event>, pathEvents: map<(Side, Path), Event>,
                            values: seq<Event>, r: seq<Event>)
    requires GatheredKinds(ordered, pathEvents) && forall e | e in structural :: Structural(e.kind)
    requires forall v | v in values :: exists key :: key in pathEvents && v == pathEvents[key]
    requires forall x :: x in r <==> x in structural || x in values
    ensures MergesKinds(ordered, r)
  {
  }

  // ---------------------------------------------------------------- coalescing loses nothing

  lemma SameLatest(r: seq<Event>, side: Side, p: Path, a: Event, b: Event)
    requires UniqueKeys(r) && Latest(r, side, p, a) && Latest(r, side, p, b)
    ensures a == b
  {
    if a != b { DistinctEvents(r, a, b); }
  }

  lemma StandInSaysTheSame(c: Event, e: Event, side: Side, p: Path)
    requires StandsFor(c, e)
    ensures Names(c, side, p) == Names(e, side, p) && EventEffect(c, p) == EventEffect(e, p)
  {
  }

  // The latest mention of a path survives coalescing.
  lemma LatestSurvives(events: seq<Event>, r: seq<Event>, side: Side, p: Path, e: Event) returns (c: Event)
    requires UniqueKeys(events) && IsCoalesced(events, r) && Latest(events, side, p, e)
    ensures Latest(r, side, p, c) && EventEffect(c, p) == EventEffect(e, p)
  {
    assert !Superseded(events, e);
    assert HasStandIn(r, e);
    c :| c in r && StandsFor(c, e);
    StandInSaysTheSame(c, e, side, p);
    forall d | d in r && Names(d, side, p)
      ensures d.sequence <= c.sequence
    {
      assert HasOriginal(events, d);
      var f :| f in events && StandsFor(d, f);
      StandInSaysTheSame(d, f, side, p);
    }
  }

  ghost predicate NamedIn(events: seq<Event>, side: Side, p: Path) {
    exists e :: e in events && Names(e, side, p)
  }

  lemma CoalescingKeepsNames(events: seq<Event>, r: seq<Event>, side: Side, p: Path)
    requires UniqueKeys(events) && IsCoalesced(events, r)
    ensures NamedIn(r, side, p) <==> NamedIn(events, side, p)
  {
    if NamedIn(r, side, p) {
      var c :| c in r && Names(c, side, p);
      assert HasOriginal(events, c);
      var e :| e in events && StandsFor(c, e);
      StandInSaysTheSame(c, e, side, p);
    }
    if NamedIn(events, side, p) {
      var ordered := SortEvents(events);
      PresenceOfNamed(ordered, side, p);
      var e :| Latest(ordered, side, p, e);
      assert Latest(events, side, p, e);
      var c := LatestSurvives(events, r, side, p, e);
    }
  }

  lemma PresenceOfNamed(ordered: seq<Event>, side: Side, p: Path)
    requires Sorted(ordered)
    ensures NamedIn(ordered, side, p) <==> Presence(ordered, side, p) != None
    ensures NamedIn(ordered, side, p) ==> exists e :: Latest(ordered, side, p, e)
  {
    PresenceIsLatest(ordered, side, p);
  }

  // The coalesced list ends up saying about every path of every side what the raw list says.
  lemma CoalescingKeepsPresence(events: seq<Event>, ordered: seq<Event>, r: seq<Event>, side: Side, p: Path)
    requires UniqueKeys(events) && IsCoalesced(events, r)
    requires Sorted(ordered) && forall x :: x in ordered <==> x in events
    ensures Presence(r, side, p) == Presence(ordered, side, p)
  {
    CoalescingKeepsNames(events, r, side, p);
    PresenceOfNamed(r, side, p);
    PresenceIsLatest(ordered, side, p);
    PresenceIsLatest(r, side, p);
    if Presence(ordered, side, p) != None {
      var e :| Latest(ordered, side, p, e) && Presence(ordered, side, p) == EventEffect(e, p);
      assert Latest(events, side, p, e);
      var c := LatestSurvives(events, r, side, p, e);
      assert NamedIn(r, side, p);
      var d :| Latest(r, side, p, d) && Presence(r, side, p) == EventEffect(d, p);
      SameLatest(r, side, p, c, d);
    }
  }

  // ---------------------------------------------------------------- dirty paths

  datatype Source = Requeued | Reported(side: Side) | OpenConflict

  predicate ContainsRescan(events: seq<Event>) {
    exists e :: e in events && e.kind.RescanRequired?
  }

  function SourcesAt(dirty: map<Path, set<Source>>, p: Path): set<Source> {
    if p in dirty then dirty[p] else {}
  }

  function AddSource(dirty: map<Path, set<Source>>, p: Path, source: Source): map<Path, set<Source>> {
    dirty[p := SourcesAt(dirty, p) + {source}]
  }

  // Why a path is dirty, read off the raw event lists.
  ghost predicate IsDirtySources(events: seq<Event>, requeued: set<Path>, dirty: map<Path, set<Source>>) {
    && (forall p :: p in dirty ==> dirty[p] != {})
    && (forall p :: Requeued in SourcesAt(dirty, p) <==> p in requeued)
    && (forall p, side :: Reported(side) in SourcesAt(dirty, p) <==> NamedIn(events, side, p))
    && (forall p :: OpenConflict !in SourcesAt(dirty, p))
  }

  function AddEvent(dirty: map<Path, set<Source>>, event: Event): map<Path, set<Source>> {
    if event.kind.RescanRequired? then dirty
    else
      var named := AddSource(dirty, event.path, Reported(event.side));
      if event.destination.None? then named else AddSource(named, event.destination.value, Reported(event.side))
  }

  lemma AddedSource(dirty: map<Path, set<Source>>, q: Path, source: Source, p: Path)
    ensures SourcesAt(AddSource(dirty, q, source), p) == SourcesAt(dirty, p) + if p == q then {source} else {}
    ensures p in AddSource(dirty, q, source) <==> p in dirty || p == q
  {
  }

  lemma AddedEvent(dirty: map<Path, set<Source>>, event: Event, p: Path)
    requires ValidEvent(event)
    ensures SourcesAt(AddEvent(dirty, event), p)
            == SourcesAt(dirty, p) + if Names(event, event.side, p) then {Reported(event.side)} else {}
    ensures p in AddEvent(dirty, event) <==> p in dirty || Names(event, event.side, p)
  {
    if !event.kind.RescanRequired? {
      var named := AddSource(dirty, event.path, Reported(event.side));
      AddedSource(dirty, event.path, Reported(event.side), p);
      if event.destination.Some? { AddedSource(named, event.destination.value, Reported(event.side), p); }
    }
  }

  lemma DirtyStepAt(events: seq<Event>, i: nat, requeued: set<Path>, dirty: map<Path, set<Source>>, p: Path)
    requires i < |events| && IsDirtySources(events[..i], requeued, dirty) && ValidEvent(events[i])
    ensures var after := AddEvent(dirty, events[i]);
            && (p in after ==> after[p] != {})
            && (Requeued in SourcesAt(after, p) <==> p in requeued)
            && (forall side :: Reported(side) in SourcesAt(after, p) <==> NamedIn(events[..i + 1], side, p))
            && OpenConflict !in SourcesAt(after, p)
  {
    NamesStep(events, i);
    AddedEvent(dirty, events[i], p);
  }

  lemma DirtyStep(events: seq<Event>, i: nat, requeued: set<Path>, dirty: map<Path, set<Source>>)
    requires i < |events| && IsDirtySources(events[..i], requeued, dirty) && ValidEvent(events[i])
    ensures IsDirtySources(events[..i + 1], requeued, AddEvent(dirty, events[i]))
  {
    forall p { DirtyStepAt(events, i, requeued, dirty, p); }
  }

  method DirtySources(localEvents: seq<Event>, remoteEvents: seq<Event>, requeued: set<Path>)
    returns (dirty: map<Path, set<Source>>)
    requires UniqueKeys(localEvents + remoteEvents)
    requires forall e | e in localEvents + remoteEvents :: ValidEvent(e)
    ensures IsDirtySources(localEvents + remoteEvents, requeued, dirty)
  {
    var raw := localEvents + remoteEvents;
    dirty := map p | p in requeued :: {Requeued};
    var coalesced := CoalesceEvents(raw);
    for i := 0 to |coalesced|
      invariant IsDirtySources(coalesced[..i], requeued, dirty)
    {
      var event := coalesced[i];
      StandInIsValid(raw, coalesced, event);
      DirtyStep(coalesced, i, requeued, dirty);
      if !event.kind.RescanRequired? {
        dirty := AddSource(dirty, event.path, Reported(event.side));
        if event.kind.Move? {
          dirty := AddSource(dirty, event.destination.value, Reported(event.side));
        }
      }
    }
    SameNamesSameSources(raw, coalesced, requeued, dirty);
  }

  lemma StandInIsValid(raw: seq<Event>, coalesced: seq<Event>, c: Event)
    requires IsCoalesced(raw, coalesced) && c in coalesced
    requires forall e | e in raw :: ValidEvent(e)
    ensures ValidEvent(c)
  {
    assert HasOriginal(raw, c);
  }

  lemma SameNamesSameSources(raw: seq<Event>, coalesced: seq<Event>, requeued: set<Path>, dirty: map<Path, set<Source>>)
    requires UniqueKeys(raw) && IsCoalesced(raw, coalesced)
    requires IsDirtySources(coalesced[..|coalesced|], requeued, dirty)
    ensures IsDirtySources(raw, requeued, dirty)
  {
    assert coalesced[..|coalesced|] == coalesced;
    forall p, side
      ensures Reported(side) in SourcesAt(dirty, p) <==> NamedIn(raw, side, p)
    {
      CoalescingKeepsNames(raw, coalesced, side, p);
    }
  }

  lemma NamesStep(events: seq<Event>, i: nat)
    requires i < |events|
    ensures forall p, side ::
              NamedIn(events[..i + 1], side, p) <==> NamedIn(events[..i], side, p) || Names(events[i], side, p)
  {
    assert events[..i + 1] == events[..i] + [events[i]];
    forall p, side
      ensures NamedIn(events[..i + 1], side, p) <==> NamedIn(events[..i], side, p) || Names(events[i], side, p)
    {
      if NamedIn(events[..i], side, p) {
        var e :| e in events[..i] && Names(e, side, p);
        assert e in events[..i + 1];
      }
      if Names(events[i], side, p) { assert events[i] in events[..i + 1]; }
    }
  }
}
