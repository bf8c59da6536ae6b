/**
 The sync engine: one cycle over the replicas and the workspace store, in place.

 The cycle reads events, works out the dirty paths, plans, records what it is about to do, changes
 the replicas, and commits.  Nobody else writes while it runs; a transport failure ends it before
 the commit.
 */
module Engine {
  import opened Wrappers
  import opened Journal
  import opened Entries
  import opened Reconcile
  import opened Planning
  import opened Trees
  import opened Cycle
  import Audit

  // ---------------------------------------------------------------- transfers

  // The items of a transfer: present and transferable at the source, and at the destination either
  // absent or of the same kind.
  ghost predicate Transferable(source: Tree, destination: Tree, items: set<Path>) {
    forall p | p in items ::
      && At(source, p).Present? && Hashed(At(source, p)) && !IsSpecial(At(source, p))
      && (At(destination, p).Present? ==> At(destination, p).entry.kind == At(source, p).entry.kind)
  }

  // Installs the items in turn and stops where something above an item is not a directory.
  method TransferBatch(destination: Tree, source: Tree, items: seq<Path>, deliver: Delivery)
    returns (after: Tree, ok: bool)
    requires Closed(source) && Transferable(source, destination, ToSet(items)) && Faithful(deliver) && Distinct(items)
    ensures ok <==> forall p | p in items :: Accessible(destination, p)
    ensures ok ==> Installed(destination, after, source, ToSet(items), deliver)
  {
    after, ok := destination, true;
    for i := 0 to |items|
      invariant Installed(destination, after, source, ToSet(items[..i]), deliver)
      invariant forall p | p in items[..i] :: Accessible(destination, p)
    {
      var p := items[i];
      assert p in ToSet(items);
      assert items[..i + 1] == items[..i] + [p];
      SameObstacles(destination, after, source, ToSet(items[..i]), deliver, p);
      if !Accessible(after, p) {
        ok := false;
        return;
      }
      InstalledStep(destination, after, source, ToSet(items[..i]), deliver, p);
      assert ToSet(items[..i + 1]) == ToSet(items[..i]) + {p};
      after := Install(after, p, deliver.copy(p, At(source, p)), ToSet(items[..i]), deliver.time);
    }
    assert items[..|items|] == items;
  }

  // Earlier installs of a batch neither remove nor create an obstacle above a later item.
  lemma SameObstacles(destination: Tree, after: Tree, source: Tree, done: set<Path>, deliver: Delivery, p: Path)
    requires Closed(source) && Faithful(deliver) && At(source, p).Present?
    requires Transferable(source, destination, done) && Installed(destination, after, source, done, deliver)
    ensures Accessible(after, p) <==> Accessible(destination, p)
  {
    forall i | 0 < i < |p|
      ensures (At(after, p[..i]).Missing? || IsDir(At(after, p[..i])))
              <==> (At(destination, p[..i]).Missing? || IsDir(At(destination, p[..i])))
    {
      var a := p[..i];
      assert Above(a, p);
      InstalledShape(destination, source, done, deliver, a);
      assert At(after, a) == InstalledAt(destination, source, done, deliver, a);
    }
  }

  // What kind of thing is at a path after a batch of installs.
  lemma InstalledShape(destination: Tree, source: Tree, items: set<Path>, deliver: Delivery, p: Path)
    requires Faithful(deliver) && Transferable(source, destination, items)
    ensures var s := InstalledAt(destination, source, items, deliver, p);
            if p in items then s.Present? && s.entry.kind == At(source, p).entry.kind
            else if At(destination, p).Present? then s.Present? && s.entry.kind == At(destination, p).entry.kind
            else if exists q :: q in items && Above(p, q) then IsDir(s)
            else s.Missing?
  {
    if p in items { assert ContentEqual(deliver.copy(p, At(source, p)), At(source, p)); }
    HeldIsAlike(destination, items, {}, deliver.time, p);
  }

  // What one more install creates or replaces directly in a directory, counted from the start.
  lemma StirredStep(destination: Tree, after: Tree, source: Tree, done: set<Path>, deliver: Delivery, p: Path, q: Path)
    requires Faithful(deliver) && Transferable(source, destination, done)
    requires Installed(destination, after, source, done, deliver)
    ensures Stirred(after, q, p) ==> Stirred(destination, q, p)
    ensures Stirred(destination, q, p) ==> Stirred(after, q, p) || exists r :: r in done && Stirred(destination, q, r)
  {
    if Above(q, p) {
      var c := Child(q, p);
      assert At(after, c) == InstalledAt(destination, source, done, deliver, c);
      InstalledShape(destination, source, done, deliver, c);
      if Stirred(destination, q, p) && !Stirred(after, q, p) {
        var r :| r in done && Within(r, c);
        ChildOnTheWay(q, p, r);
        assert Stirred(destination, q, r);
      }
    }
  }

  lemma HeldStep(destination: Tree, after: Tree, source: Tree, done: set<Path>, deliver: Delivery, p: Path, q: Path)
    requires Faithful(deliver) && Transferable(source, destination, done)
    requires Installed(destination, after, source, done, deliver) && q !in done && q != p
    ensures HeldAt(after, {p}, {}, deliver.time, q) == HeldAt(destination, done + {p}, {}, deliver.time, q)
  {
    assert At(after, q) == HeldAt(destination, done, {}, deliver.time, q);
    StirredStep(destination, after, source, done, deliver, p, q);
    DisturbedStep(destination, done, p, q);
  }

  lemma DisturbedStep(tree: Tree, done: set<Path>, p: Path, q: Path)
    ensures Disturbed(tree, done + {p}, {}, q) <==>
              Disturbed(tree, done, {}, q)
              || (if At(tree, q).Missing? then Above(q, p) else IsDir(At(tree, q)) && Stirred(tree, q, p))
  {
    assert p in done + {p};
    forall r | r in done ensures r in done + {p} {}
  }

  lemma InstalledStep(destination: Tree, after: Tree, source: Tree, done: set<Path>, deliver: Delivery, p: Path)
    requires Faithful(deliver) && Transferable(source, destination, done + {p})
    requires Installed(destination, after, source, done, deliver)
    ensures Installed(destination, Install(after, p, deliver.copy(p, At(source, p)), done, deliver.time), source, done + {p}, deliver)
  {
    hide HeldAt;
    var s := deliver.copy(p, At(source, p));
    forall q
      ensures At(Install(after, p, s, done, deliver.time), q) == InstalledAt(destination, source, done + {p}, deliver, q)
    {
      InstallAt(after, p, s, done, deliver.time, q);
      assert At(after, q) == InstalledAt(destination, source, done, deliver, q);
      if q !in done && q != p { HeldStep(destination, after, source, done, deliver, p, q); }
    }
  }

  // ---------------------------------------------------------------- plans and decisions

  // The paths of the actions of one kind that are not put off.
  function ActionPaths(actions: seq<SyncAction>, kind: ActionKind, deferred: set<Path>): (paths: seq<Path>)
    ensures forall p :: p in paths <==> p !in deferred && exists a :: a in actions && a.kind == kind && a.path == p
    ensures (forall i, j | 0 <= i < j < |actions| :: actions[i].path != actions[j].path) ==> Distinct(paths)
  {
    if actions == [] then []
    else
      var n := |actions| - 1;
      var init := ActionPaths(actions[..n], kind, deferred);
      assert actions == actions[..n] + [actions[n]];
      if actions[n].kind == kind && actions[n].path !in deferred then
        AppendShallowest(init, actions[n].path);
        init + [actions[n].path]
      else init
  }

  // The action list of a plan is the plan's decisions.
  lemma ActionsAreDecisions(planned: SyncPlan, plan: Plan, kind: ActionKind)
    requires IsPlan(planned, plan.decisions)
    ensures ToSet(ActionPaths(planned.actions, kind, plan.deferred)) == plan.Doing(kind)
  {
    forall p
      ensures p in ActionPaths(planned.actions, kind, plan.deferred) <==> p in plan.Doing(kind)
    {
      if p in plan.Doing(kind) {
        var d := plan.decisions[p];
        assert Decided(plan.decisions, p, d);
        assert SyncAction(d.action, p, d.local, d.remote, d.baseAfter) in planned.actions;
      }
      if p in ActionPaths(planned.actions, kind, plan.deferred) {
        var a :| a in planned.actions && a.kind == kind && a.path == p;
        assert Decided(plan.decisions, a.path, Act(a.kind, a.local, a.remote, a.baseAfter));
      }
    }
  }

  // Two hash rounds over a whole plan give every path its lazy decision.
  lemma RoundsAreLazy(plan: SyncPlan, second: SyncPlan, base: Tree, seenLocal: Tree, seenRemote: Tree, local: Tree, remote: Tree,
                      dirty: set<Path>, ignored: Path -> bool, p: Path)
    requires IsPlan(plan, Decisions(base, seenLocal, seenRemote, dirty, ignored))
    requires var l := Refresh(seenLocal, RequestedOn(plan, Local), q => At(local, q));
             var r := Refresh(seenRemote, RequestedOn(plan, Remote), q => At(remote, q));
             IsPlan(second, Decisions(base, l, r, dirty, ignored))
    requires p in dirty && !ignored(p)
    ensures var l := Refresh(seenLocal, RequestedOn(plan, Local), q => At(local, q));
            var r := Refresh(seenRemote, RequestedOn(plan, Remote), q => At(remote, q));
            var l2 := Refresh(l, DeletesWithoutHash(second, DeleteLocal), q => At(local, q));
            var r2 := Refresh(r, DeletesWithoutHash(second, DeleteRemote), q => At(remote, q));
            Decide(At(base, p), At(l2, p), At(r2, p))
            == LazyDecision(At(base, p), At(seenLocal, p), At(seenRemote, p), At(local, p), At(remote, p))
  {
    var l := Refresh(seenLocal, RequestedOn(plan, Local), q => At(local, q));
    var r := Refresh(seenRemote, RequestedOn(plan, Remote), q => At(remote, q));
    RequestedWhereAsked(plan, Decisions(base, seenLocal, seenRemote, dirty, ignored), p);
    RefreshAt(seenLocal, RequestedOn(plan, Local), q => At(local, q), p);
    RefreshAt(seenRemote, RequestedOn(plan, Remote), q => At(remote, q), p);
    DeletesWhereUnhashed(second, Decisions(base, l, r, dirty, ignored), p);
    RefreshAt(l, DeletesWithoutHash(second, DeleteLocal), q => At(local, q), p);
    RefreshAt(r, DeletesWithoutHash(second, DeleteRemote), q => At(remote, q), p);
  }

  function ConflictPaths(conflicts: seq<ConflictDecision>): set<Path> {
    set c | c in conflicts :: c.path
  }

  predicate ActionDeletesDirectory(a: SyncAction) {
    (a.kind.DeleteLocal? && IsDir(a.local)) || (a.kind.DeleteRemote? && IsDir(a.remote))
  }

  // ---------------------------------------------------------------- echoes and dirty paths

  // What the engine expects a watcher to report about its own changes.
  type Echoes = map<(Side, Path), State>

  // How a reported path is observed for comparison with the expectation.
  function Observed(expected: State, actual: State): State {
    if IsFile(expected) then actual else Metadata(actual)
  }

  // An event that only reports what the engine did itself, and so does not make its path dirty.
  predicate IsEcho(w: World, echoes: Echoes, side: Side, p: Path) {
    && p !in w.requeued && (side, p) in echoes
    && Observed(echoes[(side, p)], if side.Local? then At(w.local, p) else At(w.remote, p)) == echoes[(side, p)]
  }

  function EchoedPaths(w: World, echoes: Echoes, coalesced: seq<Event>): set<(Side, Path)> {
    set e | e in coalesced && !Structural(e.kind) && IsEcho(w, echoes, e.side, e.path) :: (e.side, e.path)
  }

  // What is hashed in order to tell: the reports of paths where a regular file is expected.
  predicate IsCandidate(w: World, echoes: Echoes, side: Side, p: Path) {
    p !in w.requeued && (side, p) in echoes && IsFile(echoes[(side, p)])
  }

  function CandidatePaths(w: World, echoes: Echoes, coalesced: seq<Event>): set<(Side, Path)> {
    set e | e in coalesced && !Structural(e.kind) && IsCandidate(w, echoes, e.side, e.path) :: (e.side, e.path)
  }

  function Unechoed(sources: set<Source>, p: Path, echoed: set<(Side, Path)>): set<Source> {
    set s | s in sources && !(s.Reported? && (s.side, p) in echoed)
  }

  // A move of a directory makes the events insufficient and calls for an audit: it was one in the
  // base, or is one at its destination.
  predicate BaseDirectoryMoved(w: World, coalesced: seq<Event>) {
    exists e | e in coalesced :: e.kind.Move? && IsDir(At(w.base, e.path))
  }

  predicate MovedToDirectory(w: World, coalesced: seq<Event>) {
    exists e | e in coalesced ::
      e.kind.Move? && e.destination.Some? && IsDir(At(if e.side.Local? then w.local else w.remote, e.destination.value))
  }

  // Looking at the destinations of local moves fails below anything but a directory.
  predicate MovedOutOfSight(w: World, coalesced: seq<Event>) {
    exists e | e in coalesced ::
      e.kind.Move? && e.side.Local? && e.destination.Some? && !Accessible(w.local, e.destination.value)
  }

  // The moves and rescans that call for an audit.  Where a destination cannot be looked at, only the
  // base decides.
  ghost predicate CallsForAudit(w: World, events: seq<Event>) {
    || (exists e | e in events :: e.kind.RescanRequired?)
    || (exists e | e in events :: e.kind.Move? && At(w.base, e.path).Present? && At(w.base, e.path).entry.kind.Dir?)
    || ((forall e | e in events && e.kind.Move? && e.side.Local? && e.destination.Some? ::
           Accessible(w.local, e.destination.value))
        && exists e | e in events :: e.kind.Move? && e.destination.Some? && IsDir(OnSide(w, e.side, e.destination.value)))
  }

  function OnSide(w: World, side: Side, p: Path): State {
    if side.Local? then At(w.local, p) else At(w.remote, p)
  }

  lemma AuditIsCalled(w: World, raw: seq<Event>, coalesced: seq<Event>)
    requires IsCoalesced(raw, coalesced)
    ensures CallsForAudit(w, raw)
            <==> ContainsRescan(raw) || BaseDirectoryMoved(w, coalesced)
                 || (!MovedOutOfSight(w, coalesced) && MovedToDirectory(w, coalesced))
  {
    forall e: Event | e.kind.Move?
      ensures e in raw <==> e in coalesced
    {
      if e in raw { assert HasStandIn(coalesced, e); }
      if e in coalesced { assert HasOriginal(raw, e); }
    }
  }

  // What a cycle looks at before anything else, on both sides: what is requeued, in conflict, or
  // named by an event.
  ghost predicate Mentioned(w: World, events: seq<Event>, p: Path) {
    p in w.requeued || p in w.conflicts || exists side :: NamedIn(events, side, p)
  }

  // The local side cannot look below anything but a directory; the remote side finds nothing there.
  ghost predicate Observable(w: World, events: seq<Event>) {
    forall p | Mentioned(w, events, p) :: Accessible(w.local, p)
  }

  // ---------------------------------------------------------------- when a cycle can commit

  // What an undisturbed cycle that has planned needs in order to commit: nothing but directories above
  // a transferred path, and in every directory it deletes nothing that does not go too.
  ghost predicate Feasible(w: World, plan: Plan, deliver: Transport) {
    && (forall p | p in plan.Doing(Push) :: Accessible(w.remote, p))
    && (forall p | p in plan.Doing(Pull) :: Accessible(w.local, p))
    && (forall p, q | p in plan.Doing(DeleteLocal) && Above(p, q)
          && InstalledAt(w.local, w.remote, plan.Doing(Pull), deliver.local, q).Present? :: q in plan.Doing(DeleteLocal))
    && (forall p, q | p in plan.GoneRemote() && Above(p, q)
          && InstalledAt(w.remote, w.local, plan.Doing(Push), deliver.remote, q).Present? :: q in plan.GoneRemote())
  }

  lemma NeedsAccess(w: World, plan: Plan, deliver: Transport)
    ensures Feasible(w, plan, deliver) ==> forall p | p in plan.Doing(Push) :: Accessible(w.remote, p)
    ensures Feasible(w, plan, deliver) ==> forall p | p in plan.Doing(Pull) :: Accessible(w.local, p)
  {
  }

  // Once everything is installed the deletions decide.
  lemma NeedsEmptied(w: World, plan: Plan, deliver: Transport, pulled: Tree, pushed: Tree)
    requires Installed(w.remote, pushed, w.local, plan.Doing(Push), deliver.remote)
    requires Installed(w.local, pulled, w.remote, plan.Doing(Pull), deliver.local)
    requires forall p | p in plan.Doing(Push) :: Accessible(w.remote, p)
    requires forall p | p in plan.Doing(Pull) :: Accessible(w.local, p)
    ensures Feasible(w, plan, deliver)
            <==> ClosedDownwards(pulled, plan.Doing(DeleteLocal)) && ClosedDownwards(pushed, plan.GoneRemote())
  {
  }

  lemma InstalledKeepsClosed(before: Tree, after: Tree, source: Tree, items: set<Path>, deliver: Delivery)
    requires Closed(before) && Closed(source) && Faithful(deliver) && Transferable(source, before, items)
    requires Installed(before, after, source, items, deliver) && forall p | p in items :: Accessible(before, p)
    ensures Closed(after)
  {
    forall a, q | Above(a, q) && At(after, q).Present?
      ensures IsDir(At(after, a))
    {
      assert At(after, a) == InstalledAt(before, source, items, deliver, a);
      assert At(after, q) == InstalledAt(before, source, items, deliver, q);
      InstalledShape(before, source, items, deliver, q);
      InstalledShape(before, source, items, deliver, a);
      if q in items {
        InstalledAbove(before, source, items, deliver, a, q);
      } else if At(before, q).Missing? {
        var r :| r in items && Above(q, r);
        AboveTransitive(a, q, r);
        InstalledAbove(before, source, items, deliver, a, r);
      } else {
        assert IsDir(At(before, a));
        if a in items { assert IsDir(At(source, a)); }
      }
    }
  }

  lemma InstalledAbove(before: Tree, source: Tree, items: set<Path>, deliver: Delivery, a: Path, r: Path)
    requires Closed(source) && Faithful(deliver) && Transferable(source, before, items)
    requires r in items && Above(a, r) && Accessible(before, r)
    ensures IsDir(InstalledAt(before, source, items, deliver, a))
  {
    assert a == r[..|a|];
    InstalledShape(before, source, items, deliver, a);
  }

  lemma DeletedKeepsClosed(before: Tree, after: Tree, items: set<Path>, undone: set<Path>, time: Path -> int)
    requires Closed(before) && ClosedDownwards(before, items - undone)
    requires forall p :: At(after, p) == DeletedAt(before, items, undone, time, p)
    ensures Closed(after)
  {
    forall a, q | Above(a, q) && At(after, q).Present?
      ensures IsDir(At(after, a))
    {
      HeldIsAlike(before, {}, items, time, a);
      HeldIsAlike(before, {}, items, time, q);
    }
  }

  // What an action needs of the two sides.
  ghost predicate ActsSafely(w: World, d: Decision, p: Path) {
    var local, remote := At(w.local, p), At(w.remote, p);
    d.Act? ==> match d.action
      case UpdateBase => true
      case Push => local.Present? && Hashed(local) && !IsSpecial(local) && !(IsDir(local) && remote.Present?)
                   && (remote.Present? ==> local.entry.kind == remote.entry.kind)
      case Pull => remote.Present? && Hashed(remote) && !IsSpecial(remote) && !(IsDir(remote) && local.Present?)
                   && (local.Present? ==> local.entry.kind == remote.entry.kind)
      case DeleteLocal => local.Present?
      case DeleteRemote => remote.Present?
  }

  lemma ActionMeaning(w: World, plan: Plan, basis: Basis, p: Path)
    requires Planned(w, plan, basis) && p in plan.decisions
    ensures ActsSafely(w, plan.decisions[p], p)
  {
    Meaning(w, plan, basis, p);
  }

  lemma ActionsAreSafe(w: World, plan: Plan, basis: Basis)
    requires Planned(w, plan, basis)
    ensures forall p | p in plan.decisions :: ActsSafely(w, plan.decisions[p], p)
  {
    hide Planned, ActsSafely;
    forall p | p in plan.decisions
      ensures ActsSafely(w, plan.decisions[p], p)
    {
      ActionMeaning(w, plan, basis, p);
    }
  }

  lemma SafeIsTransferable(w: World, plan: Plan)
    requires forall p | p in plan.decisions :: ActsSafely(w, plan.decisions[p], p)
    ensures Transferable(w.local, w.remote, plan.Doing(Push)) && Transferable(w.remote, w.local, plan.Doing(Pull))
    ensures forall p | p in plan.Doing(DeleteLocal) :: At(w.local, p).Present?
    ensures forall p | p in plan.Doing(DeleteRemote) :: At(w.remote, p).Present?
  {
    assert forall p | p in plan.Doing(Push) + plan.Doing(Pull) + plan.Doing(DeleteLocal) + plan.Doing(DeleteRemote) ::
        ActsSafely(w, plan.decisions[p], p);
  }

  // Pushing leaves the sources of the pulls as they were, and takes nothing away.
  lemma PushedElsewhere(w: World, plan: Plan, pushed: Tree, deliver: Transport, p: Path)
    requires Installed(w.remote, pushed, w.local, plan.Doing(Push), deliver.remote) && Closed(w.local)
    requires forall q | q in plan.Doing(Push) :: At(w.local, q).Present?
    requires p !in plan.Doing(Push) && At(w.remote, p).Present?
    ensures At(pushed, p).Present?
    ensures (IsDir(At(w.remote, p)) && At(w.local, p).Present?) || At(pushed, p) == At(w.remote, p)
  {
    assert At(pushed, p) == InstalledAt(w.remote, w.local, plan.Doing(Push), deliver.remote, p);
    if At(pushed, p) != At(w.remote, p) {
      var q :| q in plan.Doing(Push) && Stirred(w.remote, p, q);
      assert IsDir(At(w.local, p));
    }
  }

  // The transfers of a plan meet what a batch requires of them.
  lemma PlanIsTransferable(w: World, plan: Plan, basis: Basis, pushed: Tree, deliver: Transport)
    requires Planned(w, plan, basis)
    requires Installed(w.remote, pushed, w.local, plan.Doing(Push), deliver.remote)
    ensures Transferable(w.local, w.remote, plan.Doing(Push))
    ensures Transferable(w.remote, w.local, plan.Doing(Pull))
    ensures Transferable(pushed, w.local, plan.Doing(Pull))
    ensures forall p | p in plan.Doing(Pull) :: At(pushed, p) == At(w.remote, p)
    ensures forall p | p in plan.Doing(DeleteLocal) :: At(w.local, p).Present?
    ensures forall p | p in plan.Doing(DeleteRemote) :: At(pushed, p).Present?
  {
    ActionsAreSafe(w, plan, basis);
    SafeIsTransferable(w, plan);
    forall p | p in plan.Doing(Pull)
      ensures At(pushed, p) == At(w.remote, p)
    {
      PulledIsKept(w, plan, pushed, deliver, p);
    }
    forall p | p in plan.Doing(DeleteRemote)
      ensures At(pushed, p).Present?
    {
      PushedElsewhere(w, plan, pushed, deliver, p);
    }
  }

  // The deletions left undone are those of what was planned to be a symbolic link.
  lemma UndoneArePlanned(w: World, plan: Plan, basis: Basis, pushed: Tree, deliver: Transport)
    requires Planned(w, plan, basis)
    requires Installed(w.remote, pushed, w.local, plan.Doing(Push), deliver.remote)
    ensures Undeleted(pushed, plan.Doing(DeleteRemote), true) == plan.Undone()
  {
    hide Planned, Installed;
    forall p | p in plan.Doing(DeleteRemote)
      ensures IsLink(At(pushed, p)) <==> IsLink(plan.decisions[p].remote)
    {
      Meaning(w, plan, basis, p);
      LinksStayLinks(w, plan, pushed, deliver, p);
    }
  }

  lemma LinksStayLinks(w: World, plan: Plan, pushed: Tree, deliver: Transport, p: Path)
    requires Installed(w.remote, pushed, w.local, plan.Doing(Push), deliver.remote)
    requires p !in plan.Doing(Push) && At(w.remote, p).Present?
    ensures IsLink(At(pushed, p)) <==> IsLink(At(w.remote, p))
  {
    assert At(pushed, p) == InstalledAt(w.remote, w.local, plan.Doing(Push), deliver.remote, p);
    HeldIsAlike(w.remote, plan.Doing(Push), {}, deliver.remote.time, p);
  }

  lemma NothingUndone(pulled: Tree, plan: Plan)
    ensures Undeleted(pulled, plan.Doing(DeleteLocal), false) == {}
    ensures plan.Doing(DeleteLocal) - {} == plan.Doing(DeleteLocal)
  {
  }

  lemma PulledIsKept(w: World, plan: Plan, pushed: Tree, deliver: Transport, p: Path)
    requires Installed(w.remote, pushed, w.local, plan.Doing(Push), deliver.remote) && Closed(w.local)
    requires forall q | q in plan.Doing(Push) :: At(w.local, q).Present?
    requires p in plan.Doing(Pull) && ActsSafely(w, plan.decisions[p], p)
    ensures At(pushed, p) == At(w.remote, p)
  {
    PushedElsewhere(w, plan, pushed, deliver, p);
  }

  // The commit acknowledges the events it was made on: no capture failed and no deletion was left undone.
  predicate Acknowledges(w: World, v: World, plan: Plan) {
    Changed(plan, w, v.local, v.remote) == {} && plan.Undone() == {}
  }

  // ---------------------------------------------------------------- the refresh after a commit

  type Stamps = Path -> Option<nat>

  function LookedAt(tree: Tree, stamps: Stamps, p: Path): Audit.Observation {
    Audit.Observation(At(tree, p), stamps(p))
  }

  // Completed paths that do not match the new base on both sides.
  function Mismatched(v: World, completed: set<Path>): set<Path> {
    set p | p in completed && !(Audit.ObservationMatches(Local, At(v.local, p), At(v.base, p))
                                && Audit.ObservationMatches(Remote, At(v.remote, p), At(v.base, p)))
  }

  // The signature stored for a path of one side when the cycle ends.
  function StoredAfter(side: Side, refreshed: bool, completed: set<Path>, base: Tree, tree: Tree, stamps: Stamps,
                       signatures: Audit.Signatures, p: Path): Option<nat> {
    var stored := Audit.Stored(signatures, p);
    if !refreshed || p !in completed then stored
    else Audit.NextStored(Audit.AfterRefresh(side, At(base, p), LookedAt(tree, stamps, p)), stored)
  }

  function Bits(s: State): int {
    if s.Present? then Audit.PermissionBits(s.entry.mode) else 0
  }

  // The refresh requeues a completed path exactly when it is a directory whose permission bits are
  // not those of the base on one side.
  lemma RefreshRequeues(w: World, v: World, plan: Plan, basis: Basis, deliver: Transport, p: Path)
    requires Planned(w, plan, basis) && Reliable(deliver)
    requires Commits(w, v, plan, deliver) && p in plan.Completed()
    ensures p in Mismatched(v, plan.Completed()) <==>
              IsDir(At(v.base, p))
              && (Bits(At(v.local, p)) != Bits(At(v.base, p)) || Bits(At(v.remote, p)) != Bits(At(v.base, p)))
  {
    hide Planned, Commits, Reliable;
    CompletedAgrees(w, v, plan, basis, deliver, p);
    CompletedIsPlain(w, v, plan, basis, deliver, p);
    MatchesUnlessDirectory(Local, At(v.local, p), At(v.base, p));
    MatchesUnlessDirectory(Remote, At(v.remote, p), At(v.base, p));
  }

  lemma MatchesUnlessDirectory(side: Side, current: State, base: State)
    requires Plain(base) && ContentEqual(base, current)
    ensures Audit.ObservationMatches(side, current, base)
            <==> (IsDir(base) ==> Bits(current) == Bits(base))
  {
  }

  lemma CompletedIsPlain(w: World, v: World, plan: Plan, basis: Basis, deliver: Transport, p: Path)
    requires Planned(w, plan, basis) && Reliable(deliver)
    requires Commits(w, v, plan, deliver) && p in plan.Completed()
    ensures Plain(At(v.base, p))
  {
    hide Planned, Installed, HeldAt;
    var pushed, pulled :| Installed(w.remote, pushed, w.local, plan.Doing(Push), deliver.remote)
                          && Installed(w.local, pulled, w.remote, plan.Doing(Pull), deliver.local)
                          && CommitsFrom(w, v, plan, deliver, pulled, pushed);
    Meaning(w, plan, basis, p);
    ActionMeaning(w, plan, basis, p);
    if p in plan.Doing(Push) {
      CopyAt(w.remote, pushed, w.local, plan.Doing(Push), deliver.remote, p);
      ArrivedIsPlain(deliver.remote, p, At(w.local, p), pushed, plan.Doing(DeleteRemote), plan.Undone());
    } else if p in plan.Doing(Pull) {
      CopyAt(w.local, pulled, w.remote, plan.Doing(Pull), deliver.local, p);
      ArrivedIsPlain(deliver.local, p, At(w.remote, p), pulled, plan.Doing(DeleteLocal), {});
    }
  }

  lemma CopyAt(before: Tree, after: Tree, source: Tree, items: set<Path>, deliver: Delivery, p: Path)
    requires Installed(before, after, source, items, deliver) && p in items
    ensures At(after, p) == deliver.copy(p, At(source, p))
  {
    assert At(after, p) == InstalledAt(before, source, items, deliver, p);
  }

  lemma ArrivedIsPlain(deliver: Delivery, p: Path, s: State, arrived: Tree, deleted: set<Path>, undone: set<Path>)
    requires Faithful(deliver) && s.Present? && Hashed(s) && !IsSpecial(s)
    requires At(arrived, p) == deliver.copy(p, s) && p !in deleted
    ensures Plain(DeletedAt(arrived, deleted, undone, deliver.time, p))
  {
    var copy := deliver.copy(p, s);
    assert ContentEqual(copy, s);
    HeldIsAlike(arrived, {}, deleted, deliver.time, p);
    AlikeSaysTheSame(DeletedAt(arrived, deleted, undone, deliver.time, p), copy, s);
  }

  // A directory whose permission bits differ on the two sides is requeued by every cycle that decides
  // about it and is refreshed, and the sides differ as before: this never ends by itself.
  lemma ModesStayRequeued(w: World, v: World, plan: Plan, basis: Basis, deliver: Transport, p: Path)
    requires Planned(w, plan, basis) && Reliable(deliver)
    requires Commits(w, v, plan, deliver) && p in plan.decisions && !IsSpecial(At(w.base, p))
    requires IsDir(At(w.local, p)) && IsDir(At(w.remote, p)) && Bits(At(w.local, p)) != Bits(At(w.remote, p))
    ensures p in Mismatched(v, plan.Completed()) && !IsSpecial(At(v.base, p))
    ensures IsDir(At(v.local, p)) && Bits(At(v.local, p)) == Bits(At(w.local, p))
    ensures IsDir(At(v.remote, p)) && Bits(At(v.remote, p)) == Bits(At(w.remote, p))
  {
    hide Planned, Installed, Reliable, HeldAt;
    DirectoriesUpdate(w, plan, basis, p);
    var pushed, pulled :| Installed(w.remote, pushed, w.local, plan.Doing(Push), deliver.remote)
                          && Installed(w.local, pulled, w.remote, plan.Doing(Pull), deliver.local)
                          && CommitsFrom(w, v, plan, deliver, pulled, pushed);
    UntouchedStays(w, v, plan, basis, deliver, pulled, pushed, p);
    RefreshRequeues(w, v, plan, basis, deliver, p);
  }

  // Directories on both sides only update the base, to the remote one.
  lemma DirectoriesUpdate(w: World, plan: Plan, basis: Basis, p: Path)
    requires Planned(w, plan, basis) && p in plan.decisions
    requires IsDir(At(w.local, p)) && IsDir(At(w.remote, p)) && !IsSpecial(At(w.base, p))
    ensures p in plan.Doing(UpdateBase) && plan.decisions[p].baseAfter == At(w.remote, p)
  {
    hide Closed;
    var base, local, remote := At(w.base, p), At(w.local, p), At(w.remote, p);
    assert At(basis.seenLocal, p) == local && At(basis.seenRemote, p) == remote;
    assert plan.decisions[p] == LazyDecision(base, local, remote, local, remote) == Act(UpdateBase, local, remote, remote);
  }

  // ---------------------------------------------------------------- the engine

  class SyncEngine {
    const ignored: Path -> bool
    const deliver: Transport
    var base: Tree
    var local: Tree
    var remote: Tree
    var requeued: set<Path>
    var conflicts: map<Path, Record>

    function State(): World
      reads this
    {
      World(base, local, remote, requeued, conflicts)
    }

    constructor (ignored: Path -> bool, deliver: Transport, local: Tree, remote: Tree)
      ensures this.ignored == ignored && this.deliver == deliver
      ensures State() == World(map[], local, remote, {}, map[])
    {
      this.ignored, this.deliver := ignored, deliver;
      this.base, this.local, this.remote := map[], local, remote;
      requeued, conflicts := {}, map[];
    }

    method ConflictingDirectoryDeletes(planned: SyncPlan, ghost decisions: map<Path, Decision>) returns (deferred: set<Path>)
      requires IsPlan(planned, decisions)
      ensures Defers(Plan(decisions, deferred), State())
    {
      var held := ConflictPaths(planned.conflicts) + conflicts.Keys;
      deferred := {};
      for i := 0 to |planned.actions|
        invariant forall p :: p in deferred <==>
          exists a :: a in planned.actions[..i] && a.path == p && ActionDeletesDirectory(a)
                      && exists c :: c in held && Within(c, p)
      {
        var action := planned.actions[i];
        assert planned.actions[..i + 1] == planned.actions[..i] + [action];
        if ActionDeletesDirectory(action) && exists c | c in held :: Within(c, action.path) {
          deferred := deferred + {action.path};
        }
      }
      assert planned.actions[..|planned.actions|] == planned.actions;
      HeldPaths(planned, decisions, deferred, held);
    }

    lemma HeldPaths(planned: SyncPlan, decisions: map<Path, Decision>, deferred: set<Path>, held: set<Path>)
      requires IsPlan(planned, decisions) && held == ConflictPaths(planned.conflicts) + conflicts.Keys
      requires forall p :: p in deferred <==>
        exists a :: a in planned.actions && a.path == p && ActionDeletesDirectory(a) && exists c :: c in held && Within(c, p)
      ensures Defers(Plan(decisions, deferred), State())
    {
      var plan := Plan(decisions, deferred);
      forall c
        ensures c in held <==> c in plan.InConflict() || c in conflicts
      {
        if c in plan.InConflict() {
          assert Decided(decisions, c, decisions[c]);
          assert ConflictDecision(c, decisions[c].reason, decisions[c].local, decisions[c].remote) in planned.conflicts;
        }
        if c in ConflictPaths(planned.conflicts) {
          var d :| d in planned.conflicts && d.path == c;
          assert Decided(decisions, c, Conflict(d.reason, d.local, d.remote));
        }
      }
      forall p
        ensures (exists a :: a in planned.actions && a.path == p && ActionDeletesDirectory(a))
                <==> p in decisions && DeletesDirectory(decisions[p])
      {
        if p in decisions && DeletesDirectory(decisions[p]) {
          var d := decisions[p];
          assert Decided(decisions, p, d);
          var a := SyncAction(d.action, p, d.local, d.remote, d.baseAfter);
          assert a in planned.actions && ActionDeletesDirectory(a);
        }
        if exists a :: a in planned.actions && a.path == p && ActionDeletesDirectory(a) {
          var a :| a in planned.actions && a.path == p && ActionDeletesDirectory(a);
          assert Decided(decisions, p, Act(a.kind, a.local, a.remote, a.baseAfter));
        }
      }
    }

    // Installs and deletes what the plan says; false when a step fails, whatever was done so far.
    method ChangeReplicas(planned: SyncPlan, ghost plan: Plan, deferred: set<Path>, ghost basis: Basis)
      returns (done: bool, undone: set<Path>, ghost pulled: Tree, ghost pushed: Tree)
      requires Planned(State(), plan, basis) && Reliable(deliver)
      requires IsPlan(planned, plan.decisions) && OncePerPath(planned) && deferred == plan.deferred
      modifies this`local, this`remote
      ensures done <==> Feasible(old(State()), plan, deliver)
      ensures done ==>
        && Installed(old(remote), pushed, old(local), plan.Doing(Push), deliver.remote)
        && Installed(old(local), pulled, old(remote), plan.Doing(Pull), deliver.local)
        && ClosedDownwards(pulled, plan.Doing(DeleteLocal)) && ClosedDownwards(pushed, plan.GoneRemote())
        && (forall p :: At(local, p) == DeletedAt(pulled, plan.Doing(DeleteLocal), {}, deliver.local.time, p))
        && (forall p :: At(remote, p) == DeletedAt(pushed, plan.Doing(DeleteRemote), plan.Undone(), deliver.remote.time, p))
        && undone == plan.Undone() && Closed(local) && Closed(remote)
    {
      hide DecidesFrom, Defers, Sound, Closed, Installed, Feasible, HeldAt, DeletedAt, Undeleted, ClosedDownwards, Transferable,
           IsPlan, Accessible, Faithful;
      ghost var w := State();
      undone, pulled, pushed := {}, local, remote;
      NeedsAccess(w, plan, deliver);
      ActionsAreDecisions(planned, plan, Push);
      ActionsAreDecisions(planned, plan, Pull);
      ActionsAreDecisions(planned, plan, DeleteLocal);
      ActionsAreDecisions(planned, plan, DeleteRemote);
      NothingInstalled(remote, local, deliver.remote);
      TransferablePushes(w, plan, basis);

      var after;
      var pushes := ActionPaths(planned.actions, Push, deferred);
      after, done := TransferBatch(remote, local, pushes, deliver.remote);
      remote := after;
      if !done { SameMembers(pushes, plan.Doing(Push)); return; }
      SameMembers(pushes, plan.Doing(Push));
      pushed := remote;
      InstalledKeepsClosed(w.remote, pushed, w.local, plan.Doing(Push), deliver.remote);
      PlanIsTransferable(w, plan, basis, pushed, deliver);

      var pulls := ActionPaths(planned.actions, Pull, deferred);
      after, done := TransferBatch(local, remote, pulls, deliver.local);
      local := after;
      SameMembers(pulls, plan.Doing(Pull));
      if !done { return; }
      pulled := local;
      InstalledKeepsClosed(w.local, pulled, pushed, plan.Doing(Pull), deliver.local);
      SameSourceAtItems(w.local, pulled, pushed, w.remote, plan.Doing(Pull), deliver.local);
      DeleteTargetsPresent(w, plan, basis, pulled, pushed, deliver);
      NeedsEmptied(w, plan, deliver, pulled, pushed);

      var localDeletes := ActionPaths(planned.actions, DeleteLocal, deferred);
      SameMembers(localDeletes, plan.Doing(DeleteLocal));
      var none;
      after, none, done := DeleteBatch(local, localDeletes, false, deliver.local.time);
      NothingUndone(pulled, plan);
      if !done { return; }
      local := after;
      var remoteDeletes := ActionPaths(planned.actions, DeleteRemote, deferred);
      SameMembers(remoteDeletes, plan.Doing(DeleteRemote));
      after, undone, done := DeleteBatch(remote, remoteDeletes, true, deliver.remote.time);
      UndoneArePlanned(w, plan, basis, pushed, deliver);
      if !done { return; }
      remote := after;
      DeletedKeepsClosed(pulled, local, plan.Doing(DeleteLocal), {}, deliver.local.time);
      DeletedKeepsClosed(pushed, remote, plan.Doing(DeleteRemote), plan.Undone(), deliver.remote.time);
    }

    // The base half of the final transaction.
    method CommitBase(planned: SyncPlan, ghost plan: Plan, skipped: set<Path>, ghost w: World)
      requires IsPlan(planned, plan.decisions) && skipped == plan.deferred + plan.Undone() && base == w.base
      modifies this`base
      ensures forall p :: At(base, p) == BaseAfter(plan, w, local, remote, p)
    {
      for i := 0 to |planned.actions|
        invariant forall p :: At(base, p) == if Acted(planned.actions[..i], skipped, p)
                                             then BaseAfter(plan, w, local, remote, p) else At(w.base, p)
      {
        var action := planned.actions[i];
        ActedStep(planned.actions, i, skipped);
        if action.path !in skipped {
          assert Decided(plan.decisions, action.path, Act(action.kind, action.local, action.remote, action.baseAfter));
          base := base[action.path := if action.kind.Push? then At(remote, action.path)
                                      else if action.kind.Pull? then At(local, action.path)
                                      else action.baseAfter];
        }
      }
      assert planned.actions[..|planned.actions|] == planned.actions;
      ActedIsCompleted(planned, plan);
    }

    // The conflict and requeue half of the final transaction.  The events are acknowledged in it exactly
    // when nothing was found changed.
    method CommitConflicts(planned: SyncPlan, ghost plan: Plan, deferred: set<Path>, undone: set<Path>, ghost w: World)
      returns (acknowledges: bool)
      requires IsPlan(planned, plan.decisions) && deferred == plan.deferred && undone == plan.Undone() && conflicts == w.conflicts
      requires forall c | c in planned.conflicts :: CaptureIsExact(c, w, local, remote)
      modifies this`conflicts, this`requeued
      ensures conflicts == ConflictsAfter(plan, w, local, remote)
      ensures requeued == RequeuedAfter(plan, w, local, remote)
      ensures acknowledges <==> Changed(plan, w, local, remote) == {} && plan.Undone() == {}
    {
      var completed := set a | a in planned.actions && a.path !in deferred + undone :: a.path;
      var open, changed := CaptureConflicts(planned.conflicts, conflicts - completed, local, remote);
      CompletedActions(planned, plan, completed);
      FiledIsDecided(planned, plan, w, local, remote);
      RecordsAreDecided(planned, plan, w, local, remote, open);
      conflicts, requeued := open, deferred + undone + changed;
      acknowledges := changed + undone == {};
    }

    // Changes the replicas and commits; without a commit the tables stay as they were.
    method ExecuteAndCommit(planned: SyncPlan, ghost decisions: map<Path, Decision>, ghost basis: Basis)
      returns (committed: bool, acknowledges: bool, completed: set<Path>, ghost plan: Plan)
      requires DecidesFrom(Plan(decisions, {}), State(), basis)
      requires Sound(State()) && Closed(local) && Closed(remote) && Reliable(deliver)
      requires IsPlan(planned, decisions) && OncePerPath(planned)
      modifies this
      ensures Planned(old(State()), plan, basis) && plan.decisions == decisions
      ensures committed <==> Feasible(old(State()), plan, deliver)
      ensures committed ==> Commits(old(State()), State(), plan, deliver) && Closed(local) && Closed(remote)
      ensures committed ==> completed == plan.Completed()
      ensures acknowledges <==> committed && Acknowledges(old(State()), State(), plan)
      ensures !committed ==> base == old(base) && conflicts == old(conflicts) && requeued == old(requeued)
    {
      hide Planned, Commits, CommitsFrom, IsPlan, OncePerPath, Feasible, Reliable, Closed, CaptureIsExact;
      ghost var w := State();
      var deferred := ConflictingDirectoryDeletes(planned, decisions);
      plan := Plan(decisions, deferred);
      MakesPlan(w, plan, basis);
      var undone;
      ghost var pulled: Tree;
      ghost var pushed: Tree;
      acknowledges, completed := false, {};
      committed, undone, pulled, pushed := ChangeReplicas(planned, plan, deferred, basis);
      if !committed { return; }
      completed := set a | a in planned.actions && a.path !in deferred + undone :: a.path;
      CompletedActions(planned, plan, completed);
      CapturesAreExact(planned, w, State(), plan, basis, deliver, pulled, pushed);
      CommitBase(planned, plan, deferred + undone, w);
      acknowledges := CommitConflicts(planned, plan, deferred, undone, w);
      MakesCommit(w, State(), plan, deliver, pulled, pushed);
    }

    // One cycle.  `echoes` is the table of expected echoes, `drift` what an audit would requeue, and
    // the stamps are the signatures found on each side after the commit.
    method RunOnce(localEvents: seq<Event>, remoteEvents: seq<Event>, echoes: Echoes, drift: set<Path>,
                   coordinator: Audit.AuditCoordinator, stampLocal: Stamps, stampRemote: Stamps)
      returns (observed: bool, committed: bool, acknowledges: bool, refreshed: bool,
               ghost w: World, ghost v: World, ghost plan: Plan, ghost basis: Basis)
      requires UniqueKeys(localEvents + remoteEvents)
      requires forall e | e in localEvents + remoteEvents :: ValidEvent(e)
      requires Sound(State()) && Closed(local) && Closed(remote) && Reliable(deliver)
      requires QuickMeansEqual(State(), ignored,
                               requeued + if CallsForAudit(State(), localEvents + remoteEvents) then drift else {})
      modifies this, coordinator
      ensures w == old(State()).(requeued := old(requeued)
                                             + if CallsForAudit(old(State()), localEvents + remoteEvents) then drift else {})
      ensures observed <==> Observable(w, localEvents + remoteEvents)
      ensures observed ==> forall p :: p in basis.dirty <==>
                p in w.requeued || p in w.conflicts
                || exists side :: NamedIn(localEvents + remoteEvents, side, p)
                                  && !Swallowed(w, echoes, localEvents + remoteEvents, side, p)
      ensures observed ==> forall e, side, p | e in localEvents + remoteEvents && PlainReport(e, side, p)
                && !((side, p) in echoes && OnSide(w, side, p) == echoes[(side, p)]) :: p in basis.dirty
      ensures observed ==> Planned(w, plan, basis) && basis.ignored == ignored
      ensures committed <==> observed && Feasible(w, plan, deliver)
      ensures committed ==> Commits(w, v, plan, deliver) && Closed(v.local) && Closed(v.remote)
      ensures acknowledges <==> committed && Acknowledges(w, v, plan)
      ensures !committed ==> base == old(base) && conflicts == old(conflicts) && requeued == w.requeued
      ensures refreshed <==> committed && forall p | p in plan.Completed() :: Accessible(v.local, p)
      ensures committed ==> State() == v.(requeued := v.requeued + if refreshed then Mismatched(v, plan.Completed()) else {})
      ensures forall p :: Audit.Stored(coordinator.localSignatures, p)
                == StoredAfter(Local, refreshed, plan.Completed(), v.base, v.local, stampLocal, old(coordinator.localSignatures), p)
      ensures forall p :: Audit.Stored(coordinator.remoteSignatures, p)
                == StoredAfter(Remote, refreshed, plan.Completed(), v.base, v.remote, stampRemote, old(coordinator.remoteSignatures), p)
    {
      hide Planned, Commits, Feasible, Observable, Closed, Reliable, DecidesFrom, IsPlan, OncePerPath,
           Swallowed, NamedIn, CallsForAudit, UniqueKeys, Mismatched, ValidEvent, Acknowledges;
      var dirty, hashed;
      committed, acknowledges, refreshed := false, false, false;
      w, observed, dirty, hashed := CollectDirty(localEvents, remoteEvents, echoes, drift);
      v, plan, basis := w, Plan(map[], {}), Basis({}, ignored, map[], map[]);
      if !observed { return; }
      var planned, completed;
      ghost var decisions;
      planned, decisions, basis := PlanDirty(dirty, hashed);
      committed, acknowledges, completed, plan := ExecuteAndCommit(planned, decisions, basis);
      if !committed { return; }
      v := State();
      refreshed := RefreshCompleted(completed, coordinator, stampLocal, stampRemote);
    }

    // The first look at the dirty paths, with hashes for what is requeued and what may be the echo of a
    // regular file, and the planning.
    method PlanDirty(dirty: set<Path>, hashed: set<(Side, Path)>)
      returns (planned: SyncPlan, ghost decisions: map<Path, Decision>, ghost basis: Basis)
      requires Sound(State()) && QuickMeansEqual(State(), ignored, requeued)
      ensures IsPlan(planned, decisions) && OncePerPath(planned)
      ensures DecidesFrom(Plan(decisions, {}), State(), basis)
      ensures forall p | p in dirty ::
                && At(basis.seenLocal, p)
                   == (if p in requeued || (Local, p) in hashed then At(local, p) else Metadata(At(local, p)))
                && At(basis.seenRemote, p)
                   == (if p in requeued || (Remote, p) in hashed then At(remote, p) else Metadata(At(remote, p)))
      ensures basis.dirty == dirty && basis.ignored == ignored
    {
      var list := Listing(dirty);
      SameMembers(list, dirty);
      var firstLocal := Seen(local, dirty, requeued + set e | e in hashed && e.0.Local? :: e.1);
      var firstRemote := Seen(remote, dirty, requeued + set e | e in hashed && e.0.Remote? :: e.1);
      basis := Basis(dirty, ignored, firstLocal, firstRemote);
      SeenIsSound(State(), ignored, dirty, requeued + set e | e in hashed && e.0.Local? :: e.1,
                  requeued + set e | e in hashed && e.0.Remote? :: e.1, firstLocal, firstRemote);
      planned, decisions := PlanCycle(list, firstLocal, firstRemote);
    }

    // The refresh after the commit: takes over the signatures of the completed paths and requeues
    // those that do not match the new base.  It fails where a path cannot be looked at.
    method RefreshCompleted(completed: set<Path>, coordinator: Audit.AuditCoordinator, stampLocal: Stamps, stampRemote: Stamps)
      returns (refreshed: bool)
      modifies this`requeued, coordinator
      ensures refreshed <==> forall p | p in completed :: Accessible(local, p)
      ensures requeued == old(requeued) + if refreshed then Mismatched(old(State()), completed) else {}
      ensures forall p :: Audit.Stored(coordinator.localSignatures, p)
                == StoredAfter(Local, refreshed, completed, base, local, stampLocal, old(coordinator.localSignatures), p)
      ensures forall p :: Audit.Stored(coordinator.remoteSignatures, p)
                == StoredAfter(Remote, refreshed, completed, base, remote, stampRemote, old(coordinator.remoteSignatures), p)
    {
      refreshed := forall p | p in completed :: Accessible(local, p);
      if !refreshed { return; }
      var list := Listing(completed);
      SameMembers(list, completed);
      var l, r := local, remote;
      var drifted := coordinator.Refresh(base, list, p => LookedAt(l, stampLocal, p), p => LookedAt(r, stampRemote, p));
      assert drifted == Mismatched(State(), completed);
      requeued := requeued + drifted;
    }

    // Runs the audit when the events call for it, and works out which paths are dirty.
    method CollectDirty(localEvents: seq<Event>, remoteEvents: seq<Event>, echoes: Echoes, drift: set<Path>)
      returns (ghost w: World, observed: bool, dirty: set<Path>, hashed: set<(Side, Path)>)
      requires UniqueKeys(localEvents + remoteEvents)
      requires forall e | e in localEvents + remoteEvents :: ValidEvent(e)
      modifies this`requeued
      ensures w == State()
      ensures w == old(State()).(requeued := old(requeued)
                                             + if CallsForAudit(old(State()), localEvents + remoteEvents) then drift else {})
      ensures observed <==> Observable(w, localEvents + remoteEvents)
      ensures observed ==> forall p :: p in dirty <==>
                p in w.requeued || p in w.conflicts
                || exists side :: NamedIn(localEvents + remoteEvents, side, p)
                                  && !Swallowed(w, echoes, localEvents + remoteEvents, side, p)
      ensures observed ==> forall e, side, p | e in localEvents + remoteEvents && PlainReport(e, side, p)
                && !((side, p) in echoes && OnSide(w, side, p) == echoes[(side, p)]) :: p in dirty
      ensures observed ==> forall side, p :: (side, p) in hashed <==> MayEcho(w, echoes, localEvents + remoteEvents, side, p)
    {
      var raw := localEvents + remoteEvents;
      var coalesced := CoalesceEvents(raw);
      AuditIsCalled(State(), raw, coalesced);
      dirty, hashed := {}, {};
      if ContainsRescan(raw) || BaseDirectoryMoved(State(), coalesced) {
        requeued := requeued + drift;
      } else if MovedOutOfSight(State(), coalesced) {
        observed, w := false, State();
        OutOfSightIsMentioned(w, raw, coalesced);
        return;
      } else if MovedToDirectory(State(), coalesced) {
        requeued := requeued + drift;
      }
      w := State();
      var sources := DirtySources(localEvents, remoteEvents, requeued);
      observed := forall p | p in sources.Keys + conflicts.Keys :: Accessible(local, p);
      SourcesAreMentioned(w, raw, sources);
      if !observed { return; }
      var echoed := EchoedPaths(State(), echoes, coalesced);
      hashed := CandidatePaths(State(), echoes, coalesced);
      forall side, p { CandidatesMayEcho(w, raw, coalesced, echoes, side, p); }
      dirty := (set p | p in sources && Unechoed(sources[p], p, echoed) != {}) + conflicts.Keys;
      DirtyPathsAre(w, raw, coalesced, echoes, sources, echoed, dirty);
      UnexpectedIsDirty(w, raw, echoes, dirty);
    }

    // Planning with both hash rounds.
    method PlanCycle(list: seq<Path>, firstLocal: Tree, firstRemote: Tree)
      returns (planned: SyncPlan, ghost decisions: map<Path, Decision>)
      requires Distinct(list) && Sound(State())
      requires forall p | p in list :: SeenAs(At(firstLocal, p), At(local, p)) && SeenAs(At(firstRemote, p), At(remote, p))
      requires forall p | p in list && !ignored(p) :: TrustIsSound(At(firstLocal, p), At(local, p), At(base, p))
                                       && TrustIsSound(At(firstRemote, p), At(remote, p), At(base, p))
      ensures IsPlan(planned, decisions) && OncePerPath(planned)
      ensures DecidesFrom(Plan(decisions, {}), State(), Basis(ToSet(list), ignored, firstLocal, firstRemote))
    {
      var hashLocal := HashingOf(local);
      var hashRemote := HashingOf(remote);
      var first := BuildIncrementalPlan(base, firstLocal, firstRemote, list, ignored);
      var second, l, r := SatisfyHashRequests(first, base, firstLocal, firstRemote, list, ignored, hashLocal, hashRemote);
      var third, l2, r2 := StrengthenDeletionTargets(second, base, l, r, list, ignored, hashLocal, hashRemote);
      planned := third;
      decisions := Decisions(base, l2, r2, ToSet(list), ignored);
      forall p | p in decisions
        ensures decisions[p] == LazyDecision(At(base, p), At(firstLocal, p), At(firstRemote, p), At(local, p), At(remote, p))
      {
        RoundsAreLazy(first, second, base, firstLocal, firstRemote, local, remote, ToSet(list), ignored, p);
      }
    }
  }

  // Putting deletions off does not touch the decisions.
  lemma MakesPlan(w: World, plan: Plan, basis: Basis)
    requires DecidesFrom(Plan(plan.decisions, {}), w, basis) && Defers(plan, w)
    requires Sound(w) && Closed(w.local) && Closed(w.remote)
    ensures Planned(w, plan, basis)
  {
  }

  lemma MakesCommit(w: World, v: World, plan: Plan, deliver: Transport, pulled: Tree, pushed: Tree)
    requires Installed(w.remote, pushed, w.local, plan.Doing(Push), deliver.remote)
    requires Installed(w.local, pulled, w.remote, plan.Doing(Pull), deliver.local)
    requires ClosedDownwards(pulled, plan.Doing(DeleteLocal)) && ClosedDownwards(pushed, plan.GoneRemote())
    requires forall p :: At(v.local, p) == DeletedAt(pulled, plan.Doing(DeleteLocal), {}, deliver.local.time, p)
    requires forall p :: At(v.remote, p) == DeletedAt(pushed, plan.Doing(DeleteRemote), plan.Undone(), deliver.remote.time, p)
    requires forall p :: At(v.base, p) == BaseAfter(plan, w, v.local, v.remote, p)
    requires v.conflicts == ConflictsAfter(plan, w, v.local, v.remote)
    requires v.requeued == RequeuedAfter(plan, w, v.local, v.remote)
    ensures Commits(w, v, plan, deliver)
  {
    assert CommitsFrom(w, v, plan, deliver, pulled, pushed);
  }

  // Hashing in an undisturbed cycle reports what is there.
  function HashingOf(tree: Tree): Observer {
    p => At(tree, p)
  }

  function FirstSeen(s: State, withHash: bool): State {
    if withHash then s else Metadata(s)
  }

  // The first look at a replica: metadata, with hashes where they are wanted from the start.
  function Seen(tree: Tree, dirty: set<Path>, hashed: set<Path>): Tree {
    map p | p in dirty :: FirstSeen(At(tree, p), p in hashed)
  }

  // Whatever is not hashed from the start is trusted rightly.
  lemma SeenIsSound(w: World, ignored: Path -> bool, dirty: set<Path>, hashedLocal: set<Path>, hashedRemote: set<Path>,
                    seenLocal: Tree, seenRemote: Tree)
    requires QuickMeansEqual(w, ignored, hashedLocal * hashedRemote) && Sound(w)
    requires seenLocal == Seen(w.local, dirty, hashedLocal) && seenRemote == Seen(w.remote, dirty, hashedRemote)
    ensures forall p | p in dirty :: SeenAs(At(seenLocal, p), At(w.local, p)) && SeenAs(At(seenRemote, p), At(w.remote, p))
    ensures forall p | p in dirty && !ignored(p) ::
              && TrustIsSound(At(seenLocal, p), At(w.local, p), At(w.base, p))
              && TrustIsSound(At(seenRemote, p), At(w.remote, p), At(w.base, p))
  {
    forall p | p in dirty && !ignored(p)
      ensures TrustIsSound(At(seenLocal, p), At(w.local, p), At(w.base, p))
      ensures TrustIsSound(At(seenRemote, p), At(w.remote, p), At(w.base, p))
    {
      assert Hashed(At(w.local, p)) && Hashed(At(w.remote, p));
    }
  }

  // Events of one side on one path that only report the engine's own change.
  ghost predicate Swallowed(w: World, echoes: Echoes, events: seq<Event>, side: Side, p: Path) {
    && p !in w.requeued && (side, p) in echoes && OnSide(w, side, p) == echoes[(side, p)]
    && exists e :: e in events && PlainReport(e, side, p)
  }

  // A creation, modification or deletion of the path on that side.
  predicate PlainReport(e: Event, side: Side, p: Path) {
    (e.kind.Create? || e.kind.Modify? || e.kind.Delete?) && e.side == side && e.path == p
  }

  ghost predicate MayEcho(w: World, echoes: Echoes, events: seq<Event>, side: Side, p: Path) {
    && p !in w.requeued && (side, p) in echoes && echoes[(side, p)].Present? && echoes[(side, p)].entry.kind.File?
    && exists e :: e in events && PlainReport(e, side, p)
  }

  // A plain event of a key has a stand-in of that key, and the other way round.
  lemma PlainReports(raw: seq<Event>, coalesced: seq<Event>, side: Side, p: Path)
    requires IsCoalesced(raw, coalesced)
    ensures (exists e :: e in coalesced && !Structural(e.kind) && e.side == side && e.path == p)
            <==> exists e :: e in raw && PlainReport(e, side, p)
  {
    if exists e :: e in coalesced && !Structural(e.kind) && e.side == side && e.path == p {
      var c :| c in coalesced && !Structural(c.kind) && c.side == side && c.path == p;
      assert HasOriginal(raw, c);
      var e :| e in raw && StandsFor(c, e);
      assert PlainReport(e, side, p);
    }
    if exists e :: e in raw && PlainReport(e, side, p) {
      var e :| e in raw && PlainReport(e, side, p);
      var last := LastOfKey(raw, e);
      SupersededUnlessLast(raw, (side, p), last);
      assert HasStandIn(coalesced, last);
      var c :| c in coalesced && StandsFor(c, last);
    }
  }

  lemma CandidatesMayEcho(w: World, raw: seq<Event>, coalesced: seq<Event>, echoes: Echoes, side: Side, p: Path)
    requires IsCoalesced(raw, coalesced)
    ensures (side, p) in CandidatePaths(w, echoes, coalesced) <==> MayEcho(w, echoes, raw, side, p)
  {
    PlainReports(raw, coalesced, side, p);
  }

  lemma {:induction false} LastOfKey(events: seq<Event>, e: Event) returns (last: Event)
    requires e in events && !Structural(e.kind)
    ensures LastPathEvent(events, (e.side, e.path), last)
    decreases |events|
  {
    var n := |events| - 1;
    var init, tail := events[..n], events[n];
    assert forall x :: x in events <==> x in init || x == tail;
    if !Structural(tail.kind) && (tail.side, tail.path) == (e.side, e.path) {
      if exists f :: f in init && !Structural(f.kind) && (f.side, f.path) == (e.side, e.path) {
        var f :| f in init && !Structural(f.kind) && (f.side, f.path) == (e.side, e.path);
        last := LastOfKey(init, f);
        if tail.sequence > last.sequence { last := tail; }
      } else {
        last := tail;
      }
    } else {
      last := LastOfKey(init, e);
    }
  }

  lemma EchoedIsSwallowed(w: World, raw: seq<Event>, coalesced: seq<Event>, echoes: Echoes, side: Side, p: Path)
    requires IsCoalesced(raw, coalesced)
    ensures (side, p) in EchoedPaths(w, echoes, coalesced) <==> Swallowed(w, echoes, raw, side, p)
  {
    PlainReports(raw, coalesced, side, p);
  }

  // The keys the cycle looks at are the paths mentioned.
  lemma SourcesAreMentioned(w: World, raw: seq<Event>, sources: map<Path, set<Source>>)
    requires IsDirtySources(raw, w.requeued, sources)
    ensures forall p :: p in sources.Keys + w.conflicts.Keys <==> Mentioned(w, raw, p)
  {
    forall p
      ensures p in sources <==> p in w.requeued || exists side :: NamedIn(raw, side, p)
    {
      if p in sources {
        var s :| s in sources[p];
        assert s in SourcesAt(sources, p);
        if s.Reported? { assert NamedIn(raw, s.side, p); }
      }
      if p in w.requeued { assert Requeued in SourcesAt(sources, p); }
      if exists side :: NamedIn(raw, side, p) {
        var side :| NamedIn(raw, side, p);
        assert Reported(side) in SourcesAt(sources, p);
      }
    }
  }

  lemma OutOfSightIsMentioned(w: World, raw: seq<Event>, coalesced: seq<Event>)
    requires UniqueKeys(raw) && IsCoalesced(raw, coalesced) && MovedOutOfSight(w, coalesced)
    ensures !Observable(w, raw)
  {
    var e :| e in coalesced && e.kind.Move? && e.side.Local? && e.destination.Some? && !Accessible(w.local, e.destination.value);
    assert Names(e, Local, e.destination.value);
    CoalescingKeepsNames(raw, coalesced, Local, e.destination.value);
    assert Mentioned(w, raw, e.destination.value);
  }

  lemma DirtyPathsAre(w: World, raw: seq<Event>, coalesced: seq<Event>, echoes: Echoes, sources: map<Path, set<Source>>,
                      echoed: set<(Side, Path)>, dirty: set<Path>)
    requires IsCoalesced(raw, coalesced) && IsDirtySources(raw, w.requeued, sources)
    requires echoed == EchoedPaths(w, echoes, coalesced)
    requires dirty == (set p | p in sources && Unechoed(sources[p], p, echoed) != {}) + w.conflicts.Keys
    ensures forall p :: p in dirty <==>
              p in w.requeued || p in w.conflicts
              || exists side :: NamedIn(raw, side, p) && !Swallowed(w, echoes, raw, side, p)
  {
    forall p
      ensures p in sources && Unechoed(sources[p], p, echoed) != {}
              <==> p in w.requeued || exists side :: NamedIn(raw, side, p) && !Swallowed(w, echoes, raw, side, p)
    {
      forall side { EchoedIsSwallowed(w, raw, coalesced, echoes, side, p); }
      if p in sources && Unechoed(sources[p], p, echoed) != {} {
        var s :| s in Unechoed(sources[p], p, echoed);
        assert s in SourcesAt(sources, p) && s != OpenConflict;
        if s.Reported? { assert NamedIn(raw, s.side, p) && !Swallowed(w, echoes, raw, s.side, p); }
      }
      if p in w.requeued { assert Requeued in Unechoed(SourcesAt(sources, p), p, echoed); }
      if exists side :: NamedIn(raw, side, p) && !Swallowed(w, echoes, raw, side, p) {
        var side :| NamedIn(raw, side, p) && !Swallowed(w, echoes, raw, side, p);
        assert Reported(side) in Unechoed(SourcesAt(sources, p), p, echoed);
      }
    }
  }

  // A report of a path that is not in the state expected of it makes the path dirty.
  lemma UnexpectedIsDirty(w: World, events: seq<Event>, echoes: Echoes, dirty: set<Path>)
    requires forall side, p | NamedIn(events, side, p) && !Swallowed(w, echoes, events, side, p) :: p in dirty
    ensures forall e, side, p | e in events && PlainReport(e, side, p)
              && !((side, p) in echoes && OnSide(w, side, p) == echoes[(side, p)]) :: p in dirty
  {
    forall e, side, p | e in events && PlainReport(e, side, p)
        && !((side, p) in echoes && OnSide(w, side, p) == echoes[(side, p)])
      ensures p in dirty
    {
      assert Names(e, side, p);
      assert NamedIn(events, side, p) && !Swallowed(w, echoes, events, side, p);
    }
  }

  // Captures the planned conflicts one after another; what no longer matches its plan is changed.
  method CaptureConflicts(planned: seq<ConflictDecision>, start: map<Path, Record>, local: Tree, remote: Tree)
    returns (open: map<Path, Record>, changed: set<Path>)
    ensures forall p :: p in changed <==> Filed(planned, local, remote, p, false)
    ensures forall p :: p in open <==> p in start || Filed(planned, local, remote, p, true)
    ensures forall p | p in open ::
              if Filed(planned, local, remote, p, true) then RecordedFor(planned, p, open[p], local, remote)
              else p in start && open[p] == start[p]
  {
    open, changed := start, {};
    for i := 0 to |planned|
      invariant forall p :: p in changed <==> Filed(planned[..i], local, remote, p, false)
      invariant forall p :: p in open <==> p in start || Filed(planned[..i], local, remote, p, true)
      invariant forall p | p in open ::
                  if Filed(planned[..i], local, remote, p, true) then RecordedFor(planned, p, open[p], local, remote)
                  else p in start && open[p] == start[p]
    {
      var conflict := planned[i];
      FiledStep(planned, i, local, remote);
      if Captures(conflict, local, remote) {
        open := open[conflict.path := Record(conflict.reason, At(local, conflict.path), At(remote, conflict.path))];
      } else {
        changed := changed + {conflict.path};
      }
    }
    assert planned[..|planned|] == planned;
  }

  ghost predicate RecordedFor(planned: seq<ConflictDecision>, p: Path, record: Record, local: Tree, remote: Tree) {
    exists c :: c in planned && c.path == p && Captures(c, local, remote)
                && record == Record(c.reason, At(local, p), At(remote, p))
  }

  lemma RecordsAreDecided(planned: SyncPlan, plan: Plan, w: World, local: Tree, remote: Tree, open: map<Path, Record>)
    requires IsPlan(planned, plan.decisions)
    requires forall c | c in planned.conflicts :: CaptureIsExact(c, w, local, remote)
    requires forall p :: p in open <==>
               (p in w.conflicts && p !in plan.Completed()) || Filed(planned.conflicts, local, remote, p, true)
    requires forall p | p in open ::
               if Filed(planned.conflicts, local, remote, p, true)
               then RecordedFor(planned.conflicts, p, open[p], local, remote)
               else p in w.conflicts && open[p] == w.conflicts[p]
    ensures open == ConflictsAfter(plan, w, local, remote)
  {
    FiledIsDecided(planned, plan, w, local, remote);
    var after := ConflictsAfter(plan, w, local, remote);
    assert forall p | p in plan.InConflict() :: p !in plan.Completed();
    forall p | p in open
      ensures p in after && open[p] == after[p]
    {
      if Filed(planned.conflicts, local, remote, p, true) {
        var c :| c in planned.conflicts && c.path == p && Captures(c, local, remote)
                 && open[p] == Record(c.reason, At(local, p), At(remote, p));
        assert Decided(plan.decisions, p, Conflict(c.reason, c.local, c.remote));
      }
    }
  }

  predicate Captures(c: ConflictDecision, local: Tree, remote: Tree) {
    AsPlanned(c.local, At(local, c.path)) && AsPlanned(c.remote, At(remote, c.path))
  }

  // Within one cycle, matching the plan means not having changed at all.
  ghost predicate CaptureIsExact(c: ConflictDecision, w: World, local: Tree, remote: Tree) {
    Captures(c, local, remote)
    <==> At(local, c.path) == At(w.local, c.path) && At(remote, c.path) == At(w.remote, c.path)
  }

  ghost predicate Filed(conflicts: seq<ConflictDecision>, local: Tree, remote: Tree, p: Path, captured: bool) {
    exists c :: c in conflicts && c.path == p && Captures(c, local, remote) == captured
  }

  // Where the capture of a planned conflict fails, the cycle has changed one of its sides.
  lemma CapturesAreExact(planned: SyncPlan, w: World, v: World, plan: Plan, basis: Basis, deliver: Transport,
                         pulled: Tree, pushed: Tree)
    requires Planned(w, plan, basis) && IsPlan(planned, plan.decisions)
    requires Installed(w.remote, pushed, w.local, plan.Doing(Push), deliver.remote)
    requires Installed(w.local, pulled, w.remote, plan.Doing(Pull), deliver.local)
    requires forall p :: At(v.local, p) == DeletedAt(pulled, plan.Doing(DeleteLocal), {}, deliver.local.time, p)
    requires forall p :: At(v.remote, p) == DeletedAt(pushed, plan.Doing(DeleteRemote), plan.Undone(), deliver.remote.time, p)
    ensures forall c | c in planned.conflicts :: CaptureIsExact(c, w, v.local, v.remote)
  {
    forall c | c in planned.conflicts
      ensures CaptureIsExact(c, w, v.local, v.remote)
    {
      hide Planned, Closed, Installed, DeletedAt, HeldAt;
      var p := c.path;
      assert Decided(plan.decisions, p, Conflict(c.reason, c.local, c.remote));
      ConflictOfPlan(w, plan, basis, p);
      assert At(v.local, p) == DeletedAt(pulled, plan.Doing(DeleteLocal), {}, deliver.local.time, p);
      assert At(v.remote, p) == DeletedAt(pushed, plan.Doing(DeleteRemote), plan.Undone(), deliver.remote.time, p);
      HeldByBatches(w.local, pulled, v.local, w.remote, plan.Doing(Pull), plan.Doing(DeleteLocal), {}, deliver.local, p);
      HeldByBatches(w.remote, pushed, v.remote, w.local, plan.Doing(Push), plan.Doing(DeleteRemote), plan.Undone(),
                    deliver.remote, p);
      HeldMatchesIfSame(w.local, plan.Doing(Pull), plan.Doing(DeleteLocal), deliver.local.time, p, c.local);
      HeldMatchesIfSame(w.remote, plan.Doing(Push), plan.Doing(DeleteRemote), deliver.remote.time, p, c.remote);
    }
  }

  // What the cycle leaves alone matches what was planned only if it has not changed at all.
  lemma HeldMatchesIfSame(tree: Tree, installed: set<Path>, deleted: set<Path>, time: Path -> int, p: Path, planned: State)
    requires SeenAs(planned, At(tree, p)) && AsPlanned(planned, At(tree, p))
    ensures AsPlanned(planned, HeldAt(tree, installed, deleted, time, p)) <==> HeldAt(tree, installed, deleted, time, p) == At(tree, p)
  {
    HeldIsAlike(tree, installed, deleted, time, p);
  }

  // A conflict was decided on what is there, apart from hashes that were not fetched.
  lemma ConflictOfPlan(w: World, plan: Plan, basis: Basis, p: Path)
    requires Planned(w, plan, basis) && p in plan.InConflict()
    ensures var d := plan.decisions[p];
            && SeenAs(d.local, At(w.local, p)) && SeenAs(d.remote, At(w.remote, p))
            && AsPlanned(d.local, At(w.local, p)) && AsPlanned(d.remote, At(w.remote, p))
  {
    ConflictShowsWhatWasSeen(At(w.base, p), At(w.local, p), At(w.remote, p), At(basis.seenLocal, p), At(basis.seenRemote, p));
  }

  lemma ConflictShowsWhatWasSeen(base: State, local: State, remote: State, seenLocal: State, seenRemote: State)
    requires SeenAs(seenLocal, local) && SeenAs(seenRemote, remote) && Plain(local) && Plain(remote)
    ensures var d := LazyDecision(base, seenLocal, seenRemote, local, remote);
            d.Conflict? ==> SeenAs(d.local, local) && SeenAs(d.remote, remote)
                            && AsPlanned(d.local, local) && AsPlanned(d.remote, remote)
  {
  }

  lemma FiledStep(conflicts: seq<ConflictDecision>, i: nat, local: Tree, remote: Tree)
    requires i < |conflicts|
    ensures forall p, captured :: Filed(conflicts[..i + 1], local, remote, p, captured) <==>
              Filed(conflicts[..i], local, remote, p, captured)
              || (p == conflicts[i].path && Captures(conflicts[i], local, remote) == captured)
  {
    assert conflicts[..i + 1] == conflicts[..i] + [conflicts[i]];
    forall p, captured
      ensures Filed(conflicts[..i + 1], local, remote, p, captured) <==>
              Filed(conflicts[..i], local, remote, p, captured)
              || (p == conflicts[i].path && Captures(conflicts[i], local, remote) == captured)
    {
      assert conflicts[i] in conflicts[..i + 1];
      if Filed(conflicts[..i], local, remote, p, captured) {
        var c :| c in conflicts[..i] && c.path == p && Captures(c, local, remote) == captured;
        assert c in conflicts[..i + 1];
      }
    }
  }

  lemma FiledIsDecided(planned: SyncPlan, plan: Plan, w: World, local: Tree, remote: Tree)
    requires IsPlan(planned, plan.decisions)
    requires forall c | c in planned.conflicts :: CaptureIsExact(c, w, local, remote)
    ensures forall p :: Filed(planned.conflicts, local, remote, p, true) <==> Captured(plan, w, local, remote, p)
    ensures forall p :: Filed(planned.conflicts, local, remote, p, false) <==> p in Changed(plan, w, local, remote)
  {
    forall p
      ensures Filed(planned.conflicts, local, remote, p, true) <==> Captured(plan, w, local, remote, p)
      ensures Filed(planned.conflicts, local, remote, p, false) <==> p in Changed(plan, w, local, remote)
    {
      if p in plan.InConflict() {
        var d := plan.decisions[p];
        assert Decided(plan.decisions, p, d);
        var c := ConflictDecision(p, d.reason, d.local, d.remote);
        assert c in planned.conflicts && CaptureIsExact(c, w, local, remote);
      }
      forall c | c in planned.conflicts && c.path == p
        ensures p in plan.InConflict() && CaptureIsExact(c, w, local, remote)
      {
        assert Decided(plan.decisions, p, Conflict(c.reason, c.local, c.remote));
      }
    }
  }

  ghost predicate Acted(actions: seq<SyncAction>, deferred: set<Path>, p: Path) {
    p !in deferred && exists a :: a in actions && a.path == p
  }

  lemma ActedStep(actions: seq<SyncAction>, i: nat, deferred: set<Path>)
    requires i < |actions|
    ensures forall p :: Acted(actions[..i + 1], deferred, p) <==>
              Acted(actions[..i], deferred, p) || (p == actions[i].path && p !in deferred)
  {
    assert actions[..i + 1] == actions[..i] + [actions[i]];
    forall p
      ensures Acted(actions[..i + 1], deferred, p) <==>
              Acted(actions[..i], deferred, p) || (p == actions[i].path && p !in deferred)
    {
      if p == actions[i].path { assert actions[i] in actions[..i + 1]; }
      if Acted(actions[..i], deferred, p) {
        var a :| a in actions[..i] && a.path == p;
        assert a in actions[..i + 1];
      }
    }
  }

  lemma ActedIsCompleted(planned: SyncPlan, plan: Plan)
    requires IsPlan(planned, plan.decisions)
    ensures forall p :: Acted(planned.actions, plan.deferred + plan.Undone(), p) <==> p in plan.Completed()
  {
    forall p
      ensures Acted(planned.actions, plan.deferred + plan.Undone(), p) <==> p in plan.Completed()
    {
      if p in plan.Completed() {
        var d := plan.decisions[p];
        assert Decided(plan.decisions, p, d);
        assert SyncAction(d.action, p, d.local, d.remote, d.baseAfter) in planned.actions;
      }
      if Acted(planned.actions, plan.deferred + plan.Undone(), p) {
        var a :| a in planned.actions && a.path == p;
        assert Decided(plan.decisions, p, Act(a.kind, a.local, a.remote, a.baseAfter));
      }
    }
  }

  lemma CompletedActions(planned: SyncPlan, plan: Plan, completed: set<Path>)
    requires IsPlan(planned, plan.decisions)
    requires completed == set a | a in planned.actions && a.path !in plan.deferred + plan.Undone() :: a.path
    ensures completed == plan.Completed()
  {
    var skipped := plan.deferred + plan.Undone();
    ActedIsCompleted(planned, plan);
    forall p
      ensures p in completed <==> p in plan.Completed()
    {
      if p in completed {
        var a :| a in planned.actions && a.path !in skipped && a.path == p;
        assert Acted(planned.actions, skipped, p);
      }
      if p in plan.Completed() {
        assert Acted(planned.actions, skipped, p);
      }
    }
  }

  lemma SameMembers(paths: seq<Path>, items: set<Path>)
    requires ToSet(paths) == items
    ensures forall p :: p in paths <==> p in items
  {
    forall p
      ensures p in paths <==> p in items
    {
      assert p in ToSet(paths) <==> p in paths;
    }
  }

  lemma NothingInstalled(before: Tree, source: Tree, deliver: Delivery)
    ensures Installed(before, before, source, {}, deliver)
  {
  }

  lemma TransferablePushes(w: World, plan: Plan, basis: Basis)
    requires Planned(w, plan, basis)
    ensures Transferable(w.local, w.remote, plan.Doing(Push))
  {
    ActionsAreSafe(w, plan, basis);
    SafeIsTransferable(w, plan);
  }

  lemma SameSourceAtItems(before: Tree, after: Tree, source: Tree, other: Tree, items: set<Path>, deliver: Delivery)
    requires Installed(before, after, source, items, deliver)
    requires forall p | p in items :: At(source, p) == At(other, p)
    ensures Installed(before, after, other, items, deliver)
  {
    forall p
      ensures At(after, p) == InstalledAt(before, other, items, deliver, p)
    {
      assert At(after, p) == InstalledAt(before, source, items, deliver, p);
    }
  }

  lemma DeletionShowsWhatIsThere(base: State, local: State, remote: State, seenLocal: State, seenRemote: State)
    requires SeenAs(seenLocal, local) && SeenAs(seenRemote, remote) && Plain(local) && Plain(remote)
    ensures var d := LazyDecision(base, seenLocal, seenRemote, local, remote);
            && (d.Act? && d.action.DeleteLocal? ==> d.local == local)
            && (d.Act? && d.action.DeleteRemote? ==> d.remote == remote)
  {
  }

  // When the turn of a planned deletion comes, what it finds is what it expects, whatever was installed
  // before and whichever other deletions of the batch came first; a directory in which something was
  // deleted has a new time only.
  lemma DeletionsFindWhatWasPlanned(w: World, plan: Plan, basis: Basis, pulled: Tree, pushed: Tree, deliver: Transport,
                                    done: set<Path>, p: Path)
    requires Planned(w, plan, basis) && p !in done
    requires Installed(w.remote, pushed, w.local, plan.Doing(Push), deliver.remote)
    requires Installed(w.local, pulled, w.remote, plan.Doing(Pull), deliver.local)
    ensures p in plan.Doing(DeleteLocal) ==>
              DeleteMatches(plan.decisions[p].local, DeletedAt(pulled, done, {}, deliver.local.time, p))
    ensures p in plan.Doing(DeleteRemote) ==>
              DeleteMatches(plan.decisions[p].remote, DeletedAt(pushed, done, {}, deliver.remote.time, p))
  {
    hide Planned, Installed, HeldAt, DeletedAt;
    if p in plan.Doing(DeleteLocal) + plan.Doing(DeleteRemote) {
      DeletionOfPlan(w, plan, basis, p);
      HeldByBatches(w.local, pulled, map[p := DeletedAt(pulled, done, {}, deliver.local.time, p)], w.remote,
                    plan.Doing(Pull), done, {}, deliver.local, p);
      HeldByBatches(w.remote, pushed, map[p := DeletedAt(pushed, done, {}, deliver.remote.time, p)], w.local,
                    plan.Doing(Push), done, {}, deliver.remote, p);
      HeldIsAlike(w.local, plan.Doing(Pull), done, deliver.local.time, p);
      HeldIsAlike(w.remote, plan.Doing(Push), done, deliver.remote.time, p);
    }
  }

  lemma DeletionOfPlan(w: World, plan: Plan, basis: Basis, p: Path)
    requires Planned(w, plan, basis)
    ensures p in plan.Doing(DeleteLocal) ==> plan.decisions[p].local == At(w.local, p) && At(w.local, p).Present?
    ensures p in plan.Doing(DeleteRemote) ==> plan.decisions[p].remote == At(w.remote, p) && At(w.remote, p).Present?
  {
    if p in plan.decisions {
      Meaning(w, plan, basis, p);
      DeletionShowsWhatIsThere(At(w.base, p), At(w.local, p), At(w.remote, p), At(basis.seenLocal, p), At(basis.seenRemote, p));
    }
  }

  lemma DeleteTargetsPresent(w: World, plan: Plan, basis: Basis, pulled: Tree, pushed: Tree, deliver: Transport)
    requires Planned(w, plan, basis)
    requires Installed(w.remote, pushed, w.local, plan.Doing(Push), deliver.remote)
    requires Installed(w.local, pulled, w.remote, plan.Doing(Pull), deliver.local)
    ensures forall p | p in plan.Doing(DeleteLocal) :: At(pulled, p).Present?
    ensures forall p | p in plan.Doing(DeleteRemote) :: At(pushed, p).Present?
  {
    PlanIsTransferable(w, plan, basis, pushed, deliver);
    forall p | p in plan.Doing(DeleteLocal)
      ensures At(pulled, p).Present?
    {
      assert At(pulled, p) == InstalledAt(w.local, w.remote, plan.Doing(Pull), deliver.local, p);
      assert p !in plan.Doing(Pull);
      HeldIsAlike(w.local, plan.Doing(Pull), {}, deliver.local.time, p);
    }
  }
}
