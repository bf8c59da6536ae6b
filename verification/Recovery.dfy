/**
 Starting again after a crash.

 A crash may come at any point of a cycle: between the intent commit and the final one the replicas
 may have been changed in part, and the tables are as last committed.  A restart appends a rescan
 event, so the first cycle audits both replicas.
 */
module Recovery {
  import opened Wrappers
  import opened Journal
  import opened Entries
  import opened Reconcile
  import opened Planning
  import opened Trees
  import opened Cycle
  import opened Engine
  import Audit

  // The replica is what its history ends with.
  ghost predicate EndsAs(past: Audit.History, tree: Tree) {
    forall p :: Audit.Tip(past(p)) == At(tree, p)
  }

  // What has not drifted holds the base content.
  lemma NoDriftHoldsBase(side: Side, base: State, versions: Audit.Versions, seen: Audit.Observation, hashed: Audit.Observation,
                         stored: Option<nat>)
    requires Audit.InFull(base) && Plain(base) && Audit.SoundAt(base, versions, stored)
    requires Audit.Between(versions, |versions| - 1, versions)
    requires seen == Audit.Look(versions, |versions| - 1, false) && hashed == Audit.Look(versions, |versions| - 1, true)
    requires !Audit.AfterHashing(side, base, seen, hashed, stored).Drifted?
    ensures Audit.HoldsBase(Audit.Tip(versions), base)
  {
    Audit.SparingChangesNothing(side, base, versions, |versions| - 1, |versions| - 1, versions, stored);
  }

  // An undisturbed audit leaves out only paths in agreement.
  lemma UndriftedAgrees(w: World, localPast: Audit.History, remotePast: Audit.History,
                        localSignatures: Audit.Signatures, remoteSignatures: Audit.Signatures,
                        localSnapshot: map<Path, Audit.Observation>, remoteSnapshot: map<Path, Audit.Observation>,
                        hashLocal: Path -> Audit.Observation, hashRemote: Path -> Audit.Observation, p: Path)
    requires Sound(w) && EndsAs(localPast, w.local) && EndsAs(remotePast, w.remote)
    requires Audit.CacheSound(w.base, localPast, localSignatures) && Audit.CacheSound(w.base, remotePast, remoteSignatures)
    requires Audit.Observed(localPast, localPast, localSnapshot, hashLocal)
    requires Audit.Observed(remotePast, remotePast, remoteSnapshot, hashRemote)
    requires !Audit.AuditVerdict(Local, w.base, localSnapshot, hashLocal, localSignatures, p).Drifted?
    requires !Audit.AuditVerdict(Remote, w.base, remoteSnapshot, hashRemote, remoteSignatures, p).Drifted?
    ensures Agreed(w, p) || SpecialAt(w, p)
    ensures QuickEqual(At(w.local, p), At(w.base, p)) ==> ContentEqual(At(w.local, p), At(w.base, p))
    ensures QuickEqual(At(w.remote, p), At(w.base, p)) ==> ContentEqual(At(w.remote, p), At(w.base, p))
  {
    assert Audit.SoundAt(At(w.base, p), localPast(p), Audit.Stored(localSignatures, p));
    assert Audit.SoundAt(At(w.base, p), remotePast(p), Audit.Stored(remoteSignatures, p));
    NoDriftHoldsBase(Local, At(w.base, p), localPast(p), Audit.SeenIn(localSnapshot, p), hashLocal(p),
                     Audit.Stored(localSignatures, p));
    NoDriftHoldsBase(Remote, At(w.base, p), remotePast(p), Audit.SeenIn(remoteSnapshot, p), hashRemote(p),
                     Audit.Stored(remoteSignatures, p));
  }

  ghost predicate StartsFrom(c: Audit.Cache, w: World, localSnapshot: map<Path, Audit.Observation>,
                             remoteSnapshot: map<Path, Audit.Observation>,
                             hashLocal: Path -> Audit.Observation, hashRemote: Path -> Audit.Observation) {
    && c.base == w.base && EndsAs(c.local.past, w.local) && EndsAs(c.remote.past, w.remote)
    && Audit.Observed(c.local.past, c.local.past, localSnapshot, hashLocal)
    && Audit.Observed(c.remote.past, c.remote.past, remoteSnapshot, hashRemote)
  }

  // What an undisturbed audit requeues is what differs from the base on one of the sides.
  ghost predicate DriftIsChange(w: World, ignored: Path -> bool, drift: set<Path>) {
    forall p :: p in drift <==>
      !ignored(p) && (Audit.Unlike(At(w.local, p), At(w.base, p)) || Audit.Unlike(At(w.remote, p), At(w.base, p)))
  }

  lemma UndriftedIsSafe(w: World, run: seq<Audit.Cache>, localSnapshot: map<Path, Audit.Observation>,
                        remoteSnapshot: map<Path, Audit.Observation>,
                        hashLocal: Path -> Audit.Observation, hashRemote: Path -> Audit.Observation,
                        ignored: Path -> bool, requeued: set<Path>, drift: set<Path>)
    requires Audit.IsRun(run) && Sound(w) && StartsFrom(run[|run| - 1], w, localSnapshot, remoteSnapshot, hashLocal, hashRemote)
    requires var c := run[|run| - 1];
             forall p :: p in drift <==>
               !ignored(p) && (Audit.AuditVerdict(Local, w.base, localSnapshot, hashLocal, c.local.signatures, p).Drifted?
                               || Audit.AuditVerdict(Remote, w.base, remoteSnapshot, hashRemote, c.remote.signatures, p).Drifted?)
    ensures QuickMeansEqual(w, ignored, requeued + drift)
    ensures forall p | !ignored(p) && p !in drift :: Agreed(w, p) || SpecialAt(w, p)
    ensures DriftIsChange(w, ignored, drift)
  {
    hide Audit.AuditVerdict, Audit.Unlike, QuickEqual, ContentEqual;
    var c := run[|run| - 1];
    Audit.CacheStaysSound(run, |run| - 1);
    forall p
      ensures p in drift <==>
                !ignored(p) && (Audit.Unlike(At(w.local, p), At(w.base, p)) || Audit.Unlike(At(w.remote, p), At(w.base, p)))
    {
      Audit.QuietAudit(Local, w.base, c.local.past, c.local.signatures, localSnapshot, hashLocal, p);
      Audit.QuietAudit(Remote, w.base, c.remote.past, c.remote.signatures, remoteSnapshot, hashRemote, p);
    }
    forall p | !ignored(p) && p !in drift
      ensures Agreed(w, p) || SpecialAt(w, p)
      ensures QuickEqual(At(w.local, p), At(w.base, p)) ==> ContentEqual(At(w.local, p), At(w.base, p))
      ensures QuickEqual(At(w.remote, p), At(w.base, p)) ==> ContentEqual(At(w.remote, p), At(w.base, p))
    {
      UndriftedAgrees(w, c.local.past, c.remote.past, c.local.signatures, c.remote.signatures,
                      localSnapshot, remoteSnapshot, hashLocal, hashRemote, p);
    }
  }

  // ---------------------------------------------------------------- the cycle as steps of a run

  lemma RunGrows(run: seq<Audit.Cache>, c: Audit.Cache)
    requires Audit.IsRun(run) && Audit.Next(run[|run| - 1], c)
    ensures Audit.IsRun(run + [c])
  {
  }

  // The undisturbed audit at the start.
  lemma AuditGrowsRun(run: seq<Audit.Cache>, next: Audit.Cache, w: World, localSnapshot: map<Path, Audit.Observation>,
                      remoteSnapshot: map<Path, Audit.Observation>, hashLocal: Path -> Audit.Observation,
                      hashRemote: Path -> Audit.Observation, ignored: Path -> bool)
    requires Audit.IsRun(run) && StartsFrom(run[|run| - 1], w, localSnapshot, remoteSnapshot, hashLocal, hashRemote)
    requires var c := run[|run| - 1];
             && next.base == c.base && next.local.past == c.local.past && next.remote.past == c.remote.past
             && (forall p :: Audit.Stored(next.local.signatures, p)
                   == if ignored(p) then Audit.Stored(c.local.signatures, p)
                      else Audit.NextStored(Audit.AuditVerdict(Local, c.base, localSnapshot, hashLocal, c.local.signatures, p),
                                            Audit.Stored(c.local.signatures, p)))
             && (forall p :: Audit.Stored(next.remote.signatures, p)
                   == if ignored(p) then Audit.Stored(c.remote.signatures, p)
                      else Audit.NextStored(Audit.AuditVerdict(Remote, c.base, remoteSnapshot, hashRemote, c.remote.signatures, p),
                                            Audit.Stored(c.remote.signatures, p)))
    ensures Audit.IsRun(run + [next])
  {
    var c := run[|run| - 1];
    Audit.AuditIsStep(Local, c.base, c.local.past, c.local.past, localSnapshot, hashLocal, c.local.signatures,
                      next.local.signatures, ignored);
    Audit.AuditIsStep(Remote, c.base, c.remote.past, c.remote.past, remoteSnapshot, hashRemote, c.remote.signatures,
                      next.remote.signatures, ignored);
    assert Audit.Takes(c, next, Audit.Audits(ignored));
    RunGrows(run, next);
  }

  // A lazily hashed decision is a decision on something seen of each side.
  lemma LazyIsDecide(base: State, seenLocal: State, seenRemote: State, local: State, remote: State) returns (l: State, r: State)
    requires SeenAs(seenLocal, local) && SeenAs(seenRemote, remote)
    ensures SeenAs(l, local) && SeenAs(r, remote)
    ensures LazyDecision(base, seenLocal, seenRemote, local, remote) == Decide(base, l, r)
  {
    var first := Decide(base, seenLocal, seenRemote);
    l := Answer(first.NeedHash? && first.localSide, seenLocal, local);
    r := Answer(first.NeedHash? && first.remoteSide, seenRemote, remote);
    var d := Decide(base, l, r);
    l, r := Answer(d.Act? && d.action.DeleteLocal? && FileWithoutHash(d.local), l, local),
            Answer(d.Act? && d.action.DeleteRemote? && FileWithoutHash(d.remote), r, remote);
  }

  lemma SeenByPlan(w: World, plan: Plan, basis: Basis, p: Path)
    returns (l: State, r: State)
    requires Planned(w, plan, basis) && p in plan.decisions
    ensures SeenAs(l, At(w.local, p)) && SeenAs(r, At(w.remote, p)) && plan.decisions[p] == Decide(At(w.base, p), l, r)
  {
    hide LazyDecision, Decide;
    l, r := LazyIsDecide(At(w.base, p), At(basis.seenLocal, p), At(basis.seenRemote, p), At(w.local, p), At(w.remote, p));
  }

  // The base entry of a completed path is what the cycle planned or read back.
  lemma CompletedBase(w: World, v: World, plan: Plan, basis: Basis, deliver: Transport, p: Path)
    requires Planned(w, plan, basis) && Reliable(deliver)
    requires Commits(w, v, plan, deliver)
    ensures p !in plan.Completed() ==> At(v.base, p) == At(w.base, p)
    ensures p in plan.Completed() ==> match plan.decisions[p].action
              case UpdateBase => At(v.base, p) == plan.decisions[p].baseAfter
              case Push => At(v.base, p) == At(v.remote, p)
              case Pull => At(v.base, p) == At(v.local, p)
              case DeleteLocal => At(v.base, p) == At(v.local, p) == Missing
              case DeleteRemote => At(v.base, p) == At(v.remote, p) == Missing
  {
    hide Planned, Reliable, Installed;
    if p in plan.Completed() {
      CompletedAgrees(w, v, plan, basis, deliver, p);
      if p in plan.Doing(DeleteLocal) + plan.Doing(DeleteRemote) {
        DeletedBase(w, plan, basis, p);
      }
    }
  }

  lemma CompletionIsStep(w: World, v: World, d: Decision, l: State, r: State, p: Path, local: Audit.Versions, localAfter: Audit.Versions,
                         remote: Audit.Versions, remoteAfter: Audit.Versions)
    requires d.Act? && d == Decide(At(w.base, p), l, r) && SeenAs(l, At(w.local, p)) && SeenAs(r, At(w.remote, p))
    requires local <= localAfter && Audit.Tip(local) == At(w.local, p) && Audit.Tip(localAfter) == At(v.local, p)
    requires remote <= remoteAfter && Audit.Tip(remote) == At(w.remote, p) && Audit.Tip(remoteAfter) == At(v.remote, p)
    requires match d.action
             case UpdateBase => At(v.base, p) == d.baseAfter
             case Push => At(v.base, p) == At(v.remote, p)
             case Pull => At(v.base, p) == At(v.local, p)
             case DeleteLocal => At(v.base, p) == At(v.local, p) == Missing
             case DeleteRemote => At(v.base, p) == At(v.remote, p) == Missing
    ensures Audit.Completes(At(w.base, p), At(v.base, p), local, localAfter, remote, remoteAfter)
  {
    hide Decide, SeenAs;
    var i, j := |local| - 1, |remote| - 1;
    var k := if d.action.Push? || d.action.DeleteRemote? then |remoteAfter| - 1 else |localAfter| - 1;
    assert localAfter[i] == At(w.local, p) && remoteAfter[j] == At(w.remote, p);
    assert Audit.Between(local, i, localAfter) && Audit.Between(remote, j, remoteAfter);
    assert Audit.ReadBack(d, At(v.base, p), local, localAfter, remote, remoteAfter, k);
  }

  // A committed cycle is the commit of a run.
  lemma CycleIsCommit(w: World, v: World, plan: Plan, basis: Basis, deliver: Transport, c: Audit.Cache, d: Audit.Cache)
    requires Planned(w, plan, basis) && Reliable(deliver)
    requires Commits(w, v, plan, deliver)
    requires c.base == w.base && EndsAs(c.local.past, w.local) && EndsAs(c.remote.past, w.remote)
    requires d.base == v.base && EndsAs(d.local.past, v.local) && EndsAs(d.remote.past, v.remote)
    requires d.local.signatures == c.local.signatures && d.remote.signatures == c.remote.signatures
    requires Audit.Extends(c.local.past, d.local.past) && Audit.Extends(c.remote.past, d.remote.past)
    ensures Audit.Next(c, d)
  {
    hide Planned, Reliable, Commits, Audit.Completes, Decide;
    forall p
      ensures At(d.base, p) == At(c.base, p)
              || Audit.Completes(At(c.base, p), At(d.base, p), c.local.past(p), d.local.past(p), c.remote.past(p), d.remote.past(p))
    {
      CompletedBase(w, v, plan, basis, deliver, p);
      if p in plan.Completed() {
        var l, r := SeenByPlan(w, plan, basis, p);
        CompletionIsStep(w, v, plan.decisions[p], l, r, p, c.local.past(p), d.local.past(p), c.remote.past(p), d.remote.past(p));
      }
    }
    assert Audit.Takes(c, d, Audit.Commits);
  }

  // The stamps are the signatures of what the history ends with.
  ghost predicate Stamped(past: Audit.History, stamps: Stamps) {
    forall p :: stamps(p) == Audit.Look(past(p), |past(p)| - 1, true).signature
  }

  lemma StampedIsLook(past: Audit.History, tree: Tree, stamps: Stamps, p: Path)
    requires EndsAs(past, tree) && Stamped(past, stamps)
    ensures LookedAt(tree, stamps, p) == Audit.Look(past(p), |past(p)| - 1, true)
    ensures Audit.Between(past(p), |past(p)| - 1, past(p))
  {
  }

  // What the refresh does to one side.
  lemma RefreshOfSide(side: Side, base: Tree, past: Audit.History, tree: Tree, stamps: Stamps,
                      signatures: Audit.Signatures, next: Audit.Signatures, completed: set<Path>)
    requires EndsAs(past, tree) && Stamped(past, stamps)
    requires forall p :: Audit.Stored(next, p) == StoredAfter(side, true, completed, base, tree, stamps, signatures, p)
    ensures Audit.RefreshedSide(side, base, Audit.Replica(past, signatures), Audit.Replica(past, next), completed)
  {
    var observed: Path -> Audit.Observation := p => LookedAt(tree, stamps, p);
    forall p
      ensures Audit.CameUpon(past(p), past(p), observed(p))
    {
      StampedIsLook(past, tree, stamps, p);
    }
    Audit.RefreshIsStep(side, base, past, past, observed, signatures, next, completed);
  }

  // The refresh after the commit is a step of a run; where it fails nothing is stored.
  lemma RefreshIsNext(c: Audit.Cache, next: Audit.Cache, v: World, refreshed: bool, completed: set<Path>,
                      stampLocal: Stamps, stampRemote: Stamps)
    requires c.base == next.base && c.local.past == next.local.past && c.remote.past == next.remote.past
    requires refreshed ==> c.base == v.base && EndsAs(c.local.past, v.local) && EndsAs(c.remote.past, v.remote)
                           && Stamped(c.local.past, stampLocal) && Stamped(c.remote.past, stampRemote)
    requires forall p :: Audit.Stored(next.local.signatures, p)
               == StoredAfter(Local, refreshed, completed, v.base, v.local, stampLocal, c.local.signatures, p)
    requires forall p :: Audit.Stored(next.remote.signatures, p)
               == StoredAfter(Remote, refreshed, completed, v.base, v.remote, stampRemote, c.remote.signatures, p)
    ensures Audit.Next(c, next)
  {
    var done := if refreshed then completed else {};
    if refreshed {
      RefreshOfSide(Local, v.base, c.local.past, v.local, stampLocal, c.local.signatures, next.local.signatures, done);
      RefreshOfSide(Remote, v.base, c.remote.past, v.remote, stampRemote, c.remote.signatures, next.remote.signatures, done);
    }
    assert Audit.Takes(c, next, Audit.Refreshes(done));
  }

  // The histories lead on to what the replicas hold now, with the stamps found there.
  ghost predicate Follows(c: Audit.Cache, now: World, stampLocal: Stamps, stampRemote: Stamps,
                          localAfter: Audit.History, remoteAfter: Audit.History) {
    && Audit.Extends(c.local.past, localAfter) && Audit.Extends(c.remote.past, remoteAfter)
    && EndsAs(localAfter, now.local) && EndsAs(remoteAfter, now.remote)
    && Stamped(localAfter, stampLocal) && Stamped(remoteAfter, stampRemote)
  }

  // What the tables and the replicas hold now continues the run.
  ghost predicate Continues(run: seq<Audit.Cache>, next: Audit.Cache) {
    exists longer: seq<Audit.Cache> :: Audit.IsRun(longer) && run <= longer && longer[|longer| - 1] == next
  }

  // The steps of a restart after the audit, whether it commits or not.
  lemma RestartContinues(run: seq<Audit.Cache>, audited: Audit.Cache, next: Audit.Cache, w: World, v: World, plan: Plan,
                         basis: Basis, deliver: Transport,
                         committed: bool, refreshed: bool, stampLocal: Stamps, stampRemote: Stamps)
    requires run != [] && Audit.IsRun(run + [audited])
    requires audited.base == w.base && EndsAs(audited.local.past, w.local) && EndsAs(audited.remote.past, w.remote)
    requires Audit.Extends(audited.local.past, next.local.past) && Audit.Extends(audited.remote.past, next.remote.past)
    requires if committed
             then Planned(w, plan, basis) && Reliable(deliver) && Commits(w, v, plan, deliver)
                  && next.base == v.base && EndsAs(next.local.past, v.local) && EndsAs(next.remote.past, v.remote)
                  && Stamped(next.local.past, stampLocal) && Stamped(next.remote.past, stampRemote)
             else next.base == w.base && !refreshed
    requires forall p :: Audit.Stored(next.local.signatures, p)
               == StoredAfter(Local, refreshed, plan.Completed(), v.base, v.local, stampLocal, audited.local.signatures, p)
    requires forall p :: Audit.Stored(next.remote.signatures, p)
               == StoredAfter(Remote, refreshed, plan.Completed(), v.base, v.remote, stampRemote, audited.remote.signatures, p)
    ensures Continues(run, next)
  {
    var so := run + [audited];
    var between := Audit.Cache(next.base, Audit.Replica(next.local.past, audited.local.signatures),
                               Audit.Replica(next.remote.past, audited.remote.signatures));
    if committed {
      CycleIsCommit(w, v, plan, basis, deliver, audited, between);
    } else {
      assert Audit.Takes(audited, between, Audit.Writes);
    }
    RunGrows(so, between);
    RefreshIsNext(between, next, v, refreshed, plan.Completed(), stampLocal, stampRemote);
    RunGrows(so + [between], next);
    assert run <= so + [between] + [next];
  }

  // The path is settled whatever else is requeued.
  lemma SettledGrows(w: World, v: World, more: set<Path>, p: Path)
    requires Settled(w, v, p)
    ensures Settled(w, v.(requeued := v.requeued + more), p)
  {
  }

  // Whatever run of writes, commits, audits and crashes led here, a restart's audit and undisturbed
  // cycle settle every path that is not ignored, if the cycle commits: agreed on both sides and in the
  // base, or an open conflict, or special, or requeued.  Metadata is trusted nowhere in this: files
  // that drifted are hashed because they are requeued, the others because the cache vouches for them.
  // And whatever becomes of the cycle, what is stored afterwards continues the run.
  method Restart(engine: SyncEngine, coordinator: Audit.AuditCoordinator, ghost run: seq<Audit.Cache>,
                 localSnapshot: map<Path, Audit.Observation>, remoteSnapshot: map<Path, Audit.Observation>,
                 hashLocal: Path -> Audit.Observation, hashRemote: Path -> Audit.Observation,
                 localEvents: seq<Event>, remoteEvents: seq<Event>, echoes: Echoes,
                 stampLocal: Stamps, stampRemote: Stamps, ghost localAfter: Audit.History, ghost remoteAfter: Audit.History)
    returns (committed: bool, acknowledges: bool,
             ghost w: World, ghost v: World, ghost plan: Plan, ghost basis: Basis, ghost drift: set<Path>)
    requires coordinator.ignored == engine.ignored
    requires Audit.IsRun(run)
    requires var c := run[|run| - 1];
             && c.local.signatures == coordinator.localSignatures && c.remote.signatures == coordinator.remoteSignatures
             && StartsFrom(c, engine.State(), localSnapshot, remoteSnapshot, hashLocal, hashRemote)
    requires UniqueKeys(localEvents + remoteEvents) && ContainsRescan(localEvents + remoteEvents)
    requires forall e | e in localEvents + remoteEvents :: ValidEvent(e)
    requires Sound(engine.State()) && Closed(engine.local) && Closed(engine.remote) && Reliable(engine.deliver)
    modifies engine, coordinator
    ensures DriftIsChange(old(engine.State()), engine.ignored, drift)
    ensures w == old(engine.State()).(requeued := old(engine.requeued) + drift)
    ensures Observable(w, localEvents + remoteEvents) ==>
              Planned(w, plan, basis) && basis.ignored == engine.ignored
              && forall p :: p in basis.dirty <==>
                   p in w.requeued || p in w.conflicts
                   || exists side :: NamedIn(localEvents + remoteEvents, side, p)
                                     && !Swallowed(w, echoes, localEvents + remoteEvents, side, p)
    ensures committed <==> Observable(w, localEvents + remoteEvents) && Feasible(w, plan, engine.deliver)
    ensures committed ==> Commits(w, v, plan, engine.deliver) && v.requeued <= engine.requeued
                          && engine.State() == v.(requeued := engine.requeued)
    ensures acknowledges <==> committed && Acknowledges(w, v, plan)
    ensures committed ==> forall p | !engine.ignored(p) :: Settled(w, engine.State(), p)
    ensures !committed ==> engine.base == old(engine.base) && engine.conflicts == old(engine.conflicts)
                           && engine.requeued == w.requeued
    ensures Follows(run[|run| - 1], engine.State(), stampLocal, stampRemote, localAfter, remoteAfter) ==>
              Continues(run, Audit.Cache(engine.base, Audit.Replica(localAfter, coordinator.localSignatures),
                                         Audit.Replica(remoteAfter, coordinator.remoteSignatures)))
  {
    hide Planned, Commits, Feasible, Observable, Closed, Reliable, Settled, Continues, Audit.Observed, EndsAs, Stamped,
         QuickMeansEqual, UniqueKeys, Mismatched, Swallowed, NamedIn, Acknowledges, StoredAfter, Audit.AuditVerdict;
    ghost var start, before := engine.State(), run[|run| - 1];
    var found := coordinator.RecordDrift(engine.base, localSnapshot, remoteSnapshot, hashLocal, hashRemote);
    drift := found;
    ghost var audited := Audit.Cache(engine.base, Audit.Replica(before.local.past, coordinator.localSignatures),
                                     Audit.Replica(before.remote.past, coordinator.remoteSignatures));
    AuditGrowsRun(run, audited, start, localSnapshot, remoteSnapshot, hashLocal, hashRemote, engine.ignored);
    UndriftedIsSafe(start, run, localSnapshot, remoteSnapshot, hashLocal, hashRemote, engine.ignored, engine.requeued, drift);
    var observed, refreshed;
    observed, committed, acknowledges, refreshed, w, v, plan, basis :=
      engine.RunOnce(localEvents, remoteEvents, echoes, found, coordinator, stampLocal, stampRemote);
    if committed {
      CycleSettlesEverything(w, v, plan, basis, engine.deliver);
      forall p | !engine.ignored(p) {
        SettledGrows(w, v, if refreshed then Mismatched(v, plan.Completed()) else {}, p);
      }
    }
    ghost var next := Audit.Cache(engine.base, Audit.Replica(localAfter, coordinator.localSignatures),
                                  Audit.Replica(remoteAfter, coordinator.remoteSignatures));
    if Follows(before, engine.State(), stampLocal, stampRemote, localAfter, remoteAfter) {
      RestartContinues(run, audited, next, w, v, plan, basis, engine.deliver,
                       committed, refreshed, stampLocal, stampRemote);
    }
  }
}
