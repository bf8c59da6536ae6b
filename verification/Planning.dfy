/**
 Fetching hashes on request: one round settles every open decision, a second round makes sure that
 whatever is to be deleted has been identified by its content, and the outcome is the one that
 hashing everything up front would have given.
 */
module Planning {
  import opened Wrappers
  import opened Journal
  import opened Entries
  import opened Reconcile

  // What a hashing observer reports, path by path.  Nothing is assumed about how it relates to the
  // earlier metadata: the files may have changed in between.
  type Observer = Path -> State

  ghost predicate Hashing(observe: Observer) {
    forall p :: Hashed(observe(p))
  }

  function Refresh(tree: Tree, paths: set<Path>, observe: Observer): Tree {
    tree + map p | p in paths :: observe(p)
  }

  function RequestedOn(plan: SyncPlan, side: Side): set<Path> {
    set r | r in plan.hashRequests && r.side == side :: r.path
  }

  function DeletesWithoutHash(plan: SyncPlan, kind: ActionKind): set<Path> {
    set a | a in plan.actions && a.kind == kind
            && FileWithoutHash(if kind.DeleteLocal? then a.local else a.remote) :: a.path
  }

  // ---------------------------------------------------------------- per path

  // The state a hash round leaves behind for one path.
  function Answer(asked: bool, seen: State, observed: State): State {
    if asked then observed else seen
  }

  // Whatever the hasher reports, no decision asks twice.
  lemma OneRoundSuffices(base: State, local: State, remote: State, localSeen: State, remoteSeen: State)
    requires Hashed(localSeen) && Hashed(remoteSeen)
    ensures var d := Decide(base, local, remote);
            !Decide(base, Answer(d.NeedHash? && d.localSide, local, localSeen),
                    Answer(d.NeedHash? && d.remoteSide, remote, remoteSeen)).NeedHash?
  {
  }

  predicate DeletesUnidentified(d: Decision) {
    && d.Act?
    && ((d.action.DeleteLocal? && FileWithoutHash(d.local)) || (d.action.DeleteRemote? && FileWithoutHash(d.remote)))
  }

  function Strengthened(d: Decision, base: State, local: State, remote: State, localSeen: State, remoteSeen: State): Decision {
    Decide(base,
           Answer(d.Act? && d.action.DeleteLocal? && FileWithoutHash(d.local), local, localSeen),
           Answer(d.Act? && d.action.DeleteRemote? && FileWithoutHash(d.remote), remote, remoteSeen))
  }

  // After strengthening nothing is deleted that has not been identified by its hash.
  lemma DeletesAreIdentified(base: State, local: State, remote: State, localSeen: State, remoteSeen: State)
    requires Hashed(localSeen) && Hashed(remoteSeen)
    requires !Decide(base, local, remote).NeedHash?
    ensures var s := Strengthened(Decide(base, local, remote), base, local, remote, localSeen, remoteSeen);
            !s.NeedHash? && !DeletesUnidentified(s)
  {
  }

  // ---------------------------------------------------------------- lazy hashing refines eager

  // Taken to be the base entry on the strength of its metadata.
  predicate Trusted(seen: State, base: State) {
    FileWithoutHash(seen) && QuickEqual(seen, base)
  }

  // Where an entry was trusted, equal size, time and mode do mean equal content.
  predicate TrustIsSound(seen: State, actual: State, base: State) {
    Trusted(seen, base) ==> ContentEqual(actual, base)
  }

  // One replica's entry as first seen: its metadata, or already with its hash.
  predicate SeenAs(seen: State, actual: State) {
    seen == Metadata(actual) || seen == actual
  }

  // The whole lazy path: metadata first, hashes where asked, then the deletion round.
  function LazyDecision(base: State, localSeen: State, remoteSeen: State, local: State, remote: State): Decision {
    var first := Decide(base, localSeen, remoteSeen);
    var l := Answer(first.NeedHash? && first.localSide, localSeen, local);
    var r := Answer(first.NeedHash? && first.remoteSide, remoteSeen, remote);
    Strengthened(Decide(base, l, r), base, l, r, local, remote)
  }

  // The same decision, apart from hashes that were never fetched.
  predicate SameUpToHashes(a: Decision, b: Decision) {
    match a
    case Act(kind, local, remote, baseAfter) =>
      b.Act? && b.action == kind && Metadata(b.local) == Metadata(local) && Metadata(b.remote) == Metadata(remote)
      && Metadata(b.baseAfter) == Metadata(baseAfter)
    case Conflict(reason, local, remote) =>
      b.Conflict? && b.reason == reason && Metadata(b.local) == Metadata(local) && Metadata(b.remote) == Metadata(remote)
    case _ => a == b
  }

  // After the hash round a side is known in full or trusted on its metadata.
  predicate KnownOrTrusted(seen: State, actual: State, base: State) {
    seen == actual || (seen == Metadata(actual) && Trusted(seen, base))
  }

  // The decision on what is known agrees with the decision on the full states.
  lemma TrustChangesNothing(base: State, l: State, r: State, local: State, remote: State)
    requires Hashed(base) && Hashed(local) && Hashed(remote)
    requires KnownOrTrusted(l, local, base) && KnownOrTrusted(r, remote, base)
    requires TrustIsSound(l, local, base) && TrustIsSound(r, remote, base)
    ensures var lazy, eager := PlanPath(base, l, r), PlanPath(base, local, remote);
            && (SameUpToHashes(lazy, eager)
                || (lazy == NoChange && eager.Act? && eager.action.UpdateBase? && ContentEqual(eager.baseAfter, base)))
            && (lazy == NoChange && eager != NoChange <==>
                  eager.Act? && eager.action.UpdateBase? && (Trusted(l, base) || Trusted(r, base)))
  {
    assert MatchesBase(l, base) == MatchesBase(local, base) || base.Missing?;
    assert MatchesBase(r, base) == MatchesBase(remote, base) || base.Missing?;
  }

  // The decision after the hash round, and again after the deletion round.
  lemma HashRound(base: State, localSeen: State, remoteSeen: State, local: State, remote: State)
    returns (l: State, r: State)
    requires Hashed(base) && Hashed(local) && Hashed(remote)
    requires SeenAs(localSeen, local) && SeenAs(remoteSeen, remote)
    ensures var first := Decide(base, localSeen, remoteSeen);
            && l == Answer(first.NeedHash? && first.localSide, localSeen, local)
            && r == Answer(first.NeedHash? && first.remoteSide, remoteSeen, remote)
    ensures SeenAs(l, local) && SeenAs(r, remote)
    ensures Trusted(l, base) <==> Trusted(localSeen, base)
    ensures Trusted(r, base) <==> Trusted(remoteSeen, base)
    ensures (Decide(base, l, r) == PlanPath(base, l, r) && Decide(base, local, remote) == PlanPath(base, local, remote)
             && KnownOrTrusted(l, local, base) && KnownOrTrusted(r, remote, base))
            || (!Decide(base, l, r).Act? && SameUpToHashes(Decide(base, l, r), Decide(base, local, remote))
                && !Decide(base, l, r).NeedHash? && Decide(base, l, r) != NoChange)
  {
    var first := Decide(base, localSeen, remoteSeen);
    l := Answer(first.NeedHash? && first.localSide, localSeen, local);
    r := Answer(first.NeedHash? && first.remoteSide, remoteSeen, remote);
  }

  lemma DeletionRound(base: State, l: State, r: State, local: State, remote: State)
    requires Hashed(base) && Hashed(local) && Hashed(remote)
    requires KnownOrTrusted(l, local, base) && KnownOrTrusted(r, remote, base)
    requires TrustIsSound(l, local, base) && TrustIsSound(r, remote, base)
    requires Decide(base, l, r) == PlanPath(base, l, r)
    ensures SameUpToHashes(Strengthened(Decide(base, l, r), base, l, r, local, remote), Decide(base, l, r))
    ensures Strengthened(Decide(base, l, r), base, l, r, local, remote) == NoChange <==> Decide(base, l, r) == NoChange
  {
  }

  // Hashing on request decides every path as hashing everything would, with one exception: a base
  // update that would leave the base content as it is may turn into no change.  That happens
  // exactly when both sides agree and one of them was trusted on its metadata alone.
  lemma LazyRefinesEager(base: State, localSeen: State, remoteSeen: State, local: State, remote: State)
    requires Hashed(base) && Hashed(local) && Hashed(remote)
    requires SeenAs(localSeen, local) && SeenAs(remoteSeen, remote)
    requires TrustIsSound(localSeen, local, base) && TrustIsSound(remoteSeen, remote, base)
    ensures var lazy := LazyDecision(base, localSeen, remoteSeen, local, remote);
            var eager := Decide(base, local, remote);
            && !lazy.NeedHash? && !eager.NeedHash?
            && (SameUpToHashes(lazy, eager)
                || (lazy == NoChange && eager.Act? && eager.action.UpdateBase? && ContentEqual(eager.baseAfter, base)))
            && (lazy == NoChange && eager != NoChange <==>
                  eager.Act? && eager.action.UpdateBase? && (Trusted(localSeen, base) || Trusted(remoteSeen, base)))
  {
    var l, r := HashRound(base, localSeen, remoteSeen, local, remote);
    var second := Decide(base, l, r);
    var lazy := LazyDecision(base, localSeen, remoteSeen, local, remote);
    if second.Act? || second == NoChange || second.NeedHash? {
      TrustChangesNothing(base, l, r, local, remote);
      DeletionRound(base, l, r, local, remote);
    }
  }

  // A transfer always has its source identified by hash, link target or kind, never by metadata.
  lemma TransferSourcesAreIdentified(base: State, localSeen: State, remoteSeen: State, local: State, remote: State)
    requires Hashed(base) && Hashed(local) && Hashed(remote)
    requires SeenAs(localSeen, local) && SeenAs(remoteSeen, remote)
    ensures var lazy := LazyDecision(base, localSeen, remoteSeen, local, remote);
            && (lazy.Act? && lazy.action.Push? ==> lazy.local == local && local.Present?)
            && (lazy.Act? && lazy.action.Pull? ==> lazy.remote == remote && remote.Present?)
  {
  }

  // ---------------------------------------------------------------- the rounds over a whole plan

  // One observed tree after a hash round over the requested paths.
  lemma RefreshAt(tree: Tree, paths: set<Path>, observe: Observer, p: Path)
    ensures At(Refresh(tree, paths, observe), p) == if p in paths then observe(p) else At(tree, p)
  {
  }

  method SatisfyHashRequests(plan: SyncPlan, base: Tree, local: Tree, remote: Tree, dirty: seq<Path>,
                             ignored: Path -> bool, hashLocal: Observer, hashRemote: Observer)
    returns (planned: SyncPlan, localAfter: Tree, remoteAfter: Tree)
    requires Distinct(dirty) && Hashing(hashLocal) && Hashing(hashRemote)
    requires IsPlan(plan, Decisions(base, local, remote, ToSet(dirty), ignored)) && OncePerPath(plan)
    ensures localAfter == Refresh(local, RequestedOn(plan, Local), hashLocal)
    ensures remoteAfter == Refresh(remote, RequestedOn(plan, Remote), hashRemote)
    ensures IsPlan(planned, Decisions(base, localAfter, remoteAfter, ToSet(dirty), ignored)) && OncePerPath(planned)
    ensures planned.hashRequests == []
  {
    var localPaths, remotePaths := RequestedOn(plan, Local), RequestedOn(plan, Remote);
    localAfter := Refresh(local, localPaths, hashLocal);
    remoteAfter := Refresh(remote, remotePaths, hashRemote);
    planned := plan;
    if plan.hashRequests != [] {
      planned := BuildIncrementalPlan(base, localAfter, remoteAfter, dirty, ignored);
    } else {
      assert localAfter == local && remoteAfter == remote;
    }
    NothingLeftToHash(plan, planned, base, local, remote, ToSet(dirty), ignored, hashLocal, hashRemote);
  }

  lemma NothingLeftToHash(plan: SyncPlan, planned: SyncPlan, base: Tree, local: Tree, remote: Tree, dirty: set<Path>,
                          ignored: Path -> bool, hashLocal: Observer, hashRemote: Observer)
    requires Hashing(hashLocal) && Hashing(hashRemote)
    requires IsPlan(plan, Decisions(base, local, remote, dirty, ignored))
    requires IsPlan(planned, Decisions(base, Refresh(local, RequestedOn(plan, Local), hashLocal),
                                       Refresh(remote, RequestedOn(plan, Remote), hashRemote), dirty, ignored))
    ensures planned.hashRequests == []
  {
    var l := Refresh(local, RequestedOn(plan, Local), hashLocal);
    var r := Refresh(remote, RequestedOn(plan, Remote), hashRemote);
    if planned.hashRequests != [] {
      var request := planned.hashRequests[0];
      var p := request.path;
      assert request in planned.hashRequests;
      assert Requests(Decisions(base, l, r, dirty, ignored), p, request.side);
      RequestedWhereAsked(plan, Decisions(base, local, remote, dirty, ignored), p);
      RefreshAt(local, RequestedOn(plan, Local), hashLocal, p);
      RefreshAt(remote, RequestedOn(plan, Remote), hashRemote, p);
      OneRoundSuffices(At(base, p), At(local, p), At(remote, p), hashLocal(p), hashRemote(p));
      assert false;
    }
  }

  lemma RequestedWhereAsked(plan: SyncPlan, decisions: map<Path, Decision>, p: Path)
    requires IsPlan(plan, decisions) && p in decisions
    ensures p in RequestedOn(plan, Local) <==> decisions[p].NeedHash? && decisions[p].localSide
    ensures p in RequestedOn(plan, Remote) <==> decisions[p].NeedHash? && decisions[p].remoteSide
  {
    if decisions[p].NeedHash? && decisions[p].localSide {
      assert Requests(decisions, p, Local);
      assert HashRequest(Local, p) in plan.hashRequests;
    }
    if decisions[p].NeedHash? && decisions[p].remoteSide {
      assert Requests(decisions, p, Remote);
      assert HashRequest(Remote, p) in plan.hashRequests;
    }
  }

  method StrengthenDeletionTargets(plan: SyncPlan, base: Tree, local: Tree, remote: Tree, dirty: seq<Path>,
                                   ignored: Path -> bool, hashLocal: Observer, hashRemote: Observer)
    returns (planned: SyncPlan, localAfter: Tree, remoteAfter: Tree)
    requires Distinct(dirty) && Hashing(hashLocal) && Hashing(hashRemote) && plan.hashRequests == []
    requires IsPlan(plan, Decisions(base, local, remote, ToSet(dirty), ignored)) && OncePerPath(plan)
    ensures localAfter == Refresh(local, DeletesWithoutHash(plan, DeleteLocal), hashLocal)
    ensures remoteAfter == Refresh(remote, DeletesWithoutHash(plan, DeleteRemote), hashRemote)
    ensures IsPlan(planned, Decisions(base, localAfter, remoteAfter, ToSet(dirty), ignored)) && OncePerPath(planned)
    ensures planned.hashRequests == []
    ensures forall a | a in planned.actions ::
              && (a.kind.DeleteLocal? ==> !FileWithoutHash(a.local))
              && (a.kind.DeleteRemote? ==> !FileWithoutHash(a.remote))
  {
    var localPaths, remotePaths := DeletesWithoutHash(plan, DeleteLocal), DeletesWithoutHash(plan, DeleteRemote);
    localAfter := Refresh(local, localPaths, hashLocal);
    remoteAfter := Refresh(remote, remotePaths, hashRemote);
    planned := plan;
    if localPaths != {} || remotePaths != {} {
      planned := BuildIncrementalPlan(base, localAfter, remoteAfter, dirty, ignored);
    } else {
      assert localAfter == local && remoteAfter == remote;
    }
    assert planned.hashRequests != [] ==> planned.hashRequests[0] in planned.hashRequests;
    ghost var decisions := Decisions(base, localAfter, remoteAfter, ToSet(dirty), ignored);
    forall p | p in decisions
      ensures !decisions[p].NeedHash? && !DeletesUnidentified(decisions[p])
    {
      StrengthenedPath(plan, base, local, remote, ToSet(dirty), ignored, hashLocal, hashRemote, p);
    }
    forall a | a in planned.actions
      ensures !DeletesUnidentified(Act(a.kind, a.local, a.remote, a.baseAfter))
    {
      assert Decided(decisions, a.path, Act(a.kind, a.local, a.remote, a.baseAfter));
    }
  }

  lemma StrengthenedPath(plan: SyncPlan, base: Tree, local: Tree, remote: Tree, dirty: set<Path>,
                         ignored: Path -> bool, hashLocal: Observer, hashRemote: Observer, p: Path)
    requires Hashing(hashLocal) && Hashing(hashRemote) && plan.hashRequests == []
    requires IsPlan(plan, Decisions(base, local, remote, dirty, ignored)) && p in dirty && !ignored(p)
    ensures var l := Refresh(local, DeletesWithoutHash(plan, DeleteLocal), hashLocal);
            var r := Refresh(remote, DeletesWithoutHash(plan, DeleteRemote), hashRemote);
            var d := Decide(At(base, p), At(l, p), At(r, p));
            !d.NeedHash? && !DeletesUnidentified(d)
  {
    var decisions := Decisions(base, local, remote, dirty, ignored);
    var d := decisions[p];
    if d.NeedHash? {
      NeedHashNeedsOne(At(base, p), At(local, p), At(remote, p));
      RequestedWhereAsked(plan, decisions, p);
      assert false;
    }
    DeletesWhereUnhashed(plan, decisions, p);
    RefreshAt(local, DeletesWithoutHash(plan, DeleteLocal), hashLocal, p);
    RefreshAt(remote, DeletesWithoutHash(plan, DeleteRemote), hashRemote, p);
    DeletesAreIdentified(At(base, p), At(local, p), At(remote, p), hashLocal(p), hashRemote(p));
  }

  lemma DeletesWhereUnhashed(plan: SyncPlan, decisions: map<Path, Decision>, p: Path)
    requires IsPlan(plan, decisions) && p in decisions
    ensures p in DeletesWithoutHash(plan, DeleteLocal)
            <==> decisions[p].Act? && decisions[p].action.DeleteLocal? && FileWithoutHash(decisions[p].local)
    ensures p in DeletesWithoutHash(plan, DeleteRemote)
            <==> decisions[p].Act? && decisions[p].action.DeleteRemote? && FileWithoutHash(decisions[p].remote)
  {
    var d := decisions[p];
    if d.Act? {
      assert Decided(decisions, p, d);
      assert SyncAction(d.action, p, d.local, d.remote, d.baseAfter) in plan.actions;
    }
    forall a | a in plan.actions && a.path == p
      ensures d == Act(a.kind, a.local, a.remote, a.baseAfter)
    {
      assert Decided(decisions, p, Act(a.kind, a.local, a.remote, a.baseAfter));
    }
  }
}
