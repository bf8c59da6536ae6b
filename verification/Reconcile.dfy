/**
 The three-way planner: what to do about a dirty path, given the base both replicas last agreed on
 and what is seen on each replica now.  Hashes are fetched only where the metadata leaves a doubt.
 */
module Reconcile {
  import opened Wrappers
  import opened Journal
  import opened Entries

  datatype ActionKind = Push | Pull | DeleteLocal | DeleteRemote | UpdateBase

  datatype Reason = PlaceholderChanged | KindDivergence | BothModified | DeleteVersusModify

  datatype Decision =
    | NoChange
    | Act(action: ActionKind, local: State, remote: State, baseAfter: State)
    | Conflict(reason: Reason, local: State, remote: State)
    | Warning
    | NeedHash(localSide: bool, remoteSide: bool)

  function MatchingBaseAfter(local: State, remote: State): State {
    if local.Missing? || local.entry.placeholder then local else remote
  }

  predicate MatchesBase(current: State, base: State) {
    if FileWithoutHash(current) && IsFile(base) then QuickEqual(current, base) else ContentEqual(current, base)
  }

  // The decision once no hash is missing that could change it.
  function PlanPath(base: State, local: State, remote: State): Decision {
    if ContentEqual(local, remote) then
      if local.Missing? && base.Missing? then NoChange
      else Act(UpdateBase, local, remote, MatchingBaseAfter(local, remote))
    else if base.Missing? then
      if local.Missing? then Act(Pull, local, remote, remote)
      else if remote.Missing? then Act(Push, local, remote, local)
      else Conflict(BothModified, local, remote)
    else if MatchesBase(local, base) && MatchesBase(remote, base) then NoChange
    else if MatchesBase(local, base) then
      if remote.Missing? then Act(DeleteLocal, local, remote, Missing) else Act(Pull, local, remote, remote)
    else if MatchesBase(remote, base) then
      if local.Missing? then Act(DeleteRemote, local, remote, Missing) else Act(Push, local, remote, local)
    else
      Conflict(if local.Missing? || remote.Missing? then DeleteVersusModify else BothModified, local, remote)
  }

  predicate IsSpecial(s: State) {
    s.Present? && s.entry.kind.Special?
  }

  predicate WantsHash(current: State, base: State) {
    FileWithoutHash(current) && !QuickEqual(current, base)
  }

  // The decision for a path that is not ignored.
  function Decide(base: State, local: State, remote: State): Decision {
    if IsSpecial(base) || IsSpecial(local) || IsSpecial(remote) then Warning
    else if base.Present? && base.entry.placeholder && local != base then Conflict(PlaceholderChanged, local, remote)
    else if local.Present? && remote.Present? && local.entry.kind != remote.entry.kind then
      Conflict(KindDivergence, local, remote)
    else if WantsHash(local, base) || WantsHash(remote, base) then
      NeedHash(WantsHash(local, base), WantsHash(remote, base))
    else PlanPath(base, local, remote)
  }

  // ---------------------------------------------------------------- what a decision means

  predicate KindsDiffer(local: State, remote: State) {
    local.Present? && remote.Present? && local.entry.kind != remote.entry.kind
  }

  predicate Does(d: Decision, kind: ActionKind) {
    d.Act? && d.action == kind
  }

  // With full observations the planner is a three-way merge by content: agreement updates the base,
  // a side that still holds the base content follows the other, and everything else is a conflict
  // whose reason says what happened.  A change of kind is a conflict even if one side is unchanged.
  // Special entries are left alone, and a placeholder that is not the one in the base is a conflict
  // before anything else; one that is stays a placeholder when the base is updated.
  lemma ThreeWayMerge(base: State, local: State, remote: State)
    requires Hashed(base) && Hashed(local) && Hashed(remote)
    ensures Decide(base, local, remote) == Warning <==>
              || (base.Present? && base.entry.kind.Special?)
              || (local.Present? && local.entry.kind.Special?)
              || (remote.Present? && remote.entry.kind.Special?)
    ensures var d := Decide(base, local, remote);
            d != Warning ==>
              (d == Conflict(PlaceholderChanged, local, remote) <==> base.Present? && base.entry.placeholder && local != base)
    ensures var d := Decide(base, local, remote);
            var same, l, r := ContentEqual(local, remote), ContentEqual(local, base), ContentEqual(remote, base);
            d != Warning && d != Conflict(PlaceholderChanged, local, remote) ==>
            && (d == NoChange <==> base.Missing? && local.Missing? && remote.Missing?)
            && (Does(d, UpdateBase) <==> same && !(base.Missing? && local.Missing?))
            && (Does(d, Push) <==> local.Present? && r && !l && !KindsDiffer(local, remote))
            && (Does(d, Pull) <==> remote.Present? && l && !r && !KindsDiffer(local, remote))
            && (Does(d, DeleteLocal) <==> local.Present? && remote.Missing? && l)
            && (Does(d, DeleteRemote) <==> remote.Present? && local.Missing? && r)
            && (d == Conflict(KindDivergence, local, remote) <==> KindsDiffer(local, remote))
            && (d == Conflict(DeleteVersusModify, local, remote) <==>
                  !same && !l && !r && (local.Missing? || remote.Missing?))
            && (d == Conflict(BothModified, local, remote) <==>
                  !same && !l && !r && local.Present? && remote.Present? && !KindsDiffer(local, remote))
            && (d.Act? ==> d.local == local && d.remote == remote
                           && ContentEqual(d.baseAfter, if d.action.Pull? || d.action.DeleteLocal? then remote else local))
            && (Does(d, UpdateBase) ==> d.baseAfter == if local.Present? && local.entry.placeholder then local else remote)
  {
  }

  function Mirrored(kind: ActionKind): ActionKind {
    match kind
    case Push => Pull
    case Pull => Push
    case DeleteLocal => DeleteRemote
    case DeleteRemote => DeleteLocal
    case UpdateBase => UpdateBase
  }

  // Neither side is preferred: exchanging them exchanges the roles in the decision.
  lemma SidesAreAlike(base: State, local: State, remote: State)
    requires Plain(base)
    ensures var d, m := Decide(base, local, remote), Decide(base, remote, local);
            match d
            case NoChange => m == NoChange
            case Act(kind, l, r, after) => m.Act? && m.action == Mirrored(kind) && m.local == r && m.remote == l
                                           && (after == m.baseAfter || ContentEqual(after, m.baseAfter))
            case Conflict(reason, l, r) => m == Conflict(reason, r, l)
            case Warning => m == Warning
            case NeedHash(l, r) => m == NeedHash(r, l)
  {
  }

  // ---------------------------------------------------------------- plans

  type Tree = map<Path, State>

  function At(tree: Tree, p: Path): State {
    if p in tree then tree[p] else Missing
  }

  datatype HashRequest = HashRequest(side: Side, path: Path)
  datatype SyncAction = SyncAction(kind: ActionKind, path: Path, local: State, remote: State, baseAfter: State)
  datatype ConflictDecision = ConflictDecision(path: Path, reason: Reason, local: State, remote: State)

  datatype SyncPlan = SyncPlan(
    hashRequests: seq<HashRequest>,
    actions: seq<SyncAction>,
    conflicts: seq<ConflictDecision>,
    warnings: seq<Path>)

  // A planned state, possibly without a hash, still matches what is observed later on.
  predicate AsPlanned(planned: State, observed: State) {
    planned == observed || (FileWithoutHash(planned) && QuickEqual(planned, observed))
  }

  // For a deletion directories are the same when their modes are.
  predicate DeleteMatches(expected: State, observed: State) {
    expected == observed
    || (expected.Present? && observed.Present? && expected.entry.kind.Dir? && observed.entry.kind.Dir?
        && expected.entry.mode == observed.entry.mode)
  }

  const EMPTY_PLAN := SyncPlan([], [], [], [])

  // Filing one decision under its path.
  function File(plan: SyncPlan, path: Path, decision: Decision): SyncPlan {
    match decision
    case NoChange => plan
    case Act(kind, local, remote, baseAfter) =>
      plan.(actions := plan.actions + [SyncAction(kind, path, local, remote, baseAfter)])
    case Conflict(reason, local, remote) =>
      plan.(conflicts := plan.conflicts + [ConflictDecision(path, reason, local, remote)])
    case Warning => plan.(warnings := plan.warnings + [path])
    case NeedHash(localSide, remoteSide) =>
      plan.(hashRequests := plan.hashRequests
                            + (if localSide then [HashRequest(Local, path)] else [])
                            + (if remoteSide then [HashRequest(Remote, path)] else []))
  }

  // The decision for every dirty path that is not ignored.
  function Decisions(base: Tree, local: Tree, remote: Tree, dirty: set<Path>, ignored: Path -> bool): map<Path, Decision> {
    map p | p in dirty && !ignored(p) :: Decide(At(base, p), At(local, p), At(remote, p))
  }

  predicate Decided(decisions: map<Path, Decision>, p: Path, decision: Decision) {
    p in decisions && decisions[p] == decision
  }

  predicate Requests(decisions: map<Path, Decision>, p: Path, side: Side) {
    && p in decisions && decisions[p].NeedHash?
    && if side.Local? then decisions[p].localSide else decisions[p].remoteSide
  }

  // What a plan must contain: exactly the decisions made, each filed under its path.
  ghost predicate IsPlan(plan: SyncPlan, decisions: map<Path, Decision>) {
    && (forall a :: a in plan.actions <==> Decided(decisions, a.path, Act(a.kind, a.local, a.remote, a.baseAfter)))
    && (forall c :: c in plan.conflicts <==> Decided(decisions, c.path, Conflict(c.reason, c.local, c.remote)))
    && (forall p :: p in plan.warnings <==> Decided(decisions, p, Warning))
    && (forall r :: r in plan.hashRequests <==> Requests(decisions, r.path, r.side))
  }

  function ToSet(paths: seq<Path>): set<Path> {
    set p | p in paths
  }

  ghost predicate Distinct<T>(items: seq<T>) {
    forall i, j | 0 <= i < j < |items| :: items[i] != items[j]
  }

  // No path is acted upon, or held in conflict, twice.
  ghost predicate OncePerPath(plan: SyncPlan) {
    && (forall i, j | 0 <= i < j < |plan.actions| :: plan.actions[i].path != plan.actions[j].path)
    && (forall i, j | 0 <= i < j < |plan.conflicts| :: plan.conflicts[i].path != plan.conflicts[j].path)
  }

  lemma FileKeepsPlan(plan: SyncPlan, decisions: map<Path, Decision>, path: Path, decision: Decision)
    requires IsPlan(plan, decisions) && OncePerPath(plan) && path !in decisions
    requires decision.NeedHash? ==> decision.localSide || decision.remoteSide
    ensures IsPlan(File(plan, path, decision), decisions[path := decision]) && OncePerPath(File(plan, path, decision))
  {
    var next, after := File(plan, path, decision), decisions[path := decision];
    forall a ensures a in next.actions <==> Decided(after, a.path, Act(a.kind, a.local, a.remote, a.baseAfter)) {}
    forall c ensures c in next.conflicts <==> Decided(after, c.path, Conflict(c.reason, c.local, c.remote)) {}
    forall p ensures p in next.warnings <==> Decided(after, p, Warning) {}
    forall r ensures r in next.hashRequests <==> Requests(after, r.path, r.side) {}
    assert forall a | a in plan.actions :: a.path in decisions;
    assert forall c | c in plan.conflicts :: c.path in decisions;
  }

  lemma DecisionsStep(base: Tree, local: Tree, remote: Tree, dirty: seq<Path>, i: nat, ignored: Path -> bool)
    requires i < |dirty| && Distinct(dirty)
    ensures var before := Decisions(base, local, remote, ToSet(dirty[..i]), ignored);
            var path := dirty[i];
            && path !in before
            && Decisions(base, local, remote, ToSet(dirty[..i + 1]), ignored)
               == if ignored(path) then before
                  else before[path := Decide(At(base, path), At(local, path), At(remote, path))]
  {
    assert ToSet(dirty[..i + 1]) == ToSet(dirty[..i]) + {dirty[i]};
  }

  lemma NeedHashNeedsOne(base: State, local: State, remote: State)
    ensures var d := Decide(base, local, remote); d.NeedHash? ==> d.localSide || d.remoteSide
  {
  }

  // `dirty` is the sorted tuple of dirty paths.
  method BuildIncrementalPlan(base: Tree, local: Tree, remote: Tree, dirty: seq<Path>, ignored: Path -> bool)
    returns (plan: SyncPlan)
    requires Distinct(dirty)
    ensures IsPlan(plan, Decisions(base, local, remote, ToSet(dirty), ignored)) && OncePerPath(plan)
  {
    plan := EMPTY_PLAN;
    for i := 0 to |dirty|
      invariant IsPlan(plan, Decisions(base, local, remote, ToSet(dirty[..i]), ignored)) && OncePerPath(plan)
    {
      var path := dirty[i];
      DecisionsStep(base, local, remote, dirty, i, ignored);
      if !ignored(path) {
        var decision := Decide(At(base, path), At(local, path), At(remote, path));
        NeedHashNeedsOne(At(base, path), At(local, path), At(remote, path));
        FileKeepsPlan(plan, Decisions(base, local, remote, ToSet(dirty[..i]), ignored), path, decision);
        plan := File(plan, path, decision);
      }
    }
    assert dirty[..|dirty|] == dirty;
  }
}
