/**
 What one undisturbed, committed sync cycle does to the base, the replicas, the requeue table and
 the open conflicts, path by path, and what follows for every path afterwards.
 */
module Cycle {
  import opened Wrappers
  import opened Journal
  import opened Entries
  import opened Reconcile
  import opened Planning
  import opened Trees

  // An open conflict, as recorded.
  datatype Record = Record(reason: Reason, local: State, remote: State)

  datatype World = World(
    base: Tree,
    local: Tree,
    remote: Tree,
    requeued: set<Path>,
    conflicts: map<Path, Record>)

  // What arrives at one replica: the copy that a transfer of a source entry leaves there, and the
  // time that a directory carries after the cycle has worked in it.
  datatype Delivery = Delivery(copy: (Path, State) -> State, time: Path -> int)

  datatype Transport = Transport(local: Delivery, remote: Delivery)

  // A delivered entry has the content of its source; its metadata may differ.
  ghost predicate Faithful(deliver: Delivery) {
    forall p: Path, s: State | s.Present? && Hashed(s) && !IsSpecial(s) ::
      ContentEqual(deliver.copy(p, s), s) && !deliver.copy(p, s).entry.placeholder
  }

  ghost predicate Reliable(deliver: Transport) {
    Faithful(deliver.local) && Faithful(deliver.remote)
  }

  predicate Dated(s: State, time: int) {
    IsDir(s) && s.entry.mtime == Some(time)
  }

  // The times that the cycle leaves on directories are new there.
  ghost predicate NewTimes(w: World, deliver: Transport) {
    forall p ::
      && !Dated(At(w.local, p), deliver.local.time(p)) && !Dated(At(w.remote, p), deliver.remote.time(p))
      && (p in w.conflicts ==> !Dated(w.conflicts[p].local, deliver.local.time(p))
                               && !Dated(w.conflicts[p].remote, deliver.remote.time(p)))
  }

  // Full observations and no placeholders.
  ghost predicate Sound(w: World) {
    forall p ::
      && Hashed(At(w.base, p)) && Hashed(At(w.local, p)) && Hashed(At(w.remote, p))
      && Plain(At(w.base, p)) && Plain(At(w.local, p)) && Plain(At(w.remote, p))
  }

  // Outside the given paths, equal size, time and mode as the base mean equal content.
  ghost predicate QuickMeansEqual(w: World, ignored: Path -> bool, hashed: set<Path>) {
    forall p | p !in hashed && !ignored(p) ::
      && (QuickEqual(At(w.local, p), At(w.base, p)) ==> ContentEqual(At(w.local, p), At(w.base, p)))
      && (QuickEqual(At(w.remote, p), At(w.base, p)) ==> ContentEqual(At(w.remote, p), At(w.base, p)))
  }

  // The two replicas and the base hold the same thing at a path.
  predicate Agreed(w: World, p: Path) {
    ContentEqual(At(w.local, p), At(w.remote, p)) && ContentEqual(At(w.base, p), At(w.local, p))
  }

  predicate SpecialAt(w: World, p: Path) {
    IsSpecial(At(w.base, p)) || IsSpecial(At(w.local, p)) || IsSpecial(At(w.remote, p))
  }

  // ---------------------------------------------------------------- the effect of a cycle

  // The decisions of a cycle and the directory deletions it put off.
  datatype Plan = Plan(decisions: map<Path, Decision>, deferred: set<Path>) {
    predicate Does(p: Path, kind: ActionKind) {
      p in decisions && p !in deferred && decisions[p].Act? && decisions[p].action == kind
    }

    function Doing(kind: ActionKind): set<Path> {
      set p | p in decisions && Does(p, kind)
    }

    // The deletions of symbolic links that the remote side leaves undone.
    function Undone(): set<Path> {
      set p | p in decisions && Does(p, DeleteRemote) && IsLink(decisions[p].remote)
    }

    // What goes from the remote side.
    function GoneRemote(): set<Path> {
      Doing(DeleteRemote) - Undone()
    }

    // Every path the cycle brings to completion.
    function Completed(): set<Path> {
      set p | p in decisions && p !in deferred && decisions[p].Act? && p !in Undone()
    }

    function InConflict(): set<Path> {
      set p | p in decisions && decisions[p].Conflict?
    }
  }

  // What a plan is based on: the dirty paths, what is ignored, and what was seen of each side.
  datatype Basis = Basis(dirty: set<Path>, ignored: Path -> bool, seenLocal: Tree, seenRemote: Tree)

  // The decisions follow from what was seen of the dirty paths that are not ignored.
  ghost predicate DecidesFrom(plan: Plan, w: World, basis: Basis) {
    && plan.decisions.Keys == (set p | p in basis.dirty && !basis.ignored(p))
    && forall p | p in plan.decisions ::
         && SeenAs(At(basis.seenLocal, p), At(w.local, p)) && SeenAs(At(basis.seenRemote, p), At(w.remote, p))
         && TrustIsSound(At(basis.seenLocal, p), At(w.local, p), At(w.base, p))
         && TrustIsSound(At(basis.seenRemote, p), At(w.remote, p), At(w.base, p))
         && plan.decisions[p]
            == LazyDecision(At(w.base, p), At(basis.seenLocal, p), At(basis.seenRemote, p), At(w.local, p), At(w.remote, p))
  }

  predicate DeletesDirectory(d: Decision) {
    d.Act? && ((d.action.DeleteLocal? && IsDir(d.local)) || (d.action.DeleteRemote? && IsDir(d.remote)))
  }

  // A directory is not deleted while there is a conflict, new or open, at or below it.
  ghost predicate Defers(plan: Plan, w: World) {
    forall p :: p in plan.deferred <==>
      && p in plan.decisions && DeletesDirectory(plan.decisions[p])
      && exists c :: (c in plan.InConflict() || c in w.conflicts) && Within(c, p)
  }

  // Items installed from one replica onto the other.
  ghost predicate Installed(before: Tree, after: Tree, source: Tree, items: set<Path>, deliver: Delivery) {
    forall p :: At(after, p) == InstalledAt(before, source, items, deliver, p)
  }

  ghost function InstalledAt(before: Tree, source: Tree, items: set<Path>, deliver: Delivery, p: Path): State {
    if p in items then deliver.copy(p, At(source, p)) else HeldAt(before, items, {}, deliver.time, p)
  }

  function BaseAfter(plan: Plan, w: World, local: Tree, remote: Tree, p: Path): State {
    if p !in plan.Completed() then At(w.base, p)
    else match plan.decisions[p].action
      case Push => At(remote, p)
      case Pull => At(local, p)
      case _ => plan.decisions[p].baseAfter
  }

  function RecordOf(plan: Plan, w: World, p: Path): Record
    requires p in plan.InConflict()
  {
    Record(plan.decisions[p].reason, At(w.local, p), At(w.remote, p))
  }

  // A conflict is recorded only if both sides are still as planned when they are captured.  The
  // cycle itself can get in the way: it creates directories above what it installs, and changes the
  // time of the directories it works in.
  predicate Captured(plan: Plan, w: World, local: Tree, remote: Tree, p: Path) {
    p in plan.InConflict() && At(local, p) == At(w.local, p) && At(remote, p) == At(w.remote, p)
  }

  function Changed(plan: Plan, w: World, local: Tree, remote: Tree): set<Path> {
    set p | p in plan.InConflict() && !Captured(plan, w, local, remote, p)
  }

  function ConflictsAfter(plan: Plan, w: World, local: Tree, remote: Tree): map<Path, Record> {
    map p | p in w.conflicts.Keys + plan.InConflict() && p !in plan.Completed()
            && (p in w.conflicts || Captured(plan, w, local, remote, p)) ::
      if Captured(plan, w, local, remote, p) then RecordOf(plan, w, p) else w.conflicts[p]
  }

  function RequeuedAfter(plan: Plan, w: World, local: Tree, remote: Tree): set<Path> {
    plan.deferred + plan.Undone() + Changed(plan, w, local, remote)
  }

  // A cycle that planned `plan` in `w` and committed in `v`.
  ghost predicate Commits(w: World, v: World, plan: Plan, deliver: Transport) {
    exists pushed: Tree, pulled: Tree ::
      && Installed(w.remote, pushed, w.local, plan.Doing(Push), deliver.remote)
      && Installed(w.local, pulled, w.remote, plan.Doing(Pull), deliver.local)
      && CommitsFrom(w, v, plan, deliver, pulled, pushed)
  }

  ghost predicate CommitsFrom(w: World, v: World, plan: Plan, deliver: Transport, pulled: Tree, pushed: Tree) {
    && ClosedDownwards(pulled, plan.Doing(DeleteLocal))
    && ClosedDownwards(pushed, plan.GoneRemote())
    && (forall p :: At(v.local, p) == DeletedAt(pulled, plan.Doing(DeleteLocal), {}, deliver.local.time, p))
    && (forall p :: At(v.remote, p) == DeletedAt(pushed, plan.Doing(DeleteRemote), plan.Undone(), deliver.remote.time, p))
    && (forall p :: At(v.base, p) == BaseAfter(plan, w, v.local, v.remote, p))
    && v.conflicts == ConflictsAfter(plan, w, v.local, v.remote)
    && v.requeued == RequeuedAfter(plan, w, v.local, v.remote)
  }

  // ---------------------------------------------------------------- what a decision settles

  // What a lazily hashed decision says about what is there.
  ghost predicate Means(d: Decision, base: State, local: State, remote: State) {
    && !d.NeedHash? && (d.Warning? <==> IsSpecial(base) || IsSpecial(local) || IsSpecial(remote))
    && (d == NoChange ==> ContentEqual(local, remote) && ContentEqual(base, local))
    && (ContentEqual(local, remote) && ContentEqual(base, local) ==> d == NoChange || (d.Act? && d.action.UpdateBase?))
    && (d.Act? ==> match d.action
        case UpdateBase =>
          ContentEqual(local, remote) && ContentEqual(d.baseAfter, local) && Hashed(d.baseAfter) && Plain(d.baseAfter)
        case Push => local.Present? && !IsSpecial(local) && !ContentEqual(local, remote) && !ContentEqual(local, base)
                     && (remote.Present? ==> local.entry.kind == remote.entry.kind)
        case Pull => remote.Present? && !IsSpecial(remote) && !ContentEqual(local, remote) && !ContentEqual(remote, base)
                     && (local.Present? ==> local.entry.kind == remote.entry.kind)
        case DeleteLocal => remote.Missing? && local.Present? && d.baseAfter.Missing? && IsDir(d.local) == IsDir(local)
                            && ContentEqual(local, base)
        case DeleteRemote => local.Missing? && remote.Present? && d.baseAfter.Missing? && IsDir(d.remote) == IsDir(remote)
                             && IsLink(d.remote) == IsLink(remote) && ContentEqual(remote, base))
    && (d.Conflict? ==> !ContentEqual(local, remote)
                        && Decide(base, local, remote) == Conflict(d.reason, local, remote))
  }

  lemma DecisionMeaning(base: State, local: State, remote: State, seenLocal: State, seenRemote: State)
    requires Hashed(base) && Hashed(local) && Hashed(remote)
    requires Plain(base) && Plain(local) && Plain(remote)
    requires SeenAs(seenLocal, local) && SeenAs(seenRemote, remote)
    requires TrustIsSound(seenLocal, local, base) && TrustIsSound(seenRemote, remote, base)
    ensures Means(LazyDecision(base, seenLocal, seenRemote, local, remote), base, local, remote)
  {
    LazyRefinesEager(base, seenLocal, seenRemote, local, remote);
  }

  // ---------------------------------------------------------------- every path is settled

  // The setting of a cycle: sound observations, tree-shaped replicas, decisions and deferrals made
  // from what was seen.
  ghost predicate Planned(w: World, plan: Plan, basis: Basis) {
    && Sound(w) && Closed(w.local) && Closed(w.remote)
    && DecidesFrom(plan, w, basis) && Defers(plan, w)
  }

  lemma Meaning(w: World, plan: Plan, basis: Basis, p: Path)
    requires Planned(w, plan, basis) && p in plan.decisions
    ensures Means(plan.decisions[p], At(w.base, p), At(w.local, p), At(w.remote, p))
  {
    DecisionMeaning(At(w.base, p), At(w.local, p), At(w.remote, p), At(basis.seenLocal, p), At(basis.seenRemote, p));
  }

  // A directory created above a transferred path has a directory as its counterpart.
  lemma CreatedAbove(source: Tree, items: set<Path>, p: Path)
    requires Closed(source) && (forall q | q in items :: At(source, q).Present?)
    requires exists q :: q in items && Above(p, q)
    ensures IsDir(At(source, p))
  {
  }

  lemma TransferSources(w: World, plan: Plan, basis: Basis)
    requires Planned(w, plan, basis)
    ensures forall q | q in plan.Doing(Push) :: At(w.local, q).Present?
    ensures forall q | q in plan.Doing(Pull) :: At(w.remote, q).Present?
  {
    forall q | q in plan.decisions { Meaning(w, plan, basis, q); }
  }

  // Where a cycle leaves one path.
  ghost predicate Settled(w: World, v: World, p: Path) {
    Agreed(v, p) || p in v.conflicts || p in v.requeued || SpecialAt(w, p)
  }

  // What is installed on a replica and then deleted from it leaves the other paths as they are held.
  lemma HeldByBatches(before: Tree, between: Tree, after: Tree, source: Tree, installed: set<Path>, deleted: set<Path>,
                      undone: set<Path>, deliver: Delivery, p: Path)
    requires Installed(before, between, source, installed, deliver)
    requires At(after, p) == DeletedAt(between, deleted, undone, deliver.time, p)
    requires p !in installed && (p in deleted ==> p in undone)
    ensures At(after, p) == HeldAt(before, installed, deleted, deliver.time, p)
  {
    assert At(between, p) == InstalledAt(before, source, installed, deliver, p);
  }

  // Neither installed nor deleted: the same entry up to the time of a directory, or a directory that
  // was created where the other side has one.
  predicate Lasts(before: State, after: State, other: State) {
    if before.Missing? then after.Missing? || (IsDir(after) && IsDir(other)) else Alike(after, before)
  }

  lemma HeldLasts(before: Tree, source: Tree, installed: set<Path>, deleted: set<Path>, time: Path -> int, p: Path)
    requires Closed(source) && forall q | q in installed :: At(source, q).Present?
    ensures Lasts(At(before, p), HeldAt(before, installed, deleted, time, p), At(source, p))
  {
    HeldIsAlike(before, installed, deleted, time, p);
    if exists q :: q in installed && Above(p, q) { CreatedAbove(source, installed, p); }
  }

  lemma UntouchedStays(w: World, v: World, plan: Plan, basis: Basis, deliver: Transport, pulled: Tree, pushed: Tree, p: Path)
    requires Planned(w, plan, basis)
    requires Installed(w.remote, pushed, w.local, plan.Doing(Push), deliver.remote)
    requires Installed(w.local, pulled, w.remote, plan.Doing(Pull), deliver.local)
    requires CommitsFrom(w, v, plan, deliver, pulled, pushed)
    ensures p !in plan.Doing(Pull) + plan.Doing(DeleteLocal) ==>
              At(v.local, p) == HeldAt(w.local, plan.Doing(Pull), plan.Doing(DeleteLocal), deliver.local.time, p)
              && Lasts(At(w.local, p), At(v.local, p), At(w.remote, p))
    ensures p !in plan.Doing(Push) + plan.GoneRemote() ==>
              At(v.remote, p) == HeldAt(w.remote, plan.Doing(Push), plan.Doing(DeleteRemote), deliver.remote.time, p)
              && Lasts(At(w.remote, p), At(v.remote, p), At(w.local, p))
  {
    TransferSources(w, plan, basis);
    if p !in plan.Doing(Pull) + plan.Doing(DeleteLocal) {
      HeldByBatches(w.local, pulled, v.local, w.remote, plan.Doing(Pull), plan.Doing(DeleteLocal), {}, deliver.local, p);
      HeldLasts(w.local, w.remote, plan.Doing(Pull), plan.Doing(DeleteLocal), deliver.local.time, p);
    }
    if p !in plan.Doing(Push) + plan.GoneRemote() {
      HeldByBatches(w.remote, pushed, v.remote, w.local, plan.Doing(Push), plan.Doing(DeleteRemote), plan.Undone(),
                    deliver.remote, p);
      HeldLasts(w.remote, w.local, plan.Doing(Push), plan.Doing(DeleteRemote), deliver.remote.time, p);
    }
  }

  // A committed deletion leaves no counterpart behind: nothing was transferred to below it.
  lemma LocalDeleteStaysGone(w: World, v: World, plan: Plan, basis: Basis, deliver: Transport,
                             pulled: Tree, pushed: Tree, p: Path)
    requires Planned(w, plan, basis) && p in plan.Doing(DeleteLocal)
    requires Installed(w.remote, pushed, w.local, plan.Doing(Push), deliver.remote)
    requires Installed(w.local, pulled, w.remote, plan.Doing(Pull), deliver.local)
    requires CommitsFrom(w, v, plan, deliver, pulled, pushed)
    ensures At(v.local, p).Missing? && At(v.remote, p).Missing?
  {
    TransferSources(w, plan, basis);
    Meaning(w, plan, basis, p);
    NothingSentFromBelow(w.local, pulled, w.remote, plan.Doing(Pull), deliver.local, plan.Doing(DeleteLocal), plan.Doing(Push), p);
    assert At(pushed, p) == InstalledAt(w.remote, w.local, plan.Doing(Push), deliver.remote, p);
  }

  lemma RemoteDeleteStaysGone(w: World, v: World, plan: Plan, basis: Basis, deliver: Transport,
                              pulled: Tree, pushed: Tree, p: Path)
    requires Planned(w, plan, basis) && p in plan.GoneRemote()
    requires Installed(w.remote, pushed, w.local, plan.Doing(Push), deliver.remote)
    requires Installed(w.local, pulled, w.remote, plan.Doing(Pull), deliver.local)
    requires CommitsFrom(w, v, plan, deliver, pulled, pushed)
    ensures At(v.local, p).Missing? && At(v.remote, p).Missing?
  {
    TransferSources(w, plan, basis);
    Meaning(w, plan, basis, p);
    NothingSentFromBelow(w.remote, pushed, w.local, plan.Doing(Push), deliver.remote, plan.GoneRemote(), plan.Doing(Pull), p);
    assert At(pulled, p) == InstalledAt(w.local, w.remote, plan.Doing(Pull), deliver.local, p);
  }

  // Nothing below a deleted directory was a source of a transfer: it would still be there.
  lemma NothingSentFromBelow(before: Tree, after: Tree, other: Tree, received: set<Path>, deliver: Delivery,
                             deleted: set<Path>, sent: set<Path>, p: Path)
    requires Installed(before, after, other, received, deliver) && ClosedDownwards(after, deleted) && p in deleted
    requires sent !! received && sent !! deleted && forall q | q in sent :: At(before, q).Present?
    ensures forall q | q in sent :: !Above(p, q)
  {
    forall q | q in sent
      ensures !Above(p, q)
    {
      HeldIsAlike(before, received, {}, deliver.time, q);
      assert At(after, q) == InstalledAt(before, other, received, deliver, q);
    }
  }

  lemma ConflictIsHeld(w: World, v: World, plan: Plan, deliver: Transport, p: Path)
    requires Commits(w, v, plan, deliver) && p in plan.InConflict()
    ensures Captured(plan, w, v.local, v.remote, p) ==> p in v.conflicts && v.conflicts[p] == RecordOf(plan, w, p)
    ensures !Captured(plan, w, v.local, v.remote, p) ==> p in v.requeued
  {
  }

  // A transferred path agrees afterwards: the destination holds the source's content, and the base
  // is what was read back from the destination.
  lemma TransferredAgrees(w: World, v: World, plan: Plan, basis: Basis, deliver: Transport, pulled: Tree, pushed: Tree, p: Path)
    requires Planned(w, plan, basis) && Reliable(deliver)
    requires Installed(w.remote, pushed, w.local, plan.Doing(Push), deliver.remote)
    requires Installed(w.local, pulled, w.remote, plan.Doing(Pull), deliver.local)
    requires CommitsFrom(w, v, plan, deliver, pulled, pushed)
    requires p in plan.Doing(Push) || p in plan.Doing(Pull)
    ensures Agreed(v, p)
  {
    Meaning(w, plan, basis, p);
    UntouchedStays(w, v, plan, basis, deliver, pulled, pushed, p);
    if p in plan.Doing(Push) {
      assert At(pushed, p) == InstalledAt(w.remote, w.local, plan.Doing(Push), deliver.remote, p);
      ArrivedAgrees(deliver.remote, p, At(w.local, p), pushed, plan.Doing(DeleteRemote), plan.Undone());
      AlikeSaysTheSame(At(v.local, p), At(w.local, p), At(v.remote, p));
    } else {
      assert At(pulled, p) == InstalledAt(w.local, w.remote, plan.Doing(Pull), deliver.local, p);
      ArrivedAgrees(deliver.local, p, At(w.remote, p), pulled, plan.Doing(DeleteLocal), {});
      AlikeSaysTheSame(At(v.remote, p), At(w.remote, p), At(v.local, p));
    }
  }

  lemma UpdatedAgrees(w: World, v: World, plan: Plan, basis: Basis, deliver: Transport, pulled: Tree, pushed: Tree, p: Path)
    requires Planned(w, plan, basis)
    requires Installed(w.remote, pushed, w.local, plan.Doing(Push), deliver.remote)
    requires Installed(w.local, pulled, w.remote, plan.Doing(Pull), deliver.local)
    requires CommitsFrom(w, v, plan, deliver, pulled, pushed)
    requires p in plan.Doing(UpdateBase)
    ensures Agreed(v, p)
  {
    hide Planned, Installed;
    Meaning(w, plan, basis, p);
    UntouchedStays(w, v, plan, basis, deliver, pulled, pushed, p);
    LastingAgrees(At(w.local, p), At(w.remote, p), At(v.local, p), At(v.remote, p), plan.decisions[p].baseAfter);
  }

  // Equal content that lasts on both sides stays equal, also to a third entry.
  lemma LastingAgrees(local: State, remote: State, localAfter: State, remoteAfter: State, base: State)
    requires ContentEqual(local, remote) && ContentEqual(base, local)
    requires Lasts(local, localAfter, remote) && Lasts(remote, remoteAfter, local)
    ensures ContentEqual(localAfter, remoteAfter) && ContentEqual(base, localAfter)
    ensures local.Present? ==> Alike(localAfter, local) && Alike(remoteAfter, remote)
    ensures local.Missing? ==> localAfter.Missing? && remoteAfter.Missing? && remote.Missing?
  {
    if local.Present? {
      AlikeSaysTheSame(localAfter, local, base);
      AlikeSaysTheSame(localAfter, local, remote);
      AlikeSaysTheSame(remoteAfter, remote, localAfter);
    }
  }

  // Whatever a cycle completes, it leaves in agreement.
  lemma CompletedAgrees(w: World, v: World, plan: Plan, basis: Basis, deliver: Transport, p: Path)
    requires Planned(w, plan, basis) && Reliable(deliver)
    requires Commits(w, v, plan, deliver) && p in plan.Completed()
    ensures Agreed(v, p)
  {
    var pushed, pulled :| Installed(w.remote, pushed, w.local, plan.Doing(Push), deliver.remote)
                          && Installed(w.local, pulled, w.remote, plan.Doing(Pull), deliver.local)
                          && CommitsFrom(w, v, plan, deliver, pulled, pushed);
    var action := plan.decisions[p].action;
    assert p in plan.Doing(action);
    if action.Push? || action.Pull? {
      TransferredAgrees(w, v, plan, basis, deliver, pulled, pushed, p);
    } else if action.UpdateBase? {
      UpdatedAgrees(w, v, plan, basis, deliver, pulled, pushed, p);
    } else {
      DeletedBase(w, plan, basis, p);
      if action.DeleteLocal? {
        LocalDeleteStaysGone(w, v, plan, basis, deliver, pulled, pushed, p);
      } else {
        RemoteDeleteStaysGone(w, v, plan, basis, deliver, pulled, pushed, p);
      }
    }
  }

  lemma DeletedBase(w: World, plan: Plan, basis: Basis, p: Path)
    requires Planned(w, plan, basis) && p in plan.Doing(DeleteLocal) + plan.Doing(DeleteRemote)
    ensures plan.decisions[p].baseAfter.Missing?
  {
    Meaning(w, plan, basis, p);
  }

  // What arrived still has the content of its source when the cycle ends.
  lemma ArrivedAgrees(deliver: Delivery, p: Path, s: State, arrived: Tree, deleted: set<Path>, undone: set<Path>)
    requires Faithful(deliver) && s.Present? && Hashed(s) && !IsSpecial(s)
    requires At(arrived, p) == deliver.copy(p, s) && p !in deleted
    ensures var copy := DeletedAt(arrived, deleted, undone, deliver.time, p);
            ContentEqual(s, copy) && ContentEqual(copy, s) && ContentEqual(copy, copy)
  {
    var copy := deliver.copy(p, s);
    assert ContentEqual(copy, s);
    HeldIsAlike(arrived, {}, deleted, deliver.time, p);
    AlikeSaysTheSame(DeletedAt(arrived, deleted, undone, deliver.time, p), copy, s);
  }

  lemma DirtyPathSettles(w: World, v: World, plan: Plan, basis: Basis, deliver: Transport, p: Path)
    requires Planned(w, plan, basis) && Reliable(deliver)
    requires Commits(w, v, plan, deliver) && p in plan.decisions
    ensures Settled(w, v, p)
  {
    var d := plan.decisions[p];
    Meaning(w, plan, basis, p);
    if d.Conflict? {
      ConflictIsHeld(w, v, plan, deliver, p);
    } else if d == NoChange {
      CleanPathStays(w, v, plan, basis, deliver, p);
    } else if p in plan.Completed() {
      CompletedAgrees(w, v, plan, basis, deliver, p);
    }
  }

  lemma CleanPathStays(w: World, v: World, plan: Plan, basis: Basis, deliver: Transport, p: Path)
    requires Planned(w, plan, basis) && Commits(w, v, plan, deliver)
    requires p !in plan.Completed() && Agreed(w, p)
    ensures Agreed(v, p) && Alike(At(v.local, p), At(w.local, p)) && Alike(At(v.remote, p), At(w.remote, p))
  {
    hide Planned, Installed;
    var pushed, pulled :| Installed(w.remote, pushed, w.local, plan.Doing(Push), deliver.remote)
                          && Installed(w.local, pulled, w.remote, plan.Doing(Pull), deliver.local)
                          && CommitsFrom(w, v, plan, deliver, pulled, pushed);
    UntouchedStays(w, v, plan, basis, deliver, pulled, pushed, p);
    LastingAgrees(At(w.local, p), At(w.remote, p), At(v.local, p), At(v.remote, p), At(w.base, p));
  }

  // When every path that is not in agreement and not special is dirty, one undisturbed committed cycle leaves every
  // path that is not ignored agreed on both sides and in the base, or held as an open conflict, or
  // requeued, or warned about as special.
  lemma CycleSettlesEverything(w: World, v: World, plan: Plan, basis: Basis, deliver: Transport)
    requires Planned(w, plan, basis) && Reliable(deliver)
    requires Commits(w, v, plan, deliver)
    requires forall p | !basis.ignored(p) && p !in basis.dirty :: Agreed(w, p) || SpecialAt(w, p)
    ensures forall p | !basis.ignored(p) :: Settled(w, v, p)
  {
    forall p | !basis.ignored(p)
      ensures Settled(w, v, p)
    {
      if p in basis.dirty {
        DirtyPathSettles(w, v, plan, basis, deliver, p);
      } else if Agreed(w, p) {
        CleanPathStays(w, v, plan, basis, deliver, p);
      }
    }
  }

  // What a committed cycle accounts for.  Every dirty path is ignored, completed, held in conflict,
  // special, unchanged on both sides, or requeued; a requeued path is dropped from the table only
  // when it is settled; no directory with a conflict at or below it is deleted; and a deletion that
  // the remote side leaves undone changes neither side nor the base, and stays requeued.  Nothing else
  // is requeued but deletions put off and conflicts whose sides the cycle changed, and no conflict is
  // opened or closed without need.
  lemma CycleAccounting(w: World, v: World, plan: Plan, basis: Basis, deliver: Transport)
    requires Planned(w, plan, basis) && Reliable(deliver)
    requires Commits(w, v, plan, deliver) && w.requeued <= basis.dirty
    ensures forall p | p in basis.dirty :: Accounted(w, v, plan, basis.ignored, p)
    ensures forall p | p in w.requeued && p !in v.requeued && !basis.ignored(p) ::
              Agreed(v, p) || p in v.conflicts || SpecialAt(w, p)
    ensures forall p, c | p in plan.Doing(DeleteLocal) && IsDir(At(w.local, p)) && Within(c, p) :: c !in v.conflicts
    ensures forall p, c | p in plan.Doing(DeleteRemote) && IsDir(At(w.remote, p)) && Within(c, p) :: c !in v.conflicts
    ensures forall p | p in plan.Undone() ::
              p in v.requeued && At(v.local, p).Missing? && At(v.remote, p) == At(w.remote, p) && At(v.base, p) == At(w.base, p)
    ensures Tables(w, v, plan)
  {
    TablesAre(w, v, plan, deliver);
    hide Planned, Commits, Reliable, Settled, Tables;
    forall p | p in basis.dirty
      ensures Accounted(w, v, plan, basis.ignored, p)
    {
      if p in plan.decisions { PathIsAccounted(w, v, plan, basis, deliver, p); }
      DecidedUnlessIgnored(w, plan, basis, p);
    }
    DeletesKeepConflicts(w, v, plan, basis, deliver);
    forall p | p in plan.Undone()
      ensures p in v.requeued && At(v.local, p).Missing? && At(v.remote, p) == At(w.remote, p) && At(v.base, p) == At(w.base, p)
    {
      UndoneIsHeld(w, v, plan, basis, deliver, p);
    }
  }

  // What a commit leaves in the tables of requeued paths and of open conflicts.
  ghost predicate Tables(w: World, v: World, plan: Plan) {
    && (forall p :: p in v.requeued <==>
          || p in plan.deferred
          || (p in plan.Doing(DeleteRemote) && IsLink(plan.decisions[p].remote))
          || (p in plan.decisions && plan.decisions[p].Conflict?
              && (At(v.local, p) != At(w.local, p) || At(v.remote, p) != At(w.remote, p))))
    && (forall p | p in plan.Completed() :: p !in v.requeued && p !in v.conflicts)
    && (forall p | p in w.conflicts && p !in plan.Completed() && p !in plan.InConflict() ::
          p in v.conflicts && v.conflicts[p] == w.conflicts[p])
    && (forall p | p in v.conflicts && p !in w.conflicts :: p in plan.InConflict())
  }

  lemma TablesAre(w: World, v: World, plan: Plan, deliver: Transport)
    requires Commits(w, v, plan, deliver) && plan.deferred <= plan.decisions.Keys
    requires forall p | p in plan.deferred :: plan.decisions[p].Act?
    ensures Tables(w, v, plan)
  {
  }

  // What becomes of a dirty path.
  ghost predicate Accounted(w: World, v: World, plan: Plan, ignored: Path -> bool, p: Path) {
    || ignored(p) || p in v.requeued || SpecialAt(w, p)
    || (p in plan.Completed() && Agreed(v, p))
    || (p in plan.InConflict() && p in v.conflicts && v.conflicts[p] == RecordOf(plan, w, p))
    || (Agreed(w, p) && Agreed(v, p) && At(v.base, p) == At(w.base, p))
  }

  lemma DecidedUnlessIgnored(w: World, plan: Plan, basis: Basis, p: Path)
    requires Planned(w, plan, basis)
    ensures p in plan.decisions <==> p in basis.dirty && !basis.ignored(p)
  {
  }

  lemma PathIsAccounted(w: World, v: World, plan: Plan, basis: Basis, deliver: Transport, p: Path)
    requires Planned(w, plan, basis) && Reliable(deliver)
    requires Commits(w, v, plan, deliver) && p in plan.decisions
    ensures Accounted(w, v, plan, basis.ignored, p)
  {
    Meaning(w, plan, basis, p);
    if p in plan.Completed() {
      CompletedAgrees(w, v, plan, basis, deliver, p);
    } else if plan.decisions[p] == NoChange {
      CleanPathStays(w, v, plan, basis, deliver, p);
    } else if p in plan.InConflict() {
      ConflictIsHeld(w, v, plan, deliver, p);
    } else if plan.decisions[p].Act? {
      DeferredIsRequeued(w, v, plan, deliver, p);
    }
  }

  lemma DeferredIsRequeued(w: World, v: World, plan: Plan, deliver: Transport, p: Path)
    requires Commits(w, v, plan, deliver)
    ensures p in plan.deferred + plan.Undone() ==> p in v.requeued
  {
  }

  // The link is still there, and nothing has come up on the local side.
  lemma UndoneIsHeld(w: World, v: World, plan: Plan, basis: Basis, deliver: Transport, p: Path)
    requires Planned(w, plan, basis) && Commits(w, v, plan, deliver)
    requires p in plan.Undone()
    ensures p in v.requeued && p !in plan.Completed()
    ensures IsLink(At(w.remote, p)) && At(w.local, p).Missing? && ContentEqual(At(w.remote, p), At(w.base, p))
    ensures At(v.local, p).Missing? && At(v.remote, p) == At(w.remote, p) && At(v.base, p) == At(w.base, p)
  {
    hide Planned;
    Meaning(w, plan, basis, p);
    HeldPathStays(w, v, plan, basis, deliver, p);
  }

  lemma DeletesKeepConflicts(w: World, v: World, plan: Plan, basis: Basis, deliver: Transport)
    requires Planned(w, plan, basis) && Commits(w, v, plan, deliver)
    ensures forall p, c | p in plan.Doing(DeleteLocal) && IsDir(At(w.local, p)) && Within(c, p) :: c !in v.conflicts
    ensures forall p, c | p in plan.Doing(DeleteRemote) && IsDir(At(w.remote, p)) && Within(c, p) :: c !in v.conflicts
  {
    forall p, c | ((p in plan.Doing(DeleteLocal) && IsDir(At(w.local, p))) || (p in plan.Doing(DeleteRemote) && IsDir(At(w.remote, p))))
                  && Within(c, p)
      ensures c !in v.conflicts
    {
      Meaning(w, plan, basis, p);
      assert DeletesDirectory(plan.decisions[p]) && p !in plan.deferred;
      assert !(c in plan.InConflict() || c in w.conflicts);
    }
  }

  // ---------------------------------------------------------------- what a cycle holds

  // A path that is not completed keeps its base entry, and on each side is left exactly as it is
  // held: at most a directory appears, or the time of a directory changes.
  lemma HeldPathStays(w: World, v: World, plan: Plan, basis: Basis, deliver: Transport, p: Path)
    requires Planned(w, plan, basis) && Commits(w, v, plan, deliver)
    requires p !in plan.Completed()
    ensures At(v.base, p) == At(w.base, p)
    ensures At(v.local, p) == HeldAt(w.local, plan.Doing(Pull), plan.Doing(DeleteLocal), deliver.local.time, p)
    ensures At(v.remote, p) == HeldAt(w.remote, plan.Doing(Push), plan.Doing(DeleteRemote), deliver.remote.time, p)
    ensures Lasts(At(w.local, p), At(v.local, p), At(w.remote, p)) && Lasts(At(w.remote, p), At(v.remote, p), At(w.local, p))
  {
    hide Planned, Installed;
    var pushed, pulled :| Installed(w.remote, pushed, w.local, plan.Doing(Push), deliver.remote)
                          && Installed(w.local, pulled, w.remote, plan.Doing(Pull), deliver.local)
                          && CommitsFrom(w, v, plan, deliver, pulled, pushed);
    UntouchedStays(w, v, plan, basis, deliver, pulled, pushed, p);
  }

  // With new times, what is disturbed is no longer what it was.
  lemma DisturbedDiffers(tree: Tree, installed: set<Path>, deleted: set<Path>, time: Path -> int, p: Path)
    requires !Dated(At(tree, p), time(p))
    ensures HeldAt(tree, installed, deleted, time, p) != At(tree, p) <==> Disturbed(tree, installed, deleted, p)
    ensures Disturbed(tree, installed, deleted, p) ==> Dated(HeldAt(tree, installed, deleted, time, p), time(p))
  {
  }

  // Exactly when the capture of a conflict fails in an undisturbed cycle: the cycle itself created a
  // directory there, or created, replaced or deleted something directly in a directory there.
  lemma CaptureFailure(w: World, v: World, plan: Plan, basis: Basis, deliver: Transport, p: Path)
    requires Planned(w, plan, basis) && Commits(w, v, plan, deliver)
    requires NewTimes(w, deliver) && p in plan.InConflict()
    ensures var fails := Disturbed(w.local, plan.Doing(Pull), plan.Doing(DeleteLocal), p)
                         || Disturbed(w.remote, plan.Doing(Push), plan.Doing(DeleteRemote), p);
            && (p in Changed(plan, w, v.local, v.remote) <==> fails)
            && (fails ==> p in v.requeued && (p in v.conflicts <==> p in w.conflicts)
                          && (p in v.conflicts ==> v.conflicts[p] == w.conflicts[p]))
            && (!fails ==> p in v.conflicts && v.conflicts[p] == RecordOf(plan, w, p))
  {
    hide Planned;
    HeldPathStays(w, v, plan, basis, deliver, p);
    DisturbedDiffers(w.local, plan.Doing(Pull), plan.Doing(DeleteLocal), deliver.local.time, p);
    DisturbedDiffers(w.remote, plan.Doing(Push), plan.Doing(DeleteRemote), deliver.remote.time, p);
    ConflictIsHeld(w, v, plan, deliver, p);
  }

  // ---------------------------------------------------------------- the second cycle

  // What the first cycle put off.
  predicate PutOff(plan: Plan, p: Path, kind: ActionKind) {
    p in plan.deferred && p in plan.decisions && plan.decisions[p].Act? && plan.decisions[p].action == kind
  }

  predicate Wants(plan: Plan, p: Path, kind: ActionKind) {
    p in plan.decisions && plan.decisions[p].Act? && plan.decisions[p].action == kind
  }

  // A conflict that is not on record as it is.
  predicate IsNew(plan: Plan, v: World, p: Path) {
    p in plan.InConflict() && !(p in v.conflicts && v.conflicts[p] == RecordOf(plan, v, p))
  }

  // The capture failed, and the sides still differ.
  predicate StillDiverges(w: World, v: World, first: Plan, p: Path) {
    p in Changed(first, w, v.local, v.remote) && !ContentEqual(At(v.local, p), At(v.remote, p))
  }

  // Something at or below the path is an open conflict or will be one.
  ghost predicate ConflictWithin(w: World, v: World, first: Plan, p: Path) {
    exists c :: (c in v.conflicts || StillDiverges(w, v, first, c)) && Within(c, p)
  }

  // What the second cycle decides about a path after the first one.
  ghost predicate Repeats(w: World, v: World, first: Plan, second: Plan, p: Path) {
    && !Wants(second, p, Push) && !Wants(second, p, Pull)
    && (IsNew(second, v, p) <==> StillDiverges(w, v, first, p))
    && (Wants(second, p, DeleteLocal) <==> PutOff(first, p, DeleteLocal) && At(v.remote, p).Missing?)
    && (Wants(second, p, DeleteRemote) <==> (PutOff(first, p, DeleteRemote) && At(v.local, p).Missing?) || p in first.Undone())
    && (p in first.Undone() && p in second.decisions && second.decisions[p].Act? ==> IsLink(second.decisions[p].remote))
  }

  // Two cycles in a row with nobody writing in between.  The first one covers every path that is
  // neither in agreement nor special and, as every cycle does, every open conflict; the second one
  // covers what the first one requeued.
  ghost predicate TwoCycles(w: World, v: World, first: Plan, second: Plan, basis1: Basis, basis2: Basis, deliver: Transport) {
    && Planned(w, first, basis1)
    && Commits(w, v, first, deliver) && Reliable(deliver) && NewTimes(w, deliver)
    && (forall p | !basis1.ignored(p) && p !in basis1.dirty :: (Agreed(w, p) || SpecialAt(w, p)) && p !in w.conflicts)
    && Planned(v, second, basis2) && v.requeued <= basis2.dirty && basis1.ignored == basis2.ignored
  }

  // An agreed path asks for nothing.
  lemma AgreedRepeats(v: World, second: Plan, basis2: Basis, p: Path)
    requires Planned(v, second, basis2) && p in second.decisions
    requires Agreed(v, p)
    ensures !Wants(second, p, Push) && !Wants(second, p, Pull) && !second.decisions[p].Conflict?
    ensures !Wants(second, p, DeleteLocal) && !Wants(second, p, DeleteRemote)
  {
    Meaning(v, second, basis2, p);
  }

  // Where the content agrees the decision is at most a base update.
  lemma EqualContentRepeats(v: World, second: Plan, basis2: Basis, p: Path)
    requires Planned(v, second, basis2) && p in second.decisions
    requires ContentEqual(At(v.local, p), At(v.remote, p))
    ensures !Wants(second, p, Push) && !Wants(second, p, Pull) && !second.decisions[p].Conflict?
    ensures !Wants(second, p, DeleteLocal) && !Wants(second, p, DeleteRemote)
  {
    Meaning(v, second, basis2, p);
  }

  lemma SpecialRepeats(v: World, second: Plan, basis2: Basis, p: Path)
    requires Planned(v, second, basis2) && p in second.decisions && SpecialAt(v, p)
    ensures second.decisions[p].Warning?
  {
    Meaning(v, second, basis2, p);
  }

  // The time of a directory has no part in a decision about conflicts.
  lemma TimesDoNotMatter(base: State, a: State, b: State, c: State, d: State, reason: Reason)
    requires Alike(a, c) && Alike(b, d) && Plain(base)
    requires Decide(base, a, b) == Conflict(reason, a, b)
    ensures Decide(base, c, d) == Conflict(reason, c, d)
  {
    AlikeSaysTheSame(a, c, base);
    AlikeSaysTheSame(b, d, base);
    AlikeSaysTheSame(a, c, b);
    AlikeSaysTheSame(b, d, c);
  }

  // A decision that full hashes make a conflict is the same conflict when hashing on request.
  lemma SameConflict(v: World, second: Plan, basis2: Basis, p: Path, reason: Reason)
    requires Planned(v, second, basis2) && p in second.decisions
    requires Decide(At(v.base, p), At(v.local, p), At(v.remote, p)) == Conflict(reason, At(v.local, p), At(v.remote, p))
    ensures second.decisions[p].Conflict? && second.decisions[p].reason == reason
  {
    LazyRefinesEager(At(v.base, p), At(basis2.seenLocal, p), At(basis2.seenRemote, p), At(v.local, p), At(v.remote, p));
  }

  // A conflict that was recorded is on record as it is; one whose capture failed is not.
  lemma RecordedOrNew(w: World, v: World, first: Plan, second: Plan, basis1: Basis, deliver: Transport, p: Path)
    requires Planned(w, first, basis1) && Commits(w, v, first, deliver) && NewTimes(w, deliver)
    requires p in first.InConflict() && p in second.InConflict()
    requires second.decisions[p].reason == first.decisions[p].reason
    ensures IsNew(second, v, p) <==> p in Changed(first, w, v.local, v.remote)
  {
    hide Planned, Commits;
    CaptureFailure(w, v, first, basis1, deliver, p);
    HeldPathStays(w, v, first, basis1, deliver, p);
    DisturbedDiffers(w.local, first.Doing(Pull), first.Doing(DeleteLocal), deliver.local.time, p);
    DisturbedDiffers(w.remote, first.Doing(Push), first.Doing(DeleteRemote), deliver.remote.time, p);
  }

  lemma ConflictRepeats(w: World, v: World, first: Plan, second: Plan, basis1: Basis, basis2: Basis, deliver: Transport, p: Path)
    requires TwoCycles(w, v, first, second, basis1, basis2, deliver)
    requires p in second.decisions && p in first.decisions && first.decisions[p].Conflict?
    ensures Repeats(w, v, first, second, p)
  {
    hide Planned, Commits, Reliable, NewTimes, Changed;
    HeldPathStays(w, v, first, basis1, deliver, p);
    if ContentEqual(At(v.local, p), At(v.remote, p)) {
      EqualContentRepeats(v, second, basis2, p);
    } else {
      DivergesStill(w, v, first, second, basis1, basis2, p);
      RecordedOrNew(w, v, first, second, basis1, deliver, p);
    }
  }

  lemma LastingConflict(local: State, remote: State, localAfter: State, remoteAfter: State)
    requires Lasts(local, localAfter, remote) && Lasts(remote, remoteAfter, local)
    requires !ContentEqual(localAfter, remoteAfter)
    ensures Alike(local, localAfter) && Alike(remote, remoteAfter)
  {
  }

  lemma DivergesStill(w: World, v: World, first: Plan, second: Plan, basis1: Basis, basis2: Basis, p: Path)
    requires Planned(w, first, basis1) && Planned(v, second, basis2)
    requires p in second.decisions && p in first.InConflict() && At(v.base, p) == At(w.base, p)
    requires Lasts(At(w.local, p), At(v.local, p), At(w.remote, p)) && Lasts(At(w.remote, p), At(v.remote, p), At(w.local, p))
    requires !ContentEqual(At(v.local, p), At(v.remote, p))
    ensures p in second.InConflict() && second.decisions[p].reason == first.decisions[p].reason
  {
    hide LazyDecision;
    Meaning(w, first, basis1, p);
    var reason := first.decisions[p].reason;
    LastingConflict(At(w.local, p), At(w.remote, p), At(v.local, p), At(v.remote, p));
    TimesDoNotMatter(At(w.base, p), At(w.local, p), At(w.remote, p), At(v.local, p), At(v.remote, p), reason);
    SameConflict(v, second, basis2, p, reason);
  }

  lemma PutOffRepeats(w: World, v: World, first: Plan, second: Plan, basis1: Basis, basis2: Basis, deliver: Transport, p: Path)
    requires TwoCycles(w, v, first, second, basis1, basis2, deliver)
    requires p in second.decisions && p in first.decisions && first.decisions[p].Act? && p in first.deferred
    ensures Repeats(w, v, first, second, p)
    ensures Wants(second, p, DeleteLocal) || Wants(second, p, DeleteRemote) ==> DeletesDirectory(second.decisions[p])
  {
    hide Planned, Commits, Reliable, NewTimes;
    DeferredDeletes(w, first, basis1, p);
    HeldPathStays(w, v, first, basis1, deliver, p);
    if ContentEqual(At(v.local, p), At(v.remote, p)) {
      EqualContentRepeats(v, second, basis2, p);
    } else {
      DirectoryDeleteRepeats(v, second, basis2, p);
    }
  }

  // A deletion that is put off is that of a directory that still holds the base content.
  lemma DeferredDeletes(w: World, plan: Plan, basis: Basis, p: Path)
    requires Planned(w, plan, basis) && p in plan.deferred
    ensures p in plan.decisions && plan.decisions[p].Act? && !SpecialAt(w, p)
    ensures if plan.decisions[p].action.DeleteLocal? then
              IsDir(At(w.local, p)) && At(w.remote, p).Missing? && ContentEqual(At(w.local, p), At(w.base, p))
            else
              plan.decisions[p].action.DeleteRemote? && IsDir(At(w.remote, p)) && At(w.local, p).Missing?
              && ContentEqual(At(w.remote, p), At(w.base, p))
  {
    Meaning(w, plan, basis, p);
  }

  // One side still has the directory it agreed on, the other has nothing: the deletion is due.
  lemma DirectoryDeleteRepeats(v: World, second: Plan, basis2: Basis, p: Path)
    requires Planned(v, second, basis2) && p in second.decisions && !SpecialAt(v, p)
    ensures IsDir(At(v.local, p)) && ContentEqual(At(v.local, p), At(v.base, p)) && At(v.remote, p).Missing? ==>
              Wants(second, p, DeleteLocal) && DeletesDirectory(second.decisions[p])
    ensures IsDir(At(v.remote, p)) && ContentEqual(At(v.remote, p), At(v.base, p)) && At(v.local, p).Missing? ==>
              Wants(second, p, DeleteRemote) && DeletesDirectory(second.decisions[p])
  {
    hide DecidesFrom, Defers, Closed, Means;
    Meaning(v, second, basis2, p);
    DueDeletion(second.decisions[p], At(v.base, p), At(v.local, p), At(v.remote, p));
  }

  // What one side still holds of the base and the other does not have is to be deleted.
  lemma DueDeletion(d: Decision, base: State, local: State, remote: State)
    requires Means(d, base, local, remote) && Plain(base) && !IsSpecial(base) && !IsSpecial(local) && !IsSpecial(remote)
    ensures (IsDir(local) || IsLink(local)) && ContentEqual(local, base) && remote.Missing? ==>
              d.Act? && d.action.DeleteLocal? && IsDir(d.local) == IsDir(local)
    ensures (IsDir(remote) || IsLink(remote)) && ContentEqual(remote, base) && local.Missing? ==>
              d.Act? && d.action.DeleteRemote? && IsDir(d.remote) == IsDir(remote) && IsLink(d.remote) == IsLink(remote)
  {
  }

  // A deletion that was left undone is due again.
  lemma UndoneRepeats(w: World, v: World, first: Plan, second: Plan, basis1: Basis, basis2: Basis, deliver: Transport, p: Path)
    requires TwoCycles(w, v, first, second, basis1, basis2, deliver)
    requires p in second.decisions && p in first.Undone()
    ensures Repeats(w, v, first, second, p)
  {
    hide Planned, Commits, Reliable, NewTimes;
    UndoneIsHeld(w, v, first, basis1, deliver, p);
    LinkDeleteRepeats(v, second, basis2, p);
  }

  lemma LinkDeleteRepeats(v: World, second: Plan, basis2: Basis, p: Path)
    requires Planned(v, second, basis2) && p in second.decisions
    requires IsLink(At(v.remote, p)) && ContentEqual(At(v.remote, p), At(v.base, p)) && At(v.local, p).Missing?
    ensures Wants(second, p, DeleteRemote) && IsLink(second.decisions[p].remote)
  {
    hide DecidesFrom, Defers, Closed, Means;
    Meaning(v, second, basis2, p);
    DueDeletion(second.decisions[p], At(v.base, p), At(v.local, p), At(v.remote, p));
  }

  // What was completed, or agreed before, asks for nothing.
  lemma SettledRepeats(w: World, v: World, first: Plan, second: Plan, basis1: Basis, basis2: Basis, deliver: Transport, p: Path)
    requires TwoCycles(w, v, first, second, basis1, basis2, deliver) && p in second.decisions
    requires p in first.Completed() || (p !in first.decisions && Agreed(w, p))
             || (p in first.decisions && first.decisions[p] == NoChange)
    ensures Repeats(w, v, first, second, p)
  {
    hide Commits, Reliable, NewTimes;
    if p in first.Completed() {
      CompletedAgrees(w, v, first, basis1, deliver, p);
    } else {
      if p in first.decisions { Meaning(w, first, basis1, p); }
      CleanPathStays(w, v, first, basis1, deliver, p);
    }
    AgreedRepeats(v, second, basis2, p);
    if p in first.deferred { DeferredDeletes(w, first, basis1, p); }
  }

  lemma LastingSpecial(before: State, after: State, other: State)
    requires Lasts(before, after, other)
    ensures IsSpecial(before) ==> IsSpecial(after)
  {
  }

  lemma WarnedRepeats(w: World, v: World, first: Plan, second: Plan, basis1: Basis, basis2: Basis, deliver: Transport, p: Path)
    requires TwoCycles(w, v, first, second, basis1, basis2, deliver) && p in second.decisions
    requires if p in first.decisions then first.decisions[p].Warning? || first.decisions[p].NeedHash? else SpecialAt(w, p)
    ensures Repeats(w, v, first, second, p)
  {
    hide Planned, Commits, Reliable, NewTimes, HeldAt;
    if p in first.decisions { Meaning(w, first, basis1, p); }
    HeldPathStays(w, v, first, basis1, deliver, p);
    LastingSpecial(At(w.local, p), At(v.local, p), At(w.remote, p));
    LastingSpecial(At(w.remote, p), At(v.remote, p), At(w.local, p));
    SpecialRepeats(v, second, basis2, p);
    if p in first.deferred { DeferredDeletes(w, first, basis1, p); }
  }

  lemma NotCovered(w: World, v: World, first: Plan, second: Plan, basis1: Basis, basis2: Basis, deliver: Transport, p: Path)
    requires TwoCycles(w, v, first, second, basis1, basis2, deliver)
    requires p in second.decisions && p !in first.decisions
    ensures Agreed(w, p) || SpecialAt(w, p)
  {
    DecidedUnlessIgnored(w, first, basis1, p);
    DecidedUnlessIgnored(v, second, basis2, p);
  }

  lemma SecondDecision(w: World, v: World, first: Plan, second: Plan, basis1: Basis, basis2: Basis, deliver: Transport, p: Path)
    requires TwoCycles(w, v, first, second, basis1, basis2, deliver) && p in second.decisions
    ensures Repeats(w, v, first, second, p)
    ensures p in first.deferred && (Wants(second, p, DeleteLocal) || Wants(second, p, DeleteRemote)) ==>
              DeletesDirectory(second.decisions[p])
  {
    hide Planned, Commits, Reliable, NewTimes, Repeats;
    if p in first.deferred {
      DeferredDeletes(w, first, basis1, p);
      PutOffRepeats(w, v, first, second, basis1, basis2, deliver, p);
    } else if p in first.Undone() {
      UndoneRepeats(w, v, first, second, basis1, basis2, deliver, p);
    } else if p !in first.decisions {
      NotCovered(w, v, first, second, basis1, basis2, deliver, p);
      if Agreed(w, p) {
        SettledRepeats(w, v, first, second, basis1, basis2, deliver, p);
      } else {
        WarnedRepeats(w, v, first, second, basis1, basis2, deliver, p);
      }
    } else if first.decisions[p] == NoChange || first.decisions[p].Act? {
      SettledRepeats(w, v, first, second, basis1, basis2, deliver, p);
    } else if first.decisions[p].Conflict? {
      ConflictRepeats(w, v, first, second, basis1, basis2, deliver, p);
    } else {
      WarnedRepeats(w, v, first, second, basis1, basis2, deliver, p);
    }
  }

  // The second of two undisturbed cycles transfers nothing.  The conflicts that are new to it are
  // exactly those whose capture failed in the first cycle and whose sides still differ.  It deletes a
  // path exactly when the first cycle put that deletion off, the counterpart is still missing, and
  // nothing at or below the path is an open conflict or one of the new ones; and it tries again, in
  // vain, what the remote side left undone in the first.
  lemma SecondCycle(w: World, v: World, first: Plan, second: Plan, basis1: Basis, basis2: Basis, deliver: Transport)
    requires TwoCycles(w, v, first, second, basis1, basis2, deliver)
    ensures second.Doing(Push) == {} && second.Doing(Pull) == {}
    ensures forall p :: IsNew(second, v, p) <==> StillDiverges(w, v, first, p)
    ensures forall p ::
              && (p in second.Doing(DeleteLocal) <==>
                    PutOff(first, p, DeleteLocal) && At(v.remote, p).Missing? && !ConflictWithin(w, v, first, p))
              && (p in second.Doing(DeleteRemote) <==>
                    (PutOff(first, p, DeleteRemote) && At(v.local, p).Missing? && !ConflictWithin(w, v, first, p))
                    || p in first.Undone())
    ensures first.Undone() == second.Undone()
  {
    hide Planned, Repeats, Reliable, NewTimes, Changed;
    forall p
      ensures Repeats(w, v, first, second, p)
      ensures p in first.deferred && (Wants(second, p, DeleteLocal) || Wants(second, p, DeleteRemote)) ==>
                DeletesDirectory(second.decisions[p])
    {
      if p in second.decisions {
        SecondDecision(w, v, first, second, basis1, basis2, deliver, p);
      } else {
        NotDecidedAgain(w, v, first, second, basis1, basis2, deliver, p);
      }
    }
    forall p
      ensures p in second.deferred <==> p in second.decisions && DeletesDirectory(second.decisions[p]) && ConflictWithin(w, v, first, p)
    {
      OpenConflictsDefer(w, v, first, second, basis2, p);
    }
    forall p { RepeatedDeletes(w, v, first, second, p); }
  }

  // What the second cycle does not decide about was not requeued.
  lemma NotDecidedAgain(w: World, v: World, first: Plan, second: Plan, basis1: Basis, basis2: Basis, deliver: Transport, p: Path)
    requires TwoCycles(w, v, first, second, basis1, basis2, deliver) && p !in second.decisions
    ensures Repeats(w, v, first, second, p)
  {
    if p in first.decisions {
      DecidedUnlessIgnored(w, first, basis1, p);
      DecidedUnlessIgnored(v, second, basis2, p);
      assert p !in v.requeued;
    }
  }

  // When the new conflicts of a plan are known, so is what its deletions are put off for.
  lemma OpenConflictsDefer(w: World, v: World, first: Plan, second: Plan, basis2: Basis, p: Path)
    requires Planned(v, second, basis2)
    requires forall q :: Repeats(w, v, first, second, q)
    ensures p in second.deferred <==> p in second.decisions && DeletesDirectory(second.decisions[p]) && ConflictWithin(w, v, first, p)
  {
    if p in second.deferred {
      var c :| (c in second.InConflict() || c in v.conflicts) && Within(c, p);
      assert Repeats(w, v, first, second, c);
    }
    if p in second.decisions && DeletesDirectory(second.decisions[p]) && ConflictWithin(w, v, first, p) {
      var c :| (c in v.conflicts || StillDiverges(w, v, first, c)) && Within(c, p);
      assert Repeats(w, v, first, second, c);
      assert c in second.InConflict() || c in v.conflicts;
    }
  }

  lemma RepeatedDeletes(w: World, v: World, first: Plan, second: Plan, p: Path)
    requires Repeats(w, v, first, second, p)
    requires p in second.deferred <==> p in second.decisions && DeletesDirectory(second.decisions[p]) && ConflictWithin(w, v, first, p)
    requires p in first.deferred && (Wants(second, p, DeleteLocal) || Wants(second, p, DeleteRemote)) ==>
               DeletesDirectory(second.decisions[p])
    ensures p !in second.Doing(Push) && p !in second.Doing(Pull)
    ensures IsNew(second, v, p) <==> StillDiverges(w, v, first, p)
    ensures p in second.Doing(DeleteLocal) <==>
              PutOff(first, p, DeleteLocal) && At(v.remote, p).Missing? && !ConflictWithin(w, v, first, p)
    ensures p in second.Doing(DeleteRemote) <==>
              (PutOff(first, p, DeleteRemote) && At(v.local, p).Missing? && !ConflictWithin(w, v, first, p)) || p in first.Undone()
    ensures p in second.Undone() <==> p in first.Undone()
  {
  }
}
