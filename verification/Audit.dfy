/**
 The audit: which paths no longer match the base.

 An audit compares metadata, and hashes a regular file only when its stored signature (change time,
 device and inode) is not the one observed.  Every write stamps a fresh signature, so a signature
 is modelled as the position of a state in the history of its path.
 */
module Audit {
  import opened Wrappers
  import opened Journal
  import opened Entries
  import opened Reconcile
  import opened Planning
  import opened Trees

  predicate IsPlaceholder(s: State) {
    s.Present? && s.entry.placeholder
  }

  // Full observations: files carry their hash, and only files are placeholders.
  predicate InFull(s: State) {
    Hashed(s) && (IsPlaceholder(s) ==> IsFile(s))
  }

  // Everything a replica has held at a path, oldest first; the last one is there now.
  type Versions = v: seq<State> | |v| > 0 && forall i | 0 <= i < |v| :: InFull(v[i]) witness [Missing]
  type History = Path -> Versions

  type Signatures = map<Path, nat>

  datatype Observation = Observation(state: State, signature: Option<nat>)

  const NOTHING := Observation(Missing, None)

  // What an observer reports when it comes upon version `i`.
  function Look(versions: Versions, i: nat, withHash: bool): Observation
    requires i < |versions|
  {
    if versions[i].Missing? then NOTHING
    else Observation(if withHash then versions[i] else Metadata(versions[i]), Some(i))
  }

  function Tip(versions: Versions): State {
    versions[|versions| - 1]
  }

  function Stored(signatures: Signatures, p: Path): Option<nat> {
    if p in signatures then Some(signatures[p]) else None
  }

  // ---------------------------------------------------------------- comparisons

  function PermissionBits(mode: Option<int>): int {
    if mode.None? then 0 else mode.value % 4096
  }

  predicate QuickMatches(current: State, base: State) {
    if base.Missing? then current.Missing?
    else if current.Missing? || current.entry.kind != base.entry.kind then false
    else if base.entry.placeholder then current == base
    else match current.entry.kind
      case File => QuickEqual(current, base)
      case Symlink => current.entry.linkTarget == base.entry.linkTarget
      case Dir => PermissionBits(current.entry.mode) == PermissionBits(base.entry.mode)
      case Special => current == base
  }

  predicate StrongMatches(current: State, base: State) {
    IsFile(current) && IsFile(base) && current.entry.hash.Some? && current.entry.hash == base.entry.hash
  }

  // The remote side of a placeholder is any regular file.
  predicate SideQuickMatches(side: Side, current: State, base: State) {
    if !IsPlaceholder(base) then QuickMatches(current, base)
    else if side.Local? then current == base
    else IsFile(current)
  }

  predicate ObservationMatches(side: Side, current: State, base: State) {
    if IsPlaceholder(base) then
      if side.Local? then current == base
      else IsFile(current) && current.entry.hash.Some? && current.entry.hash == base.entry.hash
    else if IsFile(base) then StrongMatches(current, base)
    else QuickMatches(current, base)
  }

  // Where a matching signature spares hashing.
  predicate Cached(side: Side, base: State) {
    IsFile(base) && !(base.entry.placeholder && side.Local?)
  }

  datatype Verdict = Drifted | Settles(signature: Option<nat>) | Doubtful

  // What an audit makes of the metadata and the signature of one side.
  function FirstLook(side: Side, base: State, seen: Observation, stored: Option<nat>): Verdict {
    if !SideQuickMatches(side, seen.state, base) then Drifted
    else if Cached(side, base) && stored != seen.signature then Doubtful
    else Settles(seen.signature)
  }

  // A doubt is settled by hashing.
  function AfterHashing(side: Side, base: State, seen: Observation, hashed: Observation, stored: Option<nat>): Verdict {
    var first := FirstLook(side, base, seen, stored);
    if !first.Doubtful? then first
    else if StrongMatches(hashed.state, base) then Settles(hashed.signature)
    else Drifted
  }

  function NextStored(verdict: Verdict, stored: Option<nat>): Option<nat> {
    if verdict.Settles? then verdict.signature else stored
  }

  // ---------------------------------------------------------------- what the cache must satisfy

  // The base content, or for a special entry the very same entry.
  predicate HoldsBase(s: State, base: State) {
    ContentEqual(s, base) || s == base
  }

  // A stored signature that is still on disk belongs to the base content.
  ghost predicate SoundAt(base: State, versions: Versions, stored: Option<nat>) {
    stored.Some? ==>
      stored.value < |versions| && (stored.value == |versions| - 1 ==> HoldsBase(Tip(versions), base))
  }

  ghost predicate CacheSound(base: Tree, past: History, signatures: Signatures) {
    forall p :: SoundAt(At(base, p), past(p), Stored(signatures, p))
  }

  ghost predicate Extends(before: History, after: History) {
    forall p :: before(p) <= after(p)
  }

  // Writing keeps the cache sound: whatever is written carries a new signature.
  lemma WritingKeepsSound(base: State, before: Versions, after: Versions, stored: Option<nat>)
    requires SoundAt(base, before, stored) && before <= after
    ensures SoundAt(base, after, stored)
  {
  }

  // Version `i` was there at some moment between `before` and `after`.
  predicate Between(before: Versions, i: nat, after: Versions) {
    before <= after && |before| - 1 <= i < |after|
  }

  function BitsOf(e: Entry): int {
    (match e.mode case None => 0 case Some(mode) => mode) % 4096
  }

  // What auditing by hashing everything finds: metadata is compared on what was there at the
  // snapshot, content on what was there when it was last looked at.
  predicate DiffersInFull(side: Side, base: State, atSnapshot: State, atHashing: State) {
    if base.Missing? then atSnapshot.Present?
    else if atSnapshot.Missing? || atSnapshot.entry.kind != base.entry.kind then true
    else
      var b, s := base.entry, atSnapshot.entry;
      match b.kind
      case File =>
        if b.placeholder && side.Local? then s != b
        else || (!b.placeholder && (s.size != b.size || s.mtime != b.mtime || s.mode != b.mode))
             || !(IsFile(atHashing) && atHashing.entry.hash == b.hash)
      case Symlink => s.linkTarget != b.linkTarget
      case Dir => BitsOf(s) != BitsOf(b)
      case Special => s != b
  }

  // Differing from a base entry that is no placeholder: another kind of entry, or none; a regular file
  // with another content, size, time or mode; a link to something else; a directory with other
  // permission bits; any other special entry.
  predicate Unlike(s: State, base: State) {
    if s.Missing? || base.Missing? then s != base
    else
      || s.entry.kind != base.entry.kind
      || (s.entry.kind.File? && (s.entry.hash != base.entry.hash || s.entry.size != base.entry.size
                                 || s.entry.mtime != base.entry.mtime || s.entry.mode != base.entry.mode))
      || (s.entry.kind.Symlink? && s.entry.linkTarget != base.entry.linkTarget)
      || (s.entry.kind.Dir? && BitsOf(s.entry) != BitsOf(base.entry))
      || (s.entry.kind.Special? && s != base)
  }

  // While nobody writes, a path drifts exactly when it differs from the base.  An unchanged path
  // never drifts.  Otherwise the signature it has now is the one to store.
  lemma QuietVerdict(side: Side, base: State, versions: Versions, stored: Option<nat>)
    requires InFull(base) && SoundAt(base, versions, stored)
    ensures var last := |versions| - 1;
            var verdict := AfterHashing(side, base, Look(versions, last, false), Look(versions, last, true), stored);
            && (Plain(base) ==> (verdict.Drifted? <==> Unlike(Tip(versions), base)))
            && (!Plain(base) && side.Local? ==> (verdict.Drifted? <==> Tip(versions) != base))
            && (!Plain(base) && side.Remote? ==>
                  (verdict.Drifted? <==> !(IsFile(Tip(versions)) && Tip(versions).entry.hash == base.entry.hash)))
            && (Tip(versions) == base ==> !verdict.Drifted?)
            && (!verdict.Drifted? ==> verdict == Settles(if Tip(versions).Missing? then None else Some(last)))
  {
    var last := |versions| - 1;
    SparingChangesNothing(side, base, versions, last, last, versions, stored);
    assert InFull(Tip(versions));
  }

  // The audit decides as hashing everything would, whatever was written meanwhile: a file that was
  // spared is judged as it was at the snapshot, one that was hashed as it was then.
  lemma SparingChangesNothing(side: Side, base: State, before: Versions, i: nat, j: nat, after: Versions, stored: Option<nat>)
    requires InFull(base) && SoundAt(base, before, stored) && Between(before, i, after) && Between(before, j, after)
    ensures var seen, hashed := Look(after, i, false), Look(after, j, true);
            AfterHashing(side, base, seen, hashed, stored) == Drifted
            <==> DiffersInFull(side, base, after[i], if FirstLook(side, base, seen, stored).Doubtful? then after[j] else after[i])
  {
    assert after[..|before|] == before;
    if stored.Some? && stored == Look(after, i, false).signature {
      assert after[i] == Tip(before);
    }
  }

  lemma AuditKeepsSound(side: Side, base: State, before: Versions, i: nat, j: nat, after: Versions, stored: Option<nat>)
    requires InFull(base) && SoundAt(base, before, stored) && Between(before, i, after) && Between(before, j, after)
    ensures SoundAt(base, after, NextStored(AfterHashing(side, base, Look(after, i, false), Look(after, j, true), stored), stored))
  {
    assert after[..|before|] == before;
    if stored.Some? && stored == Look(after, i, false).signature {
      assert after[i] == Tip(before);
    }
  }

  // The point of the cache: where an audit found no drift, the next one finds none either and hashes
  // nothing, as long as nobody writes; where it did, the next one finds the same.
  lemma SettledIsSpared(side: Side, base: State, versions: Versions, stored: Option<nat>)
    requires InFull(base) && SoundAt(base, versions, stored)
    ensures var i := |versions| - 1;
            var seen, hashed := Look(versions, i, false), Look(versions, i, true);
            var verdict := AfterHashing(side, base, seen, hashed, stored);
            var next := NextStored(verdict, stored);
            if verdict.Settles? then FirstLook(side, base, seen, next) == Settles(next)
            else next == stored && AfterHashing(side, base, seen, hashed, next).Drifted?
  {
  }

  // A refresh hashes every path it is given.
  function AfterRefresh(side: Side, base: State, observed: Observation): Verdict {
    if ObservationMatches(side, observed.state, base) then Settles(observed.signature) else Drifted
  }

  lemma RefreshKeepsSound(side: Side, base: State, before: Versions, i: nat, after: Versions, stored: Option<nat>)
    requires InFull(base) && SoundAt(base, before, stored) && Between(before, i, after)
    ensures SoundAt(base, after, NextStored(AfterRefresh(side, base, Look(after, i, true)), stored))
  {
    assert after[..|before|] == before;
  }

  // A committed action records content that no stored signature contradicts: the side whose
  // content changed since the base carries a new signature, and the destination of a
  // transfer or deletion is recorded as it was read back (position `k`).
  lemma CommitKeepsSound(side: Side, base: State, next: State, before: Versions, i: nat, k: nat, after: Versions,
                         local: State, remote: State, stored: Option<nat>)
    requires InFull(base) && SoundAt(base, before, stored) && Between(before, i, after) && Between(before, k, after)
    requires SeenAs(if side.Local? then local else remote, after[i])
    requires var d := Decide(base, local, remote);
             && d.Act?
             && match d.action
                case UpdateBase => next == d.baseAfter
                case Push => side.Remote? ==> next == after[k]
                case Pull => side.Local? ==> next == after[k]
                case DeleteLocal => next.Missing? && (side.Local? ==> next == after[k])
                case DeleteRemote => next.Missing? && (side.Remote? ==> next == after[k])
    ensures SoundAt(next, after, stored)
  {
    assert after[..|before|] == before;
    if stored == Some(|after| - 1) {
      assert after == before && after[i] == after[k] == Tip(after);
      assert HoldsBase(after[i], base);
    }
  }

  // ---------------------------------------------------------------- a whole audit

  function SeenIn(snapshot: map<Path, Observation>, p: Path): Observation {
    if p in snapshot then snapshot[p] else NOTHING
  }

  // The verdict on one path from a snapshot and, where in doubt, from hashing.
  function AuditVerdict(side: Side, base: Tree, snapshot: map<Path, Observation>, hashed: Path -> Observation,
                        signatures: Signatures, p: Path): Verdict {
    AfterHashing(side, At(base, p), SeenIn(snapshot, p), hashed(p), Stored(signatures, p))
  }

  // Every path was looked at for the snapshot at one moment between `before` and `after`, and would
  // have been hashed at another.
  ghost predicate Observed(before: History, after: History, snapshot: map<Path, Observation>, hashed: Path -> Observation) {
    forall p :: exists i: nat, j: nat ::
      Between(before(p), i, after(p)) && Between(before(p), j, after(p))
      && SeenIn(snapshot, p) == Look(after(p), i, false) && hashed(p) == Look(after(p), j, true)
  }

  // Hashing everything flags the path: judged by its content at the snapshot if its signature was
  // the stored one, and by its content when hashed otherwise.
  ghost predicate FullAuditFlags(side: Side, base: State, before: Versions, after: Versions, seen: Observation,
                                 hashed: Observation, stored: Option<nat>) {
    exists i: nat, j: nat ::
      && Between(before, i, after) && Between(before, j, after)
      && seen == Look(after, i, false) && hashed == Look(after, j, true)
      && DiffersInFull(side, base, after[i], if FirstLook(side, base, seen, stored).Doubtful? then after[j] else after[i])
  }

  // With a sound cache an audit finds exactly what hashing every file would.
  lemma AuditMissesNothing(side: Side, base: Tree, before: History, after: History, signatures: Signatures,
                           snapshot: map<Path, Observation>, hashed: Path -> Observation)
    requires (forall p :: InFull(At(base, p))) && CacheSound(base, before, signatures)
    requires Observed(before, after, snapshot, hashed)
    ensures forall p :: AuditVerdict(side, base, snapshot, hashed, signatures, p).Drifted? <==>
              FullAuditFlags(side, At(base, p), before(p), after(p), SeenIn(snapshot, p), hashed(p), Stored(signatures, p))
  {
    hide DiffersInFull, AfterHashing, FirstLook, InFull, SoundAt;
    forall p
      ensures AuditVerdict(side, base, snapshot, hashed, signatures, p).Drifted? <==>
                FullAuditFlags(side, At(base, p), before(p), after(p), SeenIn(snapshot, p), hashed(p), Stored(signatures, p))
    {
      var stored := Stored(signatures, p);
      assert SoundAt(At(base, p), before(p), stored);
      var i: nat, j: nat :| Between(before(p), i, after(p)) && Between(before(p), j, after(p))
        && SeenIn(snapshot, p) == Look(after(p), i, false) && hashed(p) == Look(after(p), j, true);
      SparingChangesNothing(side, At(base, p), before(p), i, j, after(p), stored);
      if FullAuditFlags(side, At(base, p), before(p), after(p), SeenIn(snapshot, p), hashed(p), stored) {
        var k: nat, l: nat :| Between(before(p), k, after(p)) && Between(before(p), l, after(p))
          && SeenIn(snapshot, p) == Look(after(p), k, false) && hashed(p) == Look(after(p), l, true)
          && DiffersInFull(side, At(base, p), after(p)[k],
                           if FirstLook(side, At(base, p), SeenIn(snapshot, p), stored).Doubtful? then after(p)[l] else after(p)[k]);
        SparingChangesNothing(side, At(base, p), before(p), k, l, after(p), stored);
      }
    }
  }

  // What an audit that nobody disturbs requeues, for the paths whose base entry is no placeholder.
  lemma QuietAudit(side: Side, base: Tree, past: History, signatures: Signatures, snapshot: map<Path, Observation>,
                   hashed: Path -> Observation, p: Path)
    requires InFull(At(base, p)) && CacheSound(base, past, signatures) && Observed(past, past, snapshot, hashed)
    requires Plain(At(base, p))
    ensures AuditVerdict(side, base, snapshot, hashed, signatures, p).Drifted? <==> Unlike(Tip(past(p)), At(base, p))
  {
    hide AfterHashing, Unlike;
    var i: nat, j: nat :| Between(past(p), i, past(p)) && Between(past(p), j, past(p))
      && SeenIn(snapshot, p) == Look(past(p), i, false) && hashed(p) == Look(past(p), j, true);
    assert SoundAt(At(base, p), past(p), Stored(signatures, p));
    QuietVerdict(side, At(base, p), past(p), Stored(signatures, p));
  }

  // ---------------------------------------------------------------- runs

  datatype Replica = Replica(past: History, signatures: Signatures)
  datatype Cache = Cache(base: Tree, local: Replica, remote: Replica)

  ghost predicate Sound(c: Cache) {
    && (forall p :: InFull(At(c.base, p)))
    && CacheSound(c.base, c.local.past, c.local.signatures)
    && CacheSound(c.base, c.remote.past, c.remote.signatures)
  }

  // Anybody writes anything, on either side, any number of times.
  ghost predicate Wrote(c: Cache, d: Cache) {
    && d.base == c.base && d.local.signatures == c.local.signatures && d.remote.signatures == c.remote.signatures
    && Extends(c.local.past, d.local.past) && Extends(c.remote.past, d.remote.past)
  }

  // An audit; every path is looked at, and hashed if need be, at some moments of its own.
  ghost predicate AuditedAt(side: Side, base: State, before: Versions, after: Versions, stored: Option<nat>, next: Option<nat>) {
    exists i: nat, j: nat :: Between(before, i, after) && Between(before, j, after)
      && next == NextStored(AfterHashing(side, base, Look(after, i, false), Look(after, j, true), stored), stored)
  }

  ghost predicate AuditedSide(side: Side, base: Tree, r: Replica, s: Replica, ignored: Path -> bool) {
    forall p ::
      && r.past(p) <= s.past(p)
      && if ignored(p) then Stored(s.signatures, p) == Stored(r.signatures, p)
         else AuditedAt(side, At(base, p), r.past(p), s.past(p), Stored(r.signatures, p), Stored(s.signatures, p))
  }

  ghost predicate Audited(c: Cache, d: Cache, ignored: Path -> bool) {
    d.base == c.base && AuditedSide(Local, c.base, c.local, d.local, ignored)
    && AuditedSide(Remote, c.base, c.remote, d.remote, ignored)
  }

  ghost predicate RefreshedAt(side: Side, base: State, before: Versions, after: Versions, stored: Option<nat>, next: Option<nat>) {
    exists i: nat :: Between(before, i, after) && next == NextStored(AfterRefresh(side, base, Look(after, i, true)), stored)
  }

  ghost predicate RefreshedSide(side: Side, base: Tree, r: Replica, s: Replica, paths: set<Path>) {
    forall p ::
      && r.past(p) <= s.past(p)
      && if p !in paths then Stored(s.signatures, p) == Stored(r.signatures, p)
         else RefreshedAt(side, At(base, p), r.past(p), s.past(p), Stored(r.signatures, p), Stored(s.signatures, p))
  }

  ghost predicate Refreshed(c: Cache, d: Cache, paths: set<Path>) {
    d.base == c.base && RefreshedSide(Local, c.base, c.local, d.local, paths)
    && RefreshedSide(Remote, c.base, c.remote, d.remote, paths)
  }

  // A path completed by a cycle that decided on what it saw at positions `i` and `j`, and read the
  // destination back at position `k`, while others may have been writing all along.
  ghost predicate Completes(base: State, next: State, localBefore: Versions, localAfter: Versions,
                            remoteBefore: Versions, remoteAfter: Versions) {
    exists i: nat, j: nat, k: nat, local, remote ::
      && Between(localBefore, i, localAfter) && Between(remoteBefore, j, remoteAfter)
      && SeenAs(local, localAfter[i]) && SeenAs(remote, remoteAfter[j])
      && ReadBack(Decide(base, local, remote), next, localBefore, localAfter, remoteBefore, remoteAfter, k)
  }

  ghost predicate ReadBack(d: Decision, next: State, localBefore: Versions, localAfter: Versions,
                           remoteBefore: Versions, remoteAfter: Versions, k: nat) {
    && d.Act?
    && match d.action
       case UpdateBase => next == d.baseAfter
       case Push => Between(remoteBefore, k, remoteAfter) && next == remoteAfter[k]
       case Pull => Between(localBefore, k, localAfter) && next == localAfter[k]
       case DeleteLocal => Between(localBefore, k, localAfter) && next == localAfter[k] == Missing
       case DeleteRemote => Between(remoteBefore, k, remoteAfter) && next == remoteAfter[k] == Missing
  }

  // From the plan of a cycle to the commit of its base updates.
  ghost predicate Committed(c: Cache, d: Cache) {
    && d.local.signatures == c.local.signatures && d.remote.signatures == c.remote.signatures
    && Extends(c.local.past, d.local.past) && Extends(c.remote.past, d.remote.past)
    && forall p :: At(d.base, p) == At(c.base, p)
         || Completes(At(c.base, p), At(d.base, p), c.local.past(p), d.local.past(p), c.remote.past(p), d.remote.past(p))
  }

  datatype Step = Writes | Commits | Audits(ignored: Path -> bool) | Refreshes(paths: set<Path>)

  ghost predicate Takes(c: Cache, d: Cache, step: Step) {
    match step
    case Writes => Wrote(c, d)
    case Commits => Committed(c, d)
    case Audits(ignored) => Audited(c, d, ignored)
    case Refreshes(paths) => Refreshed(c, d, paths)
  }

  ghost predicate Next(c: Cache, d: Cache) {
    exists step :: Takes(c, d, step)
  }

  lemma CompletionKeepsSound(base: State, next: State, localBefore: Versions, localAfter: Versions,
                             remoteBefore: Versions, remoteAfter: Versions, localStored: Option<nat>, remoteStored: Option<nat>)
    requires Completes(base, next, localBefore, localAfter, remoteBefore, remoteAfter) && InFull(base)
    requires SoundAt(base, localBefore, localStored) && SoundAt(base, remoteBefore, remoteStored)
    ensures InFull(next) && SoundAt(next, localAfter, localStored) && SoundAt(next, remoteAfter, remoteStored)
  {
    var i: nat, j: nat, k: nat, local, remote :| Between(localBefore, i, localAfter) && Between(remoteBefore, j, remoteAfter)
      && SeenAs(local, localAfter[i]) && SeenAs(remote, remoteAfter[j])
      && ReadBack(Decide(base, local, remote), next, localBefore, localAfter, remoteBefore, remoteAfter, k);
    var action := Decide(base, local, remote).action;
    CommitKeepsSound(Local, base, next, localBefore, i, if action.Pull? || action.DeleteLocal? then k else i, localAfter,
                     local, remote, localStored);
    CommitKeepsSound(Remote, base, next, remoteBefore, j, if action.Push? || action.DeleteRemote? then k else j, remoteAfter,
                     local, remote, remoteStored);
  }

  lemma AuditedSideKeepsSound(side: Side, base: Tree, r: Replica, s: Replica, ignored: Path -> bool)
    requires AuditedSide(side, base, r, s, ignored) && CacheSound(base, r.past, r.signatures)
    requires forall p :: InFull(At(base, p))
    ensures CacheSound(base, s.past, s.signatures)
  {
    forall p
      ensures SoundAt(At(base, p), s.past(p), Stored(s.signatures, p))
    {
      var stored := Stored(r.signatures, p);
      if ignored(p) {
        WritingKeepsSound(At(base, p), r.past(p), s.past(p), stored);
      } else {
        assert AuditedAt(side, At(base, p), r.past(p), s.past(p), stored, Stored(s.signatures, p));
        var i: nat, j: nat :| Between(r.past(p), i, s.past(p)) && Between(r.past(p), j, s.past(p))
          && Stored(s.signatures, p)
             == NextStored(AfterHashing(side, At(base, p), Look(s.past(p), i, false), Look(s.past(p), j, true), stored), stored);
        AuditKeepsSound(side, At(base, p), r.past(p), i, j, s.past(p), stored);
      }
    }
  }

  lemma RefreshedSideKeepsSound(side: Side, base: Tree, r: Replica, s: Replica, paths: set<Path>)
    requires RefreshedSide(side, base, r, s, paths) && CacheSound(base, r.past, r.signatures)
    requires forall p :: InFull(At(base, p))
    ensures CacheSound(base, s.past, s.signatures)
  {
    forall p
      ensures SoundAt(At(base, p), s.past(p), Stored(s.signatures, p))
    {
      var stored := Stored(r.signatures, p);
      if p !in paths {
        WritingKeepsSound(At(base, p), r.past(p), s.past(p), stored);
      } else {
        assert RefreshedAt(side, At(base, p), r.past(p), s.past(p), stored, Stored(s.signatures, p));
        var i: nat :| Between(r.past(p), i, s.past(p))
          && Stored(s.signatures, p) == NextStored(AfterRefresh(side, At(base, p), Look(s.past(p), i, true)), stored);
        RefreshKeepsSound(side, At(base, p), r.past(p), i, s.past(p), stored);
      }
    }
  }

  lemma CommittedKeepsSound(c: Cache, d: Cache)
    requires Sound(c) && Committed(c, d)
    ensures Sound(d)
  {
    forall p
      ensures InFull(At(d.base, p))
      ensures SoundAt(At(d.base, p), d.local.past(p), Stored(d.local.signatures, p))
      ensures SoundAt(At(d.base, p), d.remote.past(p), Stored(d.remote.signatures, p))
    {
      assert SoundAt(At(c.base, p), c.local.past(p), Stored(c.local.signatures, p));
      assert SoundAt(At(c.base, p), c.remote.past(p), Stored(c.remote.signatures, p));
      if At(d.base, p) == At(c.base, p) {
        WritingKeepsSound(At(c.base, p), c.local.past(p), d.local.past(p), Stored(c.local.signatures, p));
        WritingKeepsSound(At(c.base, p), c.remote.past(p), d.remote.past(p), Stored(c.remote.signatures, p));
      } else {
        CompletionKeepsSound(At(c.base, p), At(d.base, p), c.local.past(p), d.local.past(p), c.remote.past(p), d.remote.past(p),
                             Stored(c.local.signatures, p), Stored(c.remote.signatures, p));
      }
    }
  }

  lemma WroteKeepsSound(c: Cache, d: Cache)
    requires Sound(c) && Wrote(c, d)
    ensures Sound(d)
  {
    forall p
      ensures SoundAt(At(d.base, p), d.local.past(p), Stored(d.local.signatures, p))
      ensures SoundAt(At(d.base, p), d.remote.past(p), Stored(d.remote.signatures, p))
    {
      assert SoundAt(At(c.base, p), c.local.past(p), Stored(c.local.signatures, p));
      assert SoundAt(At(c.base, p), c.remote.past(p), Stored(c.remote.signatures, p));
    }
  }

  lemma NextKeepsSound(c: Cache, d: Cache)
    requires Sound(c) && Next(c, d)
    ensures Sound(d)
  {
    var step :| Takes(c, d, step);
    match step
    case Writes => WroteKeepsSound(c, d);
    case Commits => CommittedKeepsSound(c, d);
    case Audits(ignored) =>
      AuditedSideKeepsSound(Local, c.base, c.local, d.local, ignored);
      AuditedSideKeepsSound(Remote, c.base, c.remote, d.remote, ignored);
    case Refreshes(paths) =>
      RefreshedSideKeepsSound(Local, c.base, c.local, d.local, paths);
      RefreshedSideKeepsSound(Remote, c.base, c.remote, d.remote, paths);
  }

  // A run of writes, commits, audits and refreshes that started from an empty cache.
  ghost predicate IsRun(run: seq<Cache>) {
    && run != [] && run[0].local.signatures == map[] && run[0].remote.signatures == map[]
    && (forall p :: InFull(At(run[0].base, p)))
    && forall n | 0 < n < |run| :: Next(run[n - 1], run[n])
  }

  // Over every run a stored signature that is still on disk belongs to the base content.
  lemma {:induction false} CacheStaysSound(run: seq<Cache>, n: nat)
    requires IsRun(run) && n < |run|
    ensures Sound(run[n])
    decreases n
  {
    if n > 0 {
      CacheStaysSound(run, n - 1);
      NextKeepsSound(run[n - 1], run[n]);
    }
  }

  // ---------------------------------------------------------------- the coordinator

  type Updates = map<Path, Option<nat>>

  function UpdateSignatures(signatures: Signatures, updates: Updates): (r: Signatures)
    ensures forall p :: Stored(r, p) == if p in updates then updates[p] else Stored(signatures, p)
  {
    map p | p in signatures.Keys + updates.Keys && (p in updates ==> updates[p].Some?) ::
      if p in updates then updates[p].value else signatures[p]
  }

  // What the first pass collects for one side: the drifted paths, updates for the paths that settle,
  // and the doubts.
  ghost predicate Collected(verdicts: map<Path, Verdict>, drifted: set<Path>, updates: Updates, doubtful: seq<Path>) {
    forall p ::
      && (p in drifted <==> p in verdicts && verdicts[p].Drifted?)
      && (p in doubtful <==> p in verdicts && verdicts[p].Doubtful?)
      && (p in updates <==> p in verdicts && verdicts[p].Settles?)
      && (p in updates ==> updates[p] == verdicts[p].signature)
  }

  ghost function FirstVerdicts(side: Side, base: Tree, snapshot: map<Path, Observation>, signatures: Signatures,
                               paths: seq<Path>, ignored: Path -> bool): map<Path, Verdict> {
    map p | p in paths && !ignored(p) :: FirstLook(side, At(base, p), SeenIn(snapshot, p), Stored(signatures, p))
  }

  // The first pass over one side: metadata and signatures only.
  method LookOver(side: Side, base: Tree, snapshot: map<Path, Observation>, signatures: Signatures, paths: seq<Path>,
                  ignored: Path -> bool)
    returns (drifted: set<Path>, updates: Updates, doubtful: seq<Path>)
    ensures Collected(FirstVerdicts(side, base, snapshot, signatures, paths, ignored), drifted, updates, doubtful)
  {
    drifted, updates, doubtful := {}, map[], [];
    for i := 0 to |paths|
      invariant Collected(FirstVerdicts(side, base, snapshot, signatures, paths[..i], ignored), drifted, updates, doubtful)
    {
      var path := paths[i];
      assert paths[..i + 1] == paths[..i] + [path];
      if !ignored(path) {
        var verdict := FirstLook(side, At(base, path), SeenIn(snapshot, path), Stored(signatures, path));
        match verdict {
          case Drifted => drifted := drifted + {path};
          case Settles(signature) => updates := updates[path := signature];
          case Doubtful => doubtful := doubtful + [path];
        }
      }
    }
    assert paths[..|paths|] == paths;
  }

  // The second pass over one side: hashes settle the doubts.
  method HashDoubts(base: Tree, doubtful: seq<Path>, hashed: Path -> Observation, updates: Updates)
    returns (drifted: set<Path>, updatesAfter: Updates)
    ensures forall p :: p in drifted <==> p in doubtful && !StrongMatches(hashed(p).state, At(base, p))
    ensures forall p :: p in updatesAfter <==> p in updates || (p in doubtful && StrongMatches(hashed(p).state, At(base, p)))
    ensures forall p | p in updatesAfter ::
              updatesAfter[p] == if p in doubtful && StrongMatches(hashed(p).state, At(base, p)) then hashed(p).signature else updates[p]
  {
    drifted, updatesAfter := {}, updates;
    for i := 0 to |doubtful|
      invariant forall p :: p in drifted <==> p in doubtful[..i] && !StrongMatches(hashed(p).state, At(base, p))
      invariant forall p :: p in updatesAfter <==> p in updates || (p in doubtful[..i] && StrongMatches(hashed(p).state, At(base, p)))
      invariant forall p | p in updatesAfter ::
                  updatesAfter[p] == if p in doubtful[..i] && StrongMatches(hashed(p).state, At(base, p))
                                     then hashed(p).signature else updates[p]
    {
      var path := doubtful[i];
      assert doubtful[..i + 1] == doubtful[..i] + [path];
      if StrongMatches(hashed(path).state, At(base, path)) {
        updatesAfter := updatesAfter[path := hashed(path).signature];
      } else {
        drifted := drifted + {path};
      }
    }
    assert doubtful[..|doubtful|] == doubtful;
  }

  // Both passes over one side give every path its verdict.
  method AuditSide(side: Side, base: Tree, snapshot: map<Path, Observation>, hashed: Path -> Observation,
                   signatures: Signatures, paths: seq<Path>, ignored: Path -> bool)
    returns (drifted: set<Path>, next: Signatures)
    requires forall p :: p in base || p in snapshot || p in signatures ==> p in paths
    ensures forall p :: p in drifted <==> !ignored(p) && AuditVerdict(side, base, snapshot, hashed, signatures, p).Drifted?
    ensures forall p :: Stored(next, p) == if ignored(p) then Stored(signatures, p)
              else NextStored(AuditVerdict(side, base, snapshot, hashed, signatures, p), Stored(signatures, p))
  {
    var atOnce, updates, doubtful := LookOver(side, base, snapshot, signatures, paths, ignored);
    var later, updatesAfter := HashDoubts(base, doubtful, hashed, updates);
    drifted, next := atOnce + later, UpdateSignatures(signatures, updatesAfter);
    ghost var verdicts := FirstVerdicts(side, base, snapshot, signatures, paths, ignored);
    forall p
      ensures p in drifted <==> !ignored(p) && AuditVerdict(side, base, snapshot, hashed, signatures, p).Drifted?
      ensures Stored(next, p) == if ignored(p) then Stored(signatures, p)
              else NextStored(AuditVerdict(side, base, snapshot, hashed, signatures, p), Stored(signatures, p))
    {
      assert p in verdicts <==> p in paths && !ignored(p);
    }
  }

  // What a refresh collects for one side.
  method RefreshSide(side: Side, base: Tree, paths: seq<Path>, observed: Path -> Observation, signatures: Signatures)
    returns (drifted: set<Path>, next: Signatures)
    ensures forall p :: p in drifted <==> p in paths && AfterRefresh(side, At(base, p), observed(p)).Drifted?
    ensures forall p :: Stored(next, p) == if p !in paths then Stored(signatures, p)
              else NextStored(AfterRefresh(side, At(base, p), observed(p)), Stored(signatures, p))
  {
    var updates: Updates := map[];
    drifted := {};
    for i := 0 to |paths|
      invariant forall p :: p in drifted <==> p in paths[..i] && AfterRefresh(side, At(base, p), observed(p)).Drifted?
      invariant forall p :: p in updates <==> p in paths[..i] && AfterRefresh(side, At(base, p), observed(p)).Settles?
      invariant forall p | p in updates :: updates[p] == observed(p).signature
    {
      var path := paths[i];
      assert paths[..i + 1] == paths[..i] + [path];
      if ObservationMatches(side, observed(path).state, At(base, path)) {
        updates := updates[path := observed(path).signature];
      } else {
        drifted := drifted + {path};
      }
    }
    assert paths[..|paths|] == paths;
    next := UpdateSignatures(signatures, updates);
  }

  // What the coordinator's methods do to one side are steps of a run.
  lemma AuditIsStep(side: Side, base: Tree, before: History, after: History, snapshot: map<Path, Observation>,
                    hashed: Path -> Observation, signatures: Signatures, next: Signatures, ignored: Path -> bool)
    requires Extends(before, after) && Observed(before, after, snapshot, hashed)
    requires forall p :: Stored(next, p) == if ignored(p) then Stored(signatures, p)
               else NextStored(AuditVerdict(side, base, snapshot, hashed, signatures, p), Stored(signatures, p))
    ensures AuditedSide(side, base, Replica(before, signatures), Replica(after, next), ignored)
  {
    forall p | !ignored(p)
      ensures AuditedAt(side, At(base, p), before(p), after(p), Stored(signatures, p), Stored(next, p))
    {
      var i: nat, j: nat :| Between(before(p), i, after(p)) && Between(before(p), j, after(p))
        && SeenIn(snapshot, p) == Look(after(p), i, false) && hashed(p) == Look(after(p), j, true);
      assert Stored(next, p) == NextStored(AfterHashing(side, At(base, p), Look(after(p), i, false), Look(after(p), j, true),
                                                        Stored(signatures, p)), Stored(signatures, p));
    }
  }

  // Some version between `before` and `after`, with its hash, is what was observed.
  ghost predicate CameUpon(before: Versions, after: Versions, observed: Observation) {
    exists i: nat :: Between(before, i, after) && observed == Look(after, i, true)
  }

  lemma RefreshIsStep(side: Side, base: Tree, before: History, after: History, observed: Path -> Observation,
                      signatures: Signatures, next: Signatures, paths: set<Path>)
    requires Extends(before, after)
    requires forall p :: CameUpon(before(p), after(p), observed(p))
    requires forall p :: Stored(next, p) == if p !in paths then Stored(signatures, p)
               else NextStored(AfterRefresh(side, At(base, p), observed(p)), Stored(signatures, p))
    ensures RefreshedSide(side, base, Replica(before, signatures), Replica(after, next), paths)
  {
    forall p | p in paths
      ensures RefreshedAt(side, At(base, p), before(p), after(p), Stored(signatures, p), Stored(next, p))
    {
      assert CameUpon(before(p), after(p), observed(p));
    }
  }

  class AuditCoordinator {
    const ignored: Path -> bool
    var localSignatures: Signatures
    var remoteSignatures: Signatures

    constructor (ignored: Path -> bool)
      ensures this.ignored == ignored && localSignatures == map[] && remoteSignatures == map[]
    {
      this.ignored := ignored;
      localSignatures, remoteSignatures := map[], map[];
    }

    // Requeues what drifted from the base.  The snapshots are what each side reported of metadata,
    // `hashLocal` and `hashRemote` what it reports when asked for hashes later on.
    method RecordDrift(base: Tree, localSnapshot: map<Path, Observation>, remoteSnapshot: map<Path, Observation>,
                       hashLocal: Path -> Observation, hashRemote: Path -> Observation)
      returns (dirty: set<Path>)
      modifies this
      ensures forall p :: p in dirty <==>
                !ignored(p) && (AuditVerdict(Local, base, localSnapshot, hashLocal, old(localSignatures), p).Drifted?
                                || AuditVerdict(Remote, base, remoteSnapshot, hashRemote, old(remoteSignatures), p).Drifted?)
      ensures forall p :: Stored(localSignatures, p) == if ignored(p) then Stored(old(localSignatures), p)
                else NextStored(AuditVerdict(Local, base, localSnapshot, hashLocal, old(localSignatures), p), Stored(old(localSignatures), p))
      ensures forall p :: Stored(remoteSignatures, p) == if ignored(p) then Stored(old(remoteSignatures), p)
                else NextStored(AuditVerdict(Remote, base, remoteSnapshot, hashRemote, old(remoteSignatures), p), Stored(old(remoteSignatures), p))
    {
      var known := base.Keys + localSnapshot.Keys + remoteSnapshot.Keys + localSignatures.Keys + remoteSignatures.Keys;
      var paths := Listing(known);
      assert forall p :: p in known ==> p in ToSet(paths) && p in paths;
      var localDrift, nextLocal := AuditSide(Local, base, localSnapshot, hashLocal, localSignatures, paths, ignored);
      var remoteDrift, nextRemote := AuditSide(Remote, base, remoteSnapshot, hashRemote, remoteSignatures, paths, ignored);
      localSignatures, remoteSignatures := nextLocal, nextRemote;
      dirty := localDrift + remoteDrift;
    }

    // Takes over the signatures of paths just committed; what does not match the base is requeued.
    method Refresh(base: Tree, paths: seq<Path>, observedLocal: Path -> Observation, observedRemote: Path -> Observation)
      returns (dirty: set<Path>)
      modifies this
      ensures forall p :: p in dirty <==>
                p in paths && !(ObservationMatches(Local, observedLocal(p).state, At(base, p))
                                && ObservationMatches(Remote, observedRemote(p).state, At(base, p)))
      ensures forall p :: Stored(localSignatures, p) == if p !in paths then Stored(old(localSignatures), p)
                else NextStored(AfterRefresh(Local, At(base, p), observedLocal(p)), Stored(old(localSignatures), p))
      ensures forall p :: Stored(remoteSignatures, p) == if p !in paths then Stored(old(remoteSignatures), p)
                else NextStored(AfterRefresh(Remote, At(base, p), observedRemote(p)), Stored(old(remoteSignatures), p))
    {
      var localDrift, nextLocal := RefreshSide(Local, base, paths, observedLocal, localSignatures);
      var remoteDrift, nextRemote := RefreshSide(Remote, base, paths, observedRemote, remoteSignatures);
      localSignatures, remoteSignatures := nextLocal, nextRemote;
      dirty := localDrift + remoteDrift;
    }
  }
}
