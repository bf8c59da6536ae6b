/**
 What can happen to one path when users keep writing on both sides while cycles plan, transfer,
 delete, commit or die.

 The engine changes a replica only through a transfer or a deletion, each of which checks the
 destination against what was planned in the same atomic step in which it replaces or removes it.
 Different paths do not interact: a transfer may create directories above its path, but only where
 nothing was.
 */
module EditSafety {
  import opened Wrappers
  import opened Journal
  import opened Entries
  import opened Reconcile
  import opened Planning

  // Where a cycle is with this path.
  datatype Progress =
    | Idle
    | Collecting(seenLocal: Option<State>, seenRemote: Option<State>)
    | Planned(decision: Decision)
    | Installed(source: Side, moved: State)
    | Verified(source: Side, moved: State)
    | Removed(from: Side)
    | Ready(baseAfter: State)

  // Something a sync step replaced or removed: what it was, the base at that time, and everything
  // the other side had held by then.
  datatype Loss = Loss(destroyed: State, base: State, heldByOther: set<State>)

  datatype World = World(
    local: State,
    remote: State,
    base: State,
    progress: Progress,
    // History: all that each side has held, all that was destroyed, and whether every destination
    // read before a commit showed content that the source of the transfer has held.
    heldLocal: set<State>,
    heldRemote: set<State>,
    losses: seq<Loss>,
    cleanReads: bool)
  {
    function On(side: Side): State {
      if side.Local? then local else remote
    }

    function Held(side: Side): set<State> {
      if side.Local? then heldLocal else heldRemote
    }

    function Put(side: Side, s: State): World {
      if side.Local? then this.(local := s, heldLocal := heldLocal + {s})
      else this.(remote := s, heldRemote := heldRemote + {s})
    }
  }

  // The content was there before.
  predicate HeldLike(held: set<State>, s: State) {
    exists h | h in held :: ContentEqual(h, s)
  }

  function Other(side: Side): Side {
    if side.Local? then Remote else Local
  }

  datatype Step =
    | UserWrites(side: Side, written: State)
    | Begin
    | Look(side: Side, withHash: bool)
    | Decides
    | Transfers(delivered: State)
    | Verifies
    | ReadsDestination
    | Deletes
    | ConfirmsGone
    | TakesBase
    | Commits
    | Dies

  // A full, storable state.
  predicate Storable(s: State) {
    Hashed(s) && Plain(s)
  }

  // Equal size, time and mode mean equal content, among everything ever held at the path.
  ghost predicate FreshMetadata(w: World, s: State) {
    forall h | h in w.heldLocal + w.heldRemote && QuickEqual(s, h) :: ContentEqual(s, h)
  }

  ghost predicate ValidStep(w: World, step: Step) {
    match step
    case UserWrites(_, s) => Storable(s) && FreshMetadata(w, s)
    case Transfers(s) =>
      Storable(s) && FreshMetadata(w, s)
      && (Direction(w).Some? ==> ContentEqual(s, w.On(Direction(w).value)))
    case _ => true
  }

  // The source side of a planned transfer.
  function Direction(w: World): Option<Side> {
    if !w.progress.Planned? || !w.progress.decision.Act? then None
    else match w.progress.decision.action
      case Push => Some(Local)
      case Pull => Some(Remote)
      case _ => None
  }

  function DeletesFrom(w: World): Option<Side> {
    if !w.progress.Planned? || !w.progress.decision.Act? then None
    else match w.progress.decision.action
      case DeleteLocal => Some(Local)
      case DeleteRemote => Some(Remote)
      case _ => None
  }

  function Expected(d: Decision, side: Side): State
    requires d.Act?
  {
    if side.Local? then d.local else d.remote
  }

  function Lose(w: World, side: Side): seq<Loss> {
    if w.On(side).Missing? then w.losses
    else w.losses + [Loss(w.On(side), w.base, w.Held(Other(side)))]
  }

  function SeenOn(w: World, side: Side, withHash: bool): State {
    if withHash then w.On(side) else Metadata(w.On(side))
  }

  // The remote side never deletes a symbolic link.
  predicate LeavesUndone(side: Side, s: State) {
    side.Remote? && IsLink(s)
  }

  // Any check that fails ends the cycle for this path, with its base as it was.
  function Next(w: World, step: Step): World {
    match step
    case UserWrites(side, s) => w.Put(side, s)
    case Begin => if w.progress.Idle? then w.(progress := Collecting(None, None)) else w
    case Look(side, withHash) =>
      if !w.progress.Collecting? then w
      else if side.Local? then w.(progress := w.progress.(seenLocal := Some(SeenOn(w, side, withHash))))
      else w.(progress := w.progress.(seenRemote := Some(SeenOn(w, side, withHash))))
    case Decides =>
      if w.progress.Collecting? && w.progress.seenLocal.Some? && w.progress.seenRemote.Some? then
        var d := Decide(w.base, w.progress.seenLocal.value, w.progress.seenRemote.value);
        if d.NeedHash? then w else w.(progress := Planned(d))
      else w
    case Transfers(delivered) =>
      (match Direction(w)
       case None => w
       case Some(source) =>
         var d, destination := w.progress.decision, Other(source);
         if AsPlanned(Expected(d, source), w.On(source)) && AsPlanned(Expected(d, destination), w.On(destination))
         then w.(losses := Lose(w, destination), progress := Installed(source, w.On(source))).Put(destination, delivered)
         else w.(progress := Idle))
    case Verifies =>
      if !w.progress.Installed? then w
      else
        var source := w.progress.source;
        if w.On(source) == w.progress.moved && ContentEqual(w.On(source), w.On(Other(source)))
        then w.(progress := Verified(source, w.progress.moved)) else w.(progress := Idle)
    case ReadsDestination =>
      if !w.progress.Verified? then w
      else
        var seen := w.On(Other(w.progress.source));
        if seen.Missing? then w.(progress := Idle)
        else w.(progress := Ready(seen), cleanReads := w.cleanReads && HeldLike(w.Held(w.progress.source), seen))
    case Deletes =>
      (match DeletesFrom(w)
       case None => w
       case Some(side) =>
         if DeleteMatches(Expected(w.progress.decision, side), w.On(side)) && !LeavesUndone(side, w.On(side))
         then w.(losses := Lose(w, side), progress := Removed(side)).Put(side, Missing)
         else w.(progress := Idle))
    case ConfirmsGone =>
      if !w.progress.Removed? then w
      else if w.On(w.progress.from).Missing? then w.(progress := Ready(Missing)) else w.(progress := Idle)
    case TakesBase =>
      if w.progress.Planned? && w.progress.decision.Act? && w.progress.decision.action.UpdateBase?
      then w.(progress := Ready(w.progress.decision.baseAfter)) else w
    case Commits => if w.progress.Ready? then w.(base := w.progress.baseAfter, progress := Idle) else w
    case Dies => w.(progress := Idle)
  }

  // Both sides start with something; there is no base yet.
  function Start(local: State, remote: State): World {
    World(local, remote, Missing, Idle, {local}, {remote}, [], true)
  }

  ghost predicate ValidStart(local: State, remote: State) {
    Storable(local) && Storable(remote) && (QuickEqual(local, remote) ==> ContentEqual(local, remote))
  }

  // ---------------------------------------------------------------- invariants

  // Both sides have held the content of `s`.
  ghost predicate Shared(w: World, s: State) {
    s.Present? ==> HeldLike(w.heldLocal, s) && HeldLike(w.heldRemote, s)
  }

  ghost predicate HistoryInv(w: World) {
    && w.local in w.heldLocal && w.remote in w.heldRemote
    && (forall h | h in w.heldLocal + w.heldRemote :: Storable(h))
    && (forall a, b | a in w.heldLocal + w.heldRemote && b in w.heldLocal + w.heldRemote ::
          QuickEqual(a, b) ==> ContentEqual(a, b))
    && (w.base.Present? ==> w.base in w.heldLocal + w.heldRemote)
  }

  ghost predicate ComesFrom(held: set<State>, seen: State) {
    exists h :: h in held && SeenAs(seen, h)
  }

  // A planned replacement or removal hits nothing but the base entry.
  predicate HitsBaseOnly(base: State, d: Decision) {
    d.Act? ==> match d.action
      case Push => d.remote.Missing? || (base.Present? && MatchesBase(d.remote, base))
      case Pull => d.local.Missing? || (base.Present? && MatchesBase(d.local, base))
      case DeleteLocal => base.Present? && MatchesBase(d.local, base)
      case DeleteRemote => base.Present? && MatchesBase(d.remote, base)
      case UpdateBase => true
  }

  ghost predicate ProgressInv(w: World) {
    match w.progress
    case Idle => true
    case Collecting(l, r) =>
      && (l.Some? ==> ComesFrom(w.heldLocal, l.value)) && (r.Some? ==> ComesFrom(w.heldRemote, r.value))
    case Planned(d) =>
      && HitsBaseOnly(w.base, d)
      && (d.Act? && d.action.UpdateBase? ==>
            d.baseAfter.Missing? || (d.baseAfter in w.heldLocal + w.heldRemote && Shared(w, d.baseAfter)))
    case Installed(source, moved) => moved in w.Held(source)
    case Verified(source, moved) => moved in w.Held(source)
    case Removed(_) => true
    case Ready(b) => b.Present? ==> b in w.heldLocal + w.heldRemote
  }

  // While every read before a commit was clean, the base is common property.
  ghost predicate SharingInv(w: World) {
    w.cleanReads ==> Shared(w, w.base) && (w.progress.Ready? ==> Shared(w, w.progress.baseAfter))
  }

  ghost predicate Inv(w: World) {
    HistoryInv(w) && ProgressInv(w) && SharingInv(w)
  }

  // What was destroyed was the content of the base entry.
  ghost predicate OnlyBaseDestroyed(w: World) {
    forall i | 0 <= i < |w.losses| ::
      w.losses[i].base.Present? && ContentEqual(w.losses[i].destroyed, w.losses[i].base)
  }

  // What was destroyed the other side had held too.
  ghost predicate NothingLost(w: World) {
    forall i | 0 <= i < |w.losses| :: HeldLike(w.losses[i].heldByOther, w.losses[i].destroyed)
  }

  lemma ContentChains(a: State, b: State, c: State)
    requires ContentEqual(a, b) && (ContentEqual(b, c) || ContentEqual(c, b))
    ensures ContentEqual(a, c) && ContentEqual(b, a)
  {
  }

  // The state a check lets through is the base content.
  lemma CheckedIsBase(w: World, expected: State, observed: State)
    requires HistoryInv(w) && w.base.Present? && MatchesBase(expected, w.base)
    requires observed in w.heldLocal + w.heldRemote
    requires AsPlanned(expected, observed) || DeleteMatches(expected, observed)
    ensures ContentEqual(observed, w.base)
  {
    assert QuickEqual(observed, w.base) ==> ContentEqual(observed, w.base);
  }

  lemma PlansHitBaseOnly(base: State, l: State, r: State)
    ensures HitsBaseOnly(base, Decide(base, l, r))
  {
  }

  lemma HeldGrows(held: set<State>, more: set<State>, x: State)
    requires held <= more
    ensures HeldLike(held, x) ==> HeldLike(more, x)
    ensures ComesFrom(held, x) ==> ComesFrom(more, x)
  {
    if HeldLike(held, x) {
      var h :| h in held && ContentEqual(h, x);
      assert h in more;
    }
    if ComesFrom(held, x) {
      var h :| h in held && SeenAs(x, h);
      assert h in more;
    }
  }

  lemma PutKeepsShared(w: World, side: Side, s: State)
    ensures forall x :: Shared(w, x) ==> Shared(w.Put(side, s), x)
    ensures forall x :: ComesFrom(w.heldLocal, x) ==> ComesFrom(w.Put(side, s).heldLocal, x)
    ensures forall x :: ComesFrom(w.heldRemote, x) ==> ComesFrom(w.Put(side, s).heldRemote, x)
  {
    var v := w.Put(side, s);
    forall x
      ensures Shared(w, x) ==> Shared(v, x)
    {
      HeldGrows(w.heldLocal, v.heldLocal, x);
      HeldGrows(w.heldRemote, v.heldRemote, x);
    }
    forall x
      ensures ComesFrom(w.heldLocal, x) ==> ComesFrom(v.heldLocal, x)
    {
      HeldGrows(w.heldLocal, v.heldLocal, x);
    }
    forall x
      ensures ComesFrom(w.heldRemote, x) ==> ComesFrom(v.heldRemote, x)
    {
      HeldGrows(w.heldRemote, v.heldRemote, x);
    }
  }

  lemma PutKeepsHistory(w: World, side: Side, s: State)
    requires HistoryInv(w) && Storable(s) && FreshMetadata(w, s)
    ensures HistoryInv(w.Put(side, s))
  {
    var v := w.Put(side, s);
    forall a, b | a in v.heldLocal + v.heldRemote && b in v.heldLocal + v.heldRemote && QuickEqual(a, b)
      ensures ContentEqual(a, b)
    {
      if a == s && b != s { assert ContentEqual(s, b); }
      if b == s && a != s { assert QuickEqual(s, a) && ContentEqual(s, a); }
    }
  }

  // ---------------------------------------------------------------- every step

  lemma WriteKeepsInv(w: World, side: Side, s: State)
    requires Inv(w) && Storable(s) && FreshMetadata(w, s)
    ensures Inv(w.Put(side, s))
  {
    PutKeepsHistory(w, side, s);
    PutKeepsShared(w, side, s);
  }

  lemma LookKeepsInv(w: World, side: Side, withHash: bool)
    requires Inv(w)
    ensures Inv(Next(w, Look(side, withHash)))
  {
    var seen := SeenOn(w, side, withHash);
    assert SeenAs(seen, w.On(side));
    assert ComesFrom(w.Held(side), seen);
  }

  lemma DecideKeepsInv(w: World)
    requires Inv(w)
    ensures Inv(Next(w, Decides))
  {
    if w.progress.Collecting? && w.progress.seenLocal.Some? && w.progress.seenRemote.Some? {
      var l, r := w.progress.seenLocal.value, w.progress.seenRemote.value;
      PlansHitBaseOnly(w.base, l, r);
      var a :| a in w.heldLocal && SeenAs(l, a);
      var b :| b in w.heldRemote && SeenAs(r, b);
      UpdateIsShared(w, l, r, a, b);
    }
  }

  // A base update takes over an entry both sides have been seen to hold.
  lemma UpdateIsShared(w: World, l: State, r: State, a: State, b: State)
    requires HistoryInv(w) && a in w.heldLocal && b in w.heldRemote && SeenAs(l, a) && SeenAs(r, b)
    ensures var d := Decide(w.base, l, r);
            d.Act? && d.action.UpdateBase? ==>
              d.baseAfter.Missing? || (d.baseAfter in w.heldLocal + w.heldRemote && Shared(w, d.baseAfter))
  {
    assert Storable(a) && Storable(b);
    UpdateTakesOver(w.base, l, r, a, b);
  }

  lemma UpdateTakesOver(base: State, l: State, r: State, a: State, b: State)
    requires SeenAs(l, a) && SeenAs(r, b) && Storable(a) && Storable(b)
    ensures var d := Decide(base, l, r);
            d.Act? && d.action.UpdateBase? && d.baseAfter.Present? ==>
              d.baseAfter == b && ContentEqual(a, b) && ContentEqual(b, b)
  {
    var d := Decide(base, l, r);
    if d.Act? && d.action.UpdateBase? && d.baseAfter.Present? {
      assert ContentEqual(l, r) && l.Present?;
      assert l == a && r == b;
    }
  }

  lemma TransferKeepsInv(w: World, delivered: State)
    requires Inv(w) && ValidStep(w, Transfers(delivered))
    ensures Inv(Next(w, Transfers(delivered)))
  {
    if Direction(w).Some? {
      WriteKeepsInv(w.(progress := Idle), Other(Direction(w).value), delivered);
    }
  }

  // What a transfer replaces is the base content, if there is anything to replace.
  lemma TransferHitsBase(w: World, delivered: State)
    requires Inv(w) && ValidStep(w, Transfers(delivered))
    ensures Next(w, Transfers(delivered)).losses != w.losses ==>
              var destination := w.On(Other(Direction(w).value));
              w.base.Present? && ContentEqual(destination, w.base)
  {
    if Direction(w).Some? {
      var source := Direction(w).value;
      var expected := Expected(w.progress.decision, Other(source));
      if expected.Present? && AsPlanned(expected, w.On(Other(source))) {
        CheckedIsBase(w, expected, w.On(Other(source)));
      }
    }
  }

  lemma DeleteKeepsInv(w: World)
    requires Inv(w)
    ensures Inv(Next(w, Deletes))
    ensures Next(w, Deletes).losses != w.losses ==>
              w.base.Present? && ContentEqual(w.On(DeletesFrom(w).value), w.base)
  {
    if DeletesFrom(w).Some? {
      var side := DeletesFrom(w).value;
      WriteKeepsInv(w.(progress := Idle), side, Missing);
      var expected := Expected(w.progress.decision, side);
      if DeleteMatches(expected, w.On(side)) {
        CheckedIsBase(w, expected, w.On(side));
      }
    }
  }

  lemma ReadKeepsInv(w: World)
    requires Inv(w)
    ensures Inv(Next(w, ReadsDestination))
  {
    if w.progress.Verified? {
      var source := w.progress.source;
      var seen := w.On(Other(source));
      if seen.Present? && HeldLike(w.Held(source), seen) {
        var h :| h in w.Held(source) && ContentEqual(h, seen);
        ContentChains(h, seen, h);
        ContentChains(seen, h, seen);
        assert seen in w.Held(Other(source)) && ContentEqual(seen, seen);
      }
    }
  }

  lemma StepKeepsInv(w: World, step: Step)
    requires Inv(w) && ValidStep(w, step)
    ensures Inv(Next(w, step))
  {
    if step.UserWrites? { WriteKeepsInv(w, step.side, step.written); }
    else if step.Look? { LookKeepsInv(w, step.side, step.withHash); }
    else if step.Decides? { DecideKeepsInv(w); }
    else if step.Transfers? { TransferKeepsInv(w, step.delivered); }
    else if step.Deletes? { DeleteKeepsInv(w); }
    else if step.ReadsDestination? { ReadKeepsInv(w); }
  }

  // One more loss of base content.
  ghost predicate MayLose(w: World, v: World, side: Side) {
    && (v.losses == w.losses || v.losses == Lose(w, side))
    && (v.losses != w.losses ==> w.base.Present? && ContentEqual(w.On(side), w.base))
    && v.cleanReads == w.cleanReads
  }

  lemma LossIsOfBase(w: World, v: World, side: Side)
    requires Inv(w) && MayLose(w, v, side)
    ensures OnlyBaseDestroyed(w) ==> OnlyBaseDestroyed(v)
    ensures w.cleanReads && NothingLost(w) ==> NothingLost(v)
  {
    LostWasShared(w, side);
  }

  lemma StepDestroysBaseOnly(w: World, step: Step)
    requires Inv(w) && ValidStep(w, step)
    ensures OnlyBaseDestroyed(w) ==> OnlyBaseDestroyed(Next(w, step))
    ensures w.cleanReads && NothingLost(w) ==> NothingLost(Next(w, step))
    ensures Next(w, step).cleanReads ==> w.cleanReads
  {
    hide Inv, OnlyBaseDestroyed, NothingLost;
    if step.Transfers? {
      TransferHitsBase(w, step.delivered);
      var side := if Direction(w).Some? then Other(Direction(w).value) else Local;
      LossIsOfBase(w, Next(w, step), side);
    } else if step.Deletes? {
      DeleteKeepsInv(w);
      LossIsOfBase(w, Next(w, step), if DeletesFrom(w).Some? then DeletesFrom(w).value else Local);
    } else {
      SameLosses(w, Next(w, step));
    }
  }

  lemma SameLosses(w: World, v: World)
    requires v.losses == w.losses
    ensures OnlyBaseDestroyed(w) ==> OnlyBaseDestroyed(v)
    ensures NothingLost(w) ==> NothingLost(v)
  {
  }

  // While the base is common property, base content on one side has been held by the other.
  lemma LostWasShared(w: World, side: Side)
    requires Inv(w)
    ensures w.cleanReads && w.base.Present? && ContentEqual(w.On(side), w.base) ==> HeldLike(w.Held(Other(side)), w.On(side))
  {
    if w.cleanReads && w.base.Present? && ContentEqual(w.On(side), w.base) {
      var h :| h in w.Held(Other(side)) && ContentEqual(h, w.base);
      ContentChains(h, w.base, w.On(side));
    }
  }

  // ---------------------------------------------------------------- every run

  ghost predicate Trace(worlds: seq<World>, steps: seq<Step>) {
    && |worlds| == |steps| + 1
    && (exists l: State, r: State :: ValidStart(l, r) && worlds[0] == Start(l, r))
    && forall i | 0 <= i < |steps| :: ValidStep(worlds[i], steps[i]) && worlds[i + 1] == Next(worlds[i], steps[i])
  }

  ghost predicate Reachable(w: World) {
    exists worlds: seq<World>, steps: seq<Step> :: Trace(worlds, steps) && worlds[|steps|] == w
  }

  lemma StartIsReachable(local: State, remote: State)
    requires ValidStart(local, remote)
    ensures Reachable(Start(local, remote))
  {
    assert Trace([Start(local, remote)], []);
  }

  lemma StepIsReachable(w: World, step: Step)
    requires Reachable(w) && ValidStep(w, step)
    ensures Reachable(Next(w, step))
  {
    var worlds: seq<World>, steps: seq<Step> :| Trace(worlds, steps) && worlds[|steps|] == w;
    var more := worlds + [Next(w, step)];
    assert Trace(more, steps + [step]) by {
      assert more[0] == worlds[0];
    }
  }

  lemma {:induction false} TraceInv(worlds: seq<World>, steps: seq<Step>, i: nat)
    requires Trace(worlds, steps) && i < |worlds|
    ensures Inv(worlds[i]) && OnlyBaseDestroyed(worlds[i]) && (worlds[i].cleanReads ==> NothingLost(worlds[i]))
  {
    if i > 0 {
      TraceInv(worlds, steps, i - 1);
      StepKeepsInv(worlds[i - 1], steps[i - 1]);
      StepDestroysBaseOnly(worlds[i - 1], steps[i - 1]);
    }
  }

  // In every run, whatever a sync step overwrites or deletes has the content of the base entry.  As
  // long as every destination read before a commit shows content that the source has held, the base is
  // content both sides have held, and nothing is destroyed that the other side has not held.
  lemma NoUnsyncedEditDestroyed(worlds: seq<World>, steps: seq<Step>, i: nat)
    requires Trace(worlds, steps) && i < |worlds|
    ensures OnlyBaseDestroyed(worlds[i])
    ensures worlds[i].cleanReads ==> Shared(worlds[i], worlds[i].base) && NothingLost(worlds[i])
  {
    TraceInv(worlds, steps, i);
  }

  // The read before the commit decides: the new base is common property exactly when the source
  // side has held the content then found at the destination.
  lemma ReadDecidesSharing(w: World)
    requires Inv(w) && w.progress.Verified? && w.On(Other(w.progress.source)).Present?
    ensures var source := w.progress.source;
            var v := Next(Next(w, ReadsDestination), Commits);
            && v.base == w.On(Other(source))
            && (!IsSpecial(v.base) ==> (Shared(v, v.base) <==> HeldLike(w.Held(source), w.On(Other(source)))))
  {
    var seen := w.On(Other(w.progress.source));
    if !IsSpecial(seen) { assert ContentEqual(seen, seen); }
  }

  // ---------------------------------------------------------------- a cycle nobody disturbs

  // The steps of a cycle in order; those that do not apply change nothing.
  function AsPlannedIn(w: World): World {
    Next(Next(Next(Next(w, Begin), Look(Local, true)), Look(Remote, true)), Decides)
  }

  function Installs(w: World, delivered: State): World {
    Next(Next(Next(w, Transfers(delivered)), Verifies), ReadsDestination)
  }

  function Removes(w: World): World {
    Next(Next(w, Deletes), ConfirmsGone)
  }

  function Ends(w: World): World {
    Next(Next(Next(w, TakesBase), Commits), Dies)
  }

  function QuietCycle(w: World, delivered: State): World {
    Ends(Removes(Installs(AsPlannedIn(w), delivered)))
  }

  // What such a cycle leaves on the two sides and in the base.
  ghost predicate Leaves(v: World, local: State, remote: State, base: State) {
    v.progress.Idle? && v.local == local && v.remote == remote && v.base == base
  }

  // It carries the change of one side over to the other, and so to the base: what is delivered, or a
  // deletion, unless it is that of a link on the remote side.  Where both sides changed it changes nothing.
  lemma QuietCycleMerges(w: World, delivered: State)
    requires Inv(w) && w.progress.Idle?
    requires !IsSpecial(w.base) && !IsSpecial(w.local) && !IsSpecial(w.remote)
    ensures var v := QuietCycle(w, delivered);
            var same, l, r := ContentEqual(w.local, w.remote), ContentEqual(w.local, w.base), ContentEqual(w.remote, w.base);
            var split := KindsDiffer(w.local, w.remote);
            && (same ==> Leaves(v, w.local, w.remote, v.base) && ContentEqual(v.base, w.local))
            && (w.local.Present? && r && !l && !split && ContentEqual(delivered, w.local) ==>
                  Leaves(v, w.local, delivered, delivered))
            && (w.remote.Present? && l && !r && !split && ContentEqual(delivered, w.remote) ==>
                  Leaves(v, delivered, w.remote, delivered))
            && (w.local.Present? && w.remote.Missing? && l ==> Leaves(v, Missing, Missing, Missing))
            && (w.local.Missing? && w.remote.Present? && r ==>
                  if IsLink(w.remote) then Leaves(v, Missing, w.remote, w.base) else Leaves(v, Missing, Missing, Missing))
            && (split || (!same && !l && !r) ==> Leaves(v, w.local, w.remote, w.base))
  {
    hide Inv, Next, Installs, Removes, Ends, AsPlannedIn;
    var d := Decide(w.base, w.local, w.remote);
    FullyHashed(w);
    ThreeWayMerge(w.base, w.local, w.remote);
    PlansInFull(w, d);
    CarriesOut(w, d, delivered);
  }

  lemma FullyHashed(w: World)
    requires Inv(w)
    ensures Storable(w.local) && Storable(w.remote) && Storable(w.base)
  {
  }

  lemma PlansInFull(w: World, d: Decision)
    requires w.progress.Idle? && Storable(w.local) && Storable(w.remote) && d == Decide(w.base, w.local, w.remote)
    ensures !d.NeedHash? && AsPlannedIn(w) == w.(progress := Planned(d))
  {
  }

  lemma CarriesOut(w: World, d: Decision, delivered: State)
    requires w.progress.Idle? && (d.Act? ==> d.local == w.local && d.remote == w.remote)
    requires d.Act? && d.action.DeleteLocal? ==> w.local.Present?
    requires d.Act? && d.action.DeleteRemote? ==> w.remote.Present?
    ensures var v := Ends(Removes(Installs(w.(progress := Planned(d)), delivered)));
            if !d.Act? then Leaves(v, w.local, w.remote, w.base)
            else match d.action
              case UpdateBase => Leaves(v, w.local, w.remote, d.baseAfter)
              case Push => ContentEqual(w.local, delivered) && delivered.Present? ==> Leaves(v, w.local, delivered, delivered)
              case Pull => ContentEqual(w.remote, delivered) && delivered.Present? ==> Leaves(v, delivered, w.remote, delivered)
              case DeleteLocal => Leaves(v, Missing, w.remote, Missing)
              case DeleteRemote => if IsLink(w.remote) then Leaves(v, w.local, w.remote, w.base)
                                   else Leaves(v, w.local, Missing, Missing)
  {
    hide Installs, Removes, Ends, IsLink;
    var p := w.(progress := Planned(d));
    InstallsWhat(w, d, delivered);
    RemovesWhat(w, d);
    var i := Installs(p, delivered);
    if i == p || i.progress.Ready? { RestOfCycle(i, Removes(i)); }
  }

  lemma InstallsWhat(w: World, d: Decision, delivered: State)
    requires d.Act? ==> d.local == w.local && d.remote == w.remote
    ensures var v := Installs(w.(progress := Planned(d)), delivered);
            && (!d.Act? || (!d.action.Push? && !d.action.Pull?) ==> v == w.(progress := Planned(d)))
            && (d.Act? && d.action.Push? && ContentEqual(w.local, delivered) && delivered.Present? ==>
                  v.progress == Ready(delivered) && v.local == w.local && v.remote == delivered && v.base == w.base)
            && (d.Act? && d.action.Pull? && ContentEqual(w.remote, delivered) && delivered.Present? ==>
                  v.progress == Ready(delivered) && v.local == delivered && v.remote == w.remote && v.base == w.base)
  {
    hide ContentEqual, HeldLike;
  }

  lemma RemovesWhat(w: World, d: Decision)
    requires d.Act? ==> d.local == w.local && d.remote == w.remote
    ensures var p := w.(progress := Planned(d));
            var v := Removes(p);
            if d.Act? && d.action.DeleteLocal? then
              v.progress == Ready(Missing) && v.local.Missing? && v.remote == w.remote && v.base == w.base
            else if d.Act? && d.action.DeleteRemote? then
              if IsLink(w.remote) then v == w.(progress := Idle)
              else v.progress == Ready(Missing) && v.remote.Missing? && v.local == w.local && v.base == w.base
            else v == p
  {
  }

  lemma RestOfCycle(i: World, r: World)
    requires r == Removes(i)
    ensures i.progress.Ready? ==> r == i && Leaves(Ends(i), i.local, i.remote, i.progress.baseAfter)
    ensures r.progress.Ready? ==> Leaves(Ends(r), r.local, r.remote, r.progress.baseAfter)
    ensures r.progress.Idle? ==> Leaves(Ends(r), r.local, r.remote, r.base)
    ensures r.progress.Planned? ==>
              Leaves(Ends(r), r.local, r.remote,
                     if r.progress.decision.Act? && r.progress.decision.action.UpdateBase? then r.progress.decision.baseAfter
                     else r.base)
  {
  }

  // What the checks between a change and its commit are worth: a base is taken over only where the
  // source has stayed and the destination has its content, or where what was removed is still gone;
  // read at once after that, the destination shows nothing the source has not held.
  lemma ChecksDecideTheBase(w: World)
    requires Inv(w)
    ensures w.progress.Installed? ==>
              var source := w.progress.source;
              var v := Next(Next(Next(w, Verifies), ReadsDestination), Commits);
              && v.base == (if w.On(source) == w.progress.moved && ContentEqual(w.On(source), w.On(Other(source)))
                               && w.On(Other(source)).Present? then w.On(Other(source)) else w.base)
              && v.cleanReads == w.cleanReads && v.progress.Idle?
    ensures w.progress.Verified? ==>
              var destination := w.On(Other(w.progress.source));
              var v := Next(Next(w, ReadsDestination), Commits);
              v.base == (if destination.Present? then destination else w.base) && v.progress.Idle?
    ensures w.progress.Removed? ==>
              var v := Next(Next(w, ConfirmsGone), Commits);
              v.base == (if w.On(w.progress.from).Missing? then Missing else w.base) && v.progress.Idle?
  {
    if w.progress.Installed? {
      assert w.progress.moved in w.Held(w.progress.source);
    }
  }

  // Looked at by metadata, files that both show the base's size, time and mode are left alone, whatever
  // they hold.
  lemma MetadataIsTrusted(w: World)
    requires Inv(w) && w.progress.Idle? && QuickEqual(w.local, w.base) && QuickEqual(w.remote, w.base)
    ensures Next(Next(Next(Next(w, Begin), Look(Local, false)), Look(Remote, false)), Decides).progress == Planned(NoChange)
  {
    FullyHashed(w);
  }
}
