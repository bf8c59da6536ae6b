/**
 When an edit can be destroyed that the other side never had.

 A transfer is installed and verified; before the destination is read for the commit, its user may
 write.  The read makes that write the base, and a later cycle takes it for content both sides know.
 What the read shows decides: an edit can be lost afterwards, without any further such race, exactly
 when the source has never held the content that was read.
 */
module EditLoss {
  import opened Wrappers
  import opened Journal
  import opened Entries
  import opened Reconcile
  import opened Planning
  import opened EditSafety

  // ---------------------------------------------------------------- runs that go on from a world

  ghost predicate Continuation(worlds: seq<World>, steps: seq<Step>) {
    && |worlds| == |steps| + 1
    && forall i | 0 <= i < |steps| :: ValidStep(worlds[i], steps[i]) && worlds[i + 1] == Next(worlds[i], steps[i])
  }

  // From here on something can be destroyed that the other side never held, although every later
  // read before a commit shows content that its source has held.
  ghost predicate CanLose(w: World) {
    exists worlds: seq<World>, steps: seq<Step> ::
      && Continuation(worlds, steps) && worlds[0] == w.(cleanReads := true)
      && worlds[|steps|].cleanReads && !NothingLost(worlds[|steps|])
  }

  // ---------------------------------------------------------------- common content stays safe

  lemma {:induction false} ContinuationIsSafe(worlds: seq<World>, steps: seq<Step>, i: nat)
    requires Continuation(worlds, steps) && i < |worlds|
    requires Inv(worlds[0]) && NothingLost(worlds[0])
    ensures Inv(worlds[i]) && (worlds[i].cleanReads ==> NothingLost(worlds[i]))
  {
    hide Inv, NothingLost;
    if i > 0 {
      ContinuationIsSafe(worlds, steps, i - 1);
      StepKeepsInv(worlds[i - 1], steps[i - 1]);
      StepDestroysBaseOnly(worlds[i - 1], steps[i - 1]);
    }
  }

  lemma SharedBaseIsSafe(w: World)
    requires Inv(w.(cleanReads := true)) && NothingLost(w)
    ensures !CanLose(w)
  {
    if CanLose(w) {
      var worlds: seq<World>, steps: seq<Step> :| Continuation(worlds, steps) && worlds[0] == w.(cleanReads := true)
        && worlds[|steps|].cleanReads && !NothingLost(worlds[|steps|]);
      ContinuationIsSafe(worlds, steps, |steps|);
      assert false;
    }
  }

  // ---------------------------------------------------------------- foreign content can be lost

  function Gone(source: Side, b: State): Decision {
    Act(if source.Local? then DeleteRemote else DeleteLocal,
        if source.Local? then Missing else b, if source.Local? then b else Missing, Missing)
  }

  // A base entry that one side still holds and the other has not is deleted.
  lemma DecidesToDelete(b: State)
    requires b.Present? && Storable(b) && !IsSpecial(b)
    ensures Decide(b, Missing, b) == Gone(Local, b) && Decide(b, b, Missing) == Gone(Remote, b)
  {
    assert ContentEqual(b, b);
  }

  // The source's user deletes; the next cycle carries the deletion out on the other side.
  lemma DeletionLoses(w: World, source: Side, b: State)
    requires w.progress.Idle? && w.base == b && w.On(Other(source)) == b
    requires b.Present? && Storable(b) && !IsSpecial(b) && !HeldLike(w.Held(source), b) && !LeavesUndone(Other(source), b)
    ensures CanLose(w)
  {
    hide NothingLost, Decide, HeldLike;
    var w0 := w.(cleanReads := true);
    var w1 := w0.Put(source, Missing);
    var w2 := w1.(progress := Collecting(None, None));
    var w3 := w1.(progress := Collecting(Some(w1.local), None));
    var w4 := w1.(progress := Collecting(Some(w1.local), Some(w1.remote)));
    DecidesToDelete(b);
    var w5 := w1.(progress := Planned(Gone(source, b)));
    var w6 := Next(w5, Deletes);
    var worlds := [w0, w1, w2, w3, w4, w5, w6];
    var steps := [UserWrites(source, Missing), Begin, Look(Local, true), Look(Remote, true), Decides, Deletes];
    assert Continuation(worlds, steps);
    assert worlds[|steps|] == w6;
    NotHeldWithMissing(w.Held(source), b);
    DeletionIsLoss(w1, source, b);
  }

  lemma NotHeldWithMissing(held: set<State>, b: State)
    requires b.Present? && !HeldLike(held, b)
    ensures !HeldLike(held + {Missing}, b)
  {
  }

  lemma DeletionIsLoss(w: World, source: Side, b: State)
    requires b.Present? && w.On(Other(source)) == b && Missing in w.Held(source) && !LeavesUndone(Other(source), b)
    requires !HeldLike(w.Held(source), b)
    ensures var v := Next(w.(progress := Planned(Gone(source, b))), Deletes);
            !NothingLost(v) && v.cleanReads == w.cleanReads
  {
    var v := Next(w.(progress := Planned(Gone(source, b))), Deletes);
    assert v.losses == w.losses + [Loss(b, w.base, w.Held(source))];
    var loss := v.losses[|w.losses|];
    assert !HeldLike(loss.heldByOther, loss.destroyed);
  }

  // Another symbolic link.
  function Relinked(b: State): State
    requires IsLink(b)
  {
    Present(b.entry.(linkTarget := Some(if b.entry.linkTarget == Some("a") then "b" else "a")))
  }

  lemma RelinkedDiffers(b: State)
    requires IsLink(b)
    ensures IsLink(Relinked(b)) && !ContentEqual(Relinked(b), b) && ContentEqual(Relinked(b), Relinked(b))
  {
    assert "a"[0] != "b"[0];
  }

  lemma DecidesToReplace(b: State)
    requires IsLink(b) && Storable(b)
    ensures Decide(b, Relinked(b), b) == Act(Push, Relinked(b), b, Relinked(b))
  {
    RelinkedDiffers(b);
  }

  // A symbolic link on the remote side is not deleted, but replaced when the local user links anew.
  lemma ReplacementLoses(w: World, b: State)
    requires w.progress.Idle? && w.base == b && w.remote == b
    requires IsLink(b) && Storable(b) && !HeldLike(w.heldLocal, b)
    ensures CanLose(w)
  {
    hide NothingLost, Decide, HeldLike;
    var c := Relinked(b);
    RelinkedDiffers(b);
    DecidesToReplace(b);
    var w0 := w.(cleanReads := true);
    var w1 := w0.Put(Local, c);
    var w2 := w1.(progress := Collecting(None, None));
    var w3 := w1.(progress := Collecting(Some(c), None));
    var w4 := w1.(progress := Collecting(Some(c), Some(b)));
    var w5 := w1.(progress := Planned(Act(Push, c, b, c)));
    var w6 := Next(w5, Transfers(c));
    var worlds := [w0, w1, w2, w3, w4, w5, w6];
    var steps := [UserWrites(Local, c), Begin, Look(Local, true), Look(Remote, true), Decides, Transfers(c)];
    assert Continuation(worlds, steps);
    assert worlds[|steps|] == w6;
    assert w6.losses == w.losses + [Loss(b, b, w.heldLocal + {c})];
    ReplacementIsLoss(w6, |w.losses|, w.heldLocal, c, b);
  }

  lemma ReplacementIsLoss(v: World, i: nat, held: set<State>, c: State, b: State)
    requires i < |v.losses| && v.losses[i] == Loss(b, b, held + {c})
    requires !HeldLike(held, b) && !ContentEqual(c, b)
    ensures !NothingLost(v)
  {
    assert !HeldLike(held + {c}, b);
  }

  // ---------------------------------------------------------------- the read decides

  function AfterRead(w: World): World {
    Next(Next(w, ReadsDestination), Commits)
  }

  // For every reachable world with a verified transfer and nothing lost so far: once the destination
  // has been read and the base committed, an edit can be lost exactly when the source has never held
  // the content that was read.
  lemma ReadDecidesLoss(w: World)
    requires Reachable(w) && NothingLost(w) && w.progress.Verified?
    requires var seen := w.On(Other(w.progress.source)); seen.Present? && !IsSpecial(seen)
    ensures CanLose(AfterRead(w)) <==> !HeldLike(w.Held(w.progress.source), w.On(Other(w.progress.source)))
  {
    var source, seen, v := w.progress.source, w.On(Other(w.progress.source)), AfterRead(w);
    ReachableInv(w);
    ReadDecidesSharing(w);
    if HeldLike(w.Held(source), seen) {
      assert Inv(v.(cleanReads := true));
      SharedBaseIsSafe(v);
    } else if LeavesUndone(Other(source), seen) {
      ReplacementLoses(v, seen);
    } else {
      DeletionLoses(v, source, seen);
    }
  }

  lemma ReachableInv(w: World)
    requires Reachable(w)
    ensures Inv(w)
  {
    var worlds: seq<World>, steps: seq<Step> :| Trace(worlds, steps) && worlds[|steps|] == w;
    TraceInv(worlds, steps, |steps|);
  }

  // A check that the destination still has the content that was transferred would exclude it.
  lemma CheckedReadIsSafe(w: World)
    requires Reachable(w) && NothingLost(w) && w.progress.Verified?
    requires ContentEqual(w.progress.moved, w.On(Other(w.progress.source))) && w.On(Other(w.progress.source)).Present?
    ensures !CanLose(AfterRead(w))
  {
    ReachableInv(w);
    assert w.progress.moved in w.Held(w.progress.source);
    ReadDecidesLoss(w);
  }

  // ---------------------------------------------------------------- overwriting instead of deleting

  // A file, a copy of it as delivered, a later edit of the copy, and a second delivery over the edit.
  ghost predicate Setting(a: State, pushed: State, b: State, again: State) {
    && IsFile(a) && IsFile(pushed) && IsFile(b) && IsFile(again)
    && Storable(a) && Storable(pushed) && Storable(b) && Storable(again)
    && ContentEqual(pushed, a) && ContentEqual(again, a) && !ContentEqual(b, a)
    && !QuickEqual(b, a) && !QuickEqual(b, pushed) && !QuickEqual(again, b)
  }

  lemma Reaches(w: World, step: Step, v: World)
    requires Reachable(w) && ValidStep(w, step) && v == Next(w, step)
    ensures Reachable(v)
  {
    StepIsReachable(w, step);
  }

  // A cycle that looks at both sides with hashes gets as far as its decision.
  lemma PlanIsReachable(w: World, d: Decision)
    requires Reachable(w) && w.progress.Idle? && d == Decide(w.base, w.local, w.remote) && !d.NeedHash?
    ensures Reachable(w.(progress := Planned(d)))
  {
    var w1 := w.(progress := Collecting(None, None));
    Reaches(w, Begin, w1);
    var w2 := w.(progress := Collecting(Some(w.local), None));
    Reaches(w1, Look(Local, true), w2);
    var w3 := w.(progress := Collecting(Some(w.local), Some(w.remote)));
    Reaches(w2, Look(Remote, true), w3);
    Reaches(w3, Decides, w.(progress := Planned(d)));
  }

  // A planned push is installed and verified.
  lemma PushIsReachable(a: State, pushed: State, b: State, again: State)
    requires Setting(a, pushed, b, again)
    ensures Reachable(World(a, pushed, Missing, Verified(Local, a), {a}, {Missing, pushed}, [], true))
  {
    StartIsReachable(a, Missing);
    var w := Start(a, Missing);
    PlanIsReachable(w, Act(Push, a, Missing, a));
    var w5 := World(a, pushed, Missing, Installed(Local, a), {a}, {Missing, pushed}, [], true);
    Reaches(w.(progress := Planned(Act(Push, a, Missing, a))), Transfers(pushed), w5);
    Reaches(w5, Verifies, w5.(progress := Verified(Local, a)));
  }

  // The remote user writes before the destination is read for the commit.
  lemma FirstCycle(a: State, pushed: State, b: State, again: State)
    requires Setting(a, pushed, b, again)
    ensures Reachable(World(a, b, b, Idle, {a}, {Missing, pushed, b}, [], false))
  {
    PushIsReachable(a, pushed, b, again);
    var w6 := World(a, pushed, Missing, Verified(Local, a), {a}, {Missing, pushed}, [], true);
    var w7 := World(a, b, Missing, Verified(Local, a), {a}, {Missing, pushed, b}, [], true);
    Reaches(w6, UserWrites(Remote, b), w7);
    var w8 := w7.(progress := Ready(b), cleanReads := false);
    Reaches(w7, ReadsDestination, w8);
    Reaches(w8, Commits, World(a, b, b, Idle, {a}, {Missing, pushed, b}, [], false));
  }

  // From there the next cycle takes the old content on the local side for the newer edit and pushes
  // it over the remote side's write, whatever the two files are.
  lemma SecondCycle(a: State, pushed: State, b: State, again: State)
    requires Setting(a, pushed, b, again)
    ensures Reachable(World(a, again, b, Installed(Local, a), {a}, {Missing, pushed, b, again}, [Loss(b, b, {a})], false))
  {
    FirstCycle(a, pushed, b, again);
    var w := World(a, b, b, Idle, {a}, {Missing, pushed, b}, [], false);
    PlanIsReachable(w, Act(Push, a, b, a));
    Reaches(w.(progress := Planned(Act(Push, a, b, a))), Transfers(again),
          World(a, again, b, Installed(Local, a), {a}, {Missing, pushed, b, again}, [Loss(b, b, {a})], false));
  }

  function FileAt(time: int, hash: string): State {
    Present(Entry(EntryKind.File, Some(1), Some(time), Some(420), None, Some(hash), false))
  }

  // A run in which the remote side's write is destroyed although the local side never held it.
  lemma AnEditCanBeLost() returns (w: World)
    ensures Reachable(w) && !w.cleanReads && !NothingLost(w)
  {
    assert "a"[0] != "b"[0];
    var a, pushed, b, again := FileAt(1, "a"), FileAt(2, "a"), FileAt(3, "b"), FileAt(4, "a");
    SecondCycle(a, pushed, b, again);
    w := World(a, again, b, Installed(Local, a), {a}, {Missing, pushed, b, again}, [Loss(b, b, {a})], false);
    assert w.losses[0] == Loss(b, b, {a});
  }
}
