/**
 The supervisor's queue of mutation requests: callers ask and wait, one worker takes requests in
 order and runs the handler, a caller may give up while its request is queued, and stopping fails
 whatever has not started.  Every step below is one region under the condition variable's lock.
 */
module MutationQueue {
  import opened Wrappers

  datatype Failure = StoppedFirst | Raised(message: string)

  datatype Progress = Queued | Started | Cancelled | Completed(result: string) | Failed(failure: Failure)

  // Two requests are equal when all of this is; a request object is known by its position.
  datatype Request = Request(kind: string, payload: string, progress: Progress)

  datatype World = World(
    requests: seq<Request>,
    queue: seq<nat>,
    stopped: bool,
    drained: bool,
    handled: seq<nat>)

  predicate HandlerCalled(p: Progress) {
    p.Started? || p.Completed? || (p.Failed? && p.failure.Raised?)
  }

  ghost predicate Increasing(s: seq<nat>) {
    forall i, j | 0 <= i < j < |s| :: s[i] < s[j]
  }

  // The queue holds exactly the queued requests, in the order they were asked for; the handler was
  // called, in that order too, exactly for the requests that got past the queue; only the last of
  // them can still be running.
  ghost predicate Inv(w: World) {
    && Increasing(w.handled + w.queue)
    && (forall id | id in w.queue :: id < |w.requests|)
    && (forall id | id in w.handled :: id < |w.requests|)
    && (forall id | 0 <= id < |w.requests| ::
          && (id in w.queue <==> w.requests[id].progress.Queued?)
          && (id in w.handled <==> HandlerCalled(w.requests[id].progress))
          && (w.requests[id].progress.Started? ==> w.handled != [] && id == w.handled[|w.handled| - 1]))
    && (w.drained ==> w.stopped && w.queue == [])
  }

  const INITIAL := World([], [], false, false, [])

  // Removing a request from the queue compares whole requests, not identities.
  function RemoveEqual(queue: seq<nat>, requests: seq<Request>, target: Request): Option<seq<nat>>
    requires forall id | id in queue :: id < |requests|
  {
    if queue == [] then None
    else
      assert queue[0] in queue;
      assert forall id | id in queue[1..] :: id in queue;
      if requests[queue[0]] == target then Some(queue[1..])
      else match RemoveEqual(queue[1..], requests, target)
        case None => None
        case Some(rest) => Some([queue[0]] + rest)
  }

  function Without(queue: seq<nat>, id: nat): seq<nat> {
    if queue == [] then []
    else if queue[0] == id then Without(queue[1..], id)
    else [queue[0]] + Without(queue[1..], id)
  }

  lemma {:induction false} WithoutKeepsOrder(queue: seq<nat>, id: nat)
    requires Increasing(queue)
    ensures Increasing(Without(queue, id))
    ensures forall x :: x in Without(queue, id) <==> x in queue && x != id
  {
    if queue != [] {
      WithoutKeepsOrder(queue[1..], id);
      assert queue == [queue[0]] + queue[1..];
      var rest := Without(queue[1..], id);
      forall i | 0 <= i < |rest|
        ensures queue[0] < rest[i]
      {
        assert rest[i] in queue[1..];
      }
    }
  }

  // A request marked as cancelled is the only one of its kind in the queue, even when another
  // caller asked for the very same thing: the others are still queued.
  lemma {:induction false} RemovesItself(queue: seq<nat>, requests: seq<Request>, id: nat)
    requires Increasing(queue) && id in queue && forall x | x in queue :: x < |requests|
    requires forall x | x in queue :: requests[x].progress.Queued? <==> x != id
    ensures RemoveEqual(queue, requests, requests[id]) == Some(Without(queue, id))
  {
    var rest := queue[1..];
    assert queue == [queue[0]] + rest && queue[0] in queue;
    assert forall x | x in rest :: x in queue;
    if queue[0] == id {
      assert id !in rest;
      NothingToRemove(rest, id);
    } else {
      assert id in rest && Increasing(rest);
      assert requests[queue[0]] != requests[id];
      RemovesItself(rest, requests, id);
    }
  }

  lemma {:induction false} NothingToRemove(queue: seq<nat>, id: nat)
    requires id !in queue
    ensures Without(queue, id) == queue
  {
    if queue != [] {
      assert queue == [queue[0]] + queue[1..];
      NothingToRemove(queue[1..], id);
    }
  }

  // ---------------------------------------------------------------- steps

  function Marked(requests: seq<Request>, id: nat, progress: Progress): (r: seq<Request>)
    requires id < |requests|
    ensures |r| == |requests|
    ensures forall i | 0 <= i < |r| :: r[i] == if i == id then requests[i].(progress := progress) else requests[i]
  {
    requests[id := requests[id].(progress := progress)]
  }

  ghost predicate Asked(w: World, v: World, kind: string, payload: string) {
    && !w.stopped
    && v == w.(requests := w.requests + [Request(kind, payload, Queued)], queue := w.queue + [|w.requests|])
  }

  ghost predicate GaveUp(w: World, v: World, id: nat) {
    && id < |w.requests| && w.requests[id].progress.Queued?
    && v == w.(requests := Marked(w.requests, id, Cancelled), queue := Without(w.queue, id))
  }

  ghost predicate Begun(w: World, v: World) {
    && w.queue != [] && w.queue[0] < |w.requests| && (forall id | 0 <= id < |w.requests| :: !w.requests[id].progress.Started?)
    && v == w.(requests := Marked(w.requests, w.queue[0], Started), queue := w.queue[1..], handled := w.handled + [w.queue[0]])
  }

  ghost predicate Ended(w: World, v: World, id: nat, outcome: Progress) {
    && id < |w.requests| && w.requests[id].progress.Started?
    && (outcome.Completed? || (outcome.Failed? && outcome.failure.Raised?))
    && v == w.(requests := Marked(w.requests, id, outcome))
  }

  ghost predicate StopSet(w: World, v: World) {
    v == w.(stopped := true)
  }

  function FailQueued(requests: seq<Request>, queue: seq<nat>): (r: seq<Request>)
    ensures |r| == |requests|
    ensures forall i | 0 <= i < |r| ::
              r[i] == if i in queue then requests[i].(progress := Failed(StoppedFirst)) else requests[i]
  {
    seq(|requests|, i requires 0 <= i < |requests| =>
      if i in queue then requests[i].(progress := Failed(StoppedFirst)) else requests[i])
  }

  ghost predicate Drained(w: World, v: World) {
    && w.stopped
    && v == w.(requests := FailQueued(w.requests, w.queue), queue := [], drained := true)
  }

  ghost predicate Next(w: World, v: World) {
    || (exists kind, payload :: Asked(w, v, kind, payload))
    || (exists id :: GaveUp(w, v, id))
    || Begun(w, v)
    || (exists id, outcome :: Ended(w, v, id, outcome))
    || StopSet(w, v)
    || Drained(w, v)
  }

  // What one request may do in one step.
  ghost predicate Advances(p: Progress, q: Progress) {
    || q == p
    || (p.Queued? && (q.Started? || q.Cancelled? || q == Failed(StoppedFirst)))
    || (p.Started? && (q.Completed? || (q.Failed? && q.failure.Raised?)))
  }

  // What one step does to everybody: requests are only added and only advance, calls of the handler
  // are only appended, and none is once the queue has been drained.
  ghost predicate StepsOn(w: World, v: World) {
    && |w.requests| <= |v.requests|
    && (forall id | 0 <= id < |w.requests| ::
          && v.requests[id].kind == w.requests[id].kind && v.requests[id].payload == w.requests[id].payload
          && Advances(w.requests[id].progress, v.requests[id].progress))
    && w.handled <= v.handled
    && (w.drained ==> v.drained && v.handled == w.handled && |v.requests| == |w.requests|)
  }

  lemma AskedKeepsInv(w: World, v: World, kind: string, payload: string)
    requires Inv(w) && Asked(w, v, kind, payload)
    ensures Inv(v) && StepsOn(w, v) && Next(w, v)
  {
    assert v.handled + v.queue == (w.handled + w.queue) + [|w.requests|];
    assert forall i | 0 <= i < |w.handled + w.queue| :: (w.handled + w.queue)[i] in w.handled + w.queue;
  }

  lemma GaveUpKeepsInv(w: World, v: World, id: nat)
    requires Inv(w) && GaveUp(w, v, id)
    ensures Inv(v) && StepsOn(w, v) && Next(w, v)
  {
    PartsIncrease(w.handled, w.queue);
    WithoutKeepsOrder(w.queue, id);
    JoinIncreases(w.handled, v.queue);
  }

  lemma PartsIncrease(a: seq<nat>, b: seq<nat>)
    requires Increasing(a + b)
    ensures Increasing(a) && Increasing(b)
    ensures forall x, y | x in a && y in b :: x < y
  {
    forall i, j | 0 <= i < j < |a| ensures a[i] < a[j] { assert (a + b)[i] < (a + b)[j]; }
    forall i, j | 0 <= i < j < |b| ensures b[i] < b[j] { assert (a + b)[|a| + i] < (a + b)[|a| + j]; }
    forall x, y | x in a && y in b
      ensures x < y
    {
      var i :| 0 <= i < |a| && a[i] == x;
      var j :| 0 <= j < |b| && b[j] == y;
      assert (a + b)[i] < (a + b)[|a| + j];
    }
  }

  lemma JoinIncreases(a: seq<nat>, b: seq<nat>)
    requires Increasing(a) && Increasing(b) && forall x, y | x in a && y in b :: x < y
    ensures Increasing(a + b)
  {
    forall i, j | 0 <= i < j < |a + b|
      ensures (a + b)[i] < (a + b)[j]
    {
      if i < |a| <= j { assert a[i] in a && b[j - |a|] in b; }
    }
  }

  lemma BegunKeepsInv(w: World, v: World)
    requires Inv(w) && Begun(w, v)
    ensures Inv(v) && StepsOn(w, v)
  {
    var id := w.queue[0];
    assert w.queue == [id] + v.queue && id in w.queue;
    assert v.handled + v.queue == w.handled + w.queue;
    assert forall x | x in v.queue :: x in w.queue;
    assert forall x :: x in v.handled <==> x in w.handled || x == id;
    PartsIncrease(w.handled + [id], v.queue);
    PartsIncrease(w.handled, w.queue);
  }

  lemma DrainedKeepsInv(w: World, v: World)
    requires Inv(w) && Drained(w, v)
    ensures Inv(v) && StepsOn(w, v)
  {
    PartsIncrease(w.handled, w.queue);
    assert v.handled + v.queue == w.handled;
    forall id | 0 <= id < |v.requests|
      ensures id !in v.queue && !v.requests[id].progress.Queued?
      ensures id in v.handled <==> HandlerCalled(v.requests[id].progress)
    {
      if id in w.queue { assert id !in w.handled; }
    }
  }

  lemma EndedKeepsInv(w: World, v: World, id: nat, outcome: Progress)
    requires Inv(w) && Ended(w, v, id, outcome)
    ensures Inv(v) && StepsOn(w, v) && Next(w, v)
  {
  }

  lemma StopSetKeepsInv(w: World, v: World)
    requires Inv(w) && StopSet(w, v)
    ensures Inv(v) && StepsOn(w, v)
  {
  }

  lemma NextKeepsInv(w: World, v: World)
    requires Inv(w) && Next(w, v)
    ensures Inv(v) && StepsOn(w, v)
  {
    if exists kind, payload :: Asked(w, v, kind, payload) {
      var kind, payload :| Asked(w, v, kind, payload);
      AskedKeepsInv(w, v, kind, payload);
    } else if exists id :: GaveUp(w, v, id) {
      var id :| GaveUp(w, v, id);
      GaveUpKeepsInv(w, v, id);
    } else if Begun(w, v) {
      BegunKeepsInv(w, v);
    } else if exists id, outcome :: Ended(w, v, id, outcome) {
      var id, outcome :| Ended(w, v, id, outcome);
      EndedKeepsInv(w, v, id, outcome);
    } else if StopSet(w, v) {
      StopSetKeepsInv(w, v);
    } else {
      DrainedKeepsInv(w, v);
    }
  }

  // ---------------------------------------------------------------- runs

  ghost predicate IsRun(run: seq<World>) {
    run != [] && run[0] == INITIAL && forall n | 0 < n < |run| :: Next(run[n - 1], run[n])
  }

  lemma {:induction false} RunKeepsInv(run: seq<World>, n: nat)
    requires IsRun(run) && n < |run|
    ensures Inv(run[n])
    decreases n
  {
    if n > 0 {
      RunKeepsInv(run, n - 1);
      NextKeepsInv(run[n - 1], run[n]);
    }
  }

  // From one moment of a run to a later one: what is neither queued nor started is final.
  ghost predicate Since(w: World, v: World) {
    && |w.requests| <= |v.requests|
    && (forall id | 0 <= id < |w.requests| && !w.requests[id].progress.Queued? && !w.requests[id].progress.Started? ::
          v.requests[id] == w.requests[id])
    && w.handled <= v.handled
    && (w.drained ==> v.drained && v.handled == w.handled && |v.requests| == |w.requests|)
  }

  lemma SinceStep(u: World, w: World, v: World)
    requires Since(u, w) && StepsOn(w, v)
    ensures Since(u, v)
  {
    forall id | 0 <= id < |u.requests| && !u.requests[id].progress.Queued? && !u.requests[id].progress.Started?
      ensures v.requests[id] == u.requests[id]
    {
      assert w.requests[id] == u.requests[id] && Advances(w.requests[id].progress, v.requests[id].progress);
    }
  }

  lemma {:induction false} RunGoesOn(run: seq<World>, m: nat, n: nat)
    requires IsRun(run) && m <= n < |run|
    ensures Since(run[m], run[n])
    decreases n
  {
    if m < n {
      RunGoesOn(run, m, n - 1);
      RunKeepsInv(run, n - 1);
      NextKeepsInv(run[n - 1], run[n]);
      SinceStep(run[m], run[n - 1], run[n]);
    }
  }

  // In every run a request that has ended never changes again, the handler is called at most once
  // for a request and never for one that was cancelled or failed before it started, calls follow
  // the order of asking, and once the queue has been drained nothing starts.
  lemma EveryRequestRunsOnce(run: seq<World>, m: nat, n: nat)
    requires IsRun(run) && m <= n < |run|
    ensures Since(run[m], run[n])
    ensures Increasing(run[n].handled)
    ensures forall id: nat :: id in run[n].handled <==> id < |run[n].requests| && HandlerCalled(run[n].requests[id].progress)
    ensures run[m].drained ==> run[n].queue == []
  {
    RunGoesOn(run, m, n);
    RunKeepsInv(run, n);
    PartsIncrease(run[n].handled, run[n].queue);
  }

  // ---------------------------------------------------------------- the supervisor

  datatype Taken = Nothing | Took(id: nat) | NotQueued

  class Supervisor {
    var requests: seq<Request>
    var queue: seq<nat>
    var stopped: bool
    ghost var drained: bool
    ghost var handled: seq<nat>

    ghost function State(): World
      reads this
    {
      World(requests, queue, stopped, drained, handled)
    }

    constructor ()
      ensures State() == INITIAL
    {
      requests, queue, stopped, drained, handled := [], [], false, false, [];
    }

    // None stands for the refusal after a stop.
    method RequestMutation(kind: string, payload: string) returns (id: Option<nat>)
      requires Inv(State())
      modifies this
      ensures Inv(State())
      ensures id.None? <==> old(stopped)
      ensures id.None? ==> State() == old(State())
      ensures id.Some? ==> id.value == |old(requests)| && Asked(old(State()), State(), kind, payload)
      ensures id.Some? ==> Next(old(State()), State())
    {
      if stopped { return None; }
      id := Some(|requests|);
      requests, queue := requests + [Request(kind, payload, Queued)], queue + [|requests|];
      AskedKeepsInv(old(State()), State(), kind, payload);
    }

    // The waiting caller's deadline passed.  Only a request still queued is given up; false would
    // mean that it was not in the queue.
    method TimeOut(id: nat) returns (found: bool)
      requires Inv(State()) && id < |requests|
      modifies this
      ensures Inv(State()) && found
      ensures if old(requests[id]).progress.Queued? then GaveUp(old(State()), State(), id) else State() == old(State())
      ensures old(requests[id]).progress.Queued? ==> Next(old(State()), State())
    {
      if !requests[id].progress.Queued? { return true; }
      PartsIncrease(handled, queue);
      requests := Marked(requests, id, Cancelled);
      RemovesItself(queue, requests, id);
      match RemoveEqual(queue, requests, requests[id]) {
        case Some(rest) => queue := rest;
        case None => return false;
      }
      GaveUpKeepsInv(old(State()), State(), id);
      found := true;
    }

    // The worker, between two calls of the handler.
    method TakeNext() returns (taken: Taken)
      requires Inv(State()) && forall id | 0 <= id < |requests| :: !requests[id].progress.Started?
      modifies this
      ensures Inv(State()) && taken != NotQueued
      ensures taken.Nothing? <==> old(queue) == []
      ensures taken.Nothing? ==> State() == old(State())
      ensures taken.Took? ==> Begun(old(State()), State()) && taken.id == old(queue)[0] && Next(old(State()), State())
    {
      if queue == [] { return Nothing; }
      var id := queue[0];
      assert id in queue;
      if !requests[id].progress.Queued? { return NotQueued; }
      requests, queue, handled := Marked(requests, id, Started), queue[1..], handled + [id];
      BegunKeepsInv(old(State()), State());
      taken := Took(id);
    }

    method Finish(id: nat, outcome: Progress)
      requires Inv(State()) && id < |requests| && requests[id].progress.Started?
      requires outcome.Completed? || (outcome.Failed? && outcome.failure.Raised?)
      modifies this
      ensures Inv(State()) && Ended(old(State()), State(), id, outcome) && Next(old(State()), State())
    {
      requests := Marked(requests, id, outcome);
      EndedKeepsInv(old(State()), State(), id, outcome);
    }

    method SetStop()
      requires Inv(State())
      modifies this
      ensures Inv(State()) && StopSet(old(State()), State()) && Next(old(State()), State())
    {
      stopped := true;
    }

    // Fails whatever is queued; false would mean that a request in the queue was not queued.
    method FailQueuedMutations() returns (allQueued: bool)
      requires Inv(State()) && stopped
      modifies this
      ensures Inv(State()) && allQueued && Drained(old(State()), State()) && Next(old(State()), State())
    {
      PartsIncrease(handled, queue);
      var queued := queue;
      queue := [];
      for i := 0 to |queued|
        invariant requests == FailQueued(old(requests), queued[..i])
        invariant queue == [] && stopped && handled == old(handled) && drained == old(drained)
      {
        var id := queued[i];
        assert id in queued && id !in queued[..i];
        assert queued[..i + 1] == queued[..i] + [id];
        if !requests[id].progress.Queued? { return false; }
        requests := Marked(requests, id, Failed(StoppedFirst));
      }
      assert queued[..|queued|] == queued;
      drained := true;
      DrainedKeepsInv(old(State()), State());
      allQueued := true;
    }
  }
}
