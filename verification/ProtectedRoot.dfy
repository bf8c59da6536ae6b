/**
 One directory of a replica: deleting a verified entry by way of a quarantine name, and replacing an
 entry by way of a temporary and a backup name.

 Between any two system calls somebody else may create, replace or remove the entry called `leaf`;
 only the check that the leaf is free and the rename that restores it count as one.  Any call may
 fail.  The hidden names are drawn at random and taken to be fresh.
 */
module ProtectedRoot {
  import opened Wrappers
  import opened Journal
  import opened Entries
  import opened Reconcile

  type Name = string

  datatype Node = Node(state: State, hasChildren: bool)

  datatype Move = Put(node: Node) | Take

  datatype Outcome = Returned(success: bool) | Raised

  // Of what somebody did to the leaf only the last move shows.
  function LeafAfter(entries: map<Name, Node>, leaf: Name, moves: seq<Move>): map<Name, Node> {
    if moves == [] then entries
    else match moves[|moves| - 1]
      case Put(node) => entries[leaf := node]
      case Take => entries - {leaf}
  }

  // Nobody interferes and no call fails.
  ghost predicate Quiet(moves: nat -> seq<Move>, fails: nat -> bool) {
    forall k :: moves(k) == [] && !fails(k)
  }

  // What a deletion that nobody disturbs comes to: a directory only has to have the mode expected, and
  // to be empty; anything else has to be what is expected.
  function QuietOutcome(expected: State, found: Node): Outcome {
    if found.state.Present? && found.state.entry.kind.Dir? then
      if expected == found.state
         || (expected.Present? && expected.entry.kind.Dir? && expected.entry.mode == found.state.entry.mode)
      then if found.hasChildren then Raised else Returned(true)
      else Returned(false)
    else Returned(expected == found.state)
  }

  class Directory {
    const leaf: Name
    var entries: map<Name, Node>
    ghost var removed: set<Node>    // by a verified delete or an install
    ghost var dropped: set<Node>    // by somebody else
    ghost var known: set<Node>      // ever seen here

    // Whatever was ever here is still here, or was removed by somebody.
    ghost predicate Conserved()
      reads this
    {
      known == entries.Values + removed + dropped
    }

    constructor (leaf: Name, entries: map<Name, Node>)
      ensures this.leaf == leaf && this.entries == entries && Conserved() && removed == {} && dropped == {}
    {
      this.leaf, this.entries := leaf, entries;
      removed, dropped, known := {}, {}, entries.Values;
    }

    // One thing somebody else does to the leaf.
    method Disturb(move: Move)
      requires Conserved()
      modifies this
      ensures Conserved() && removed == old(removed) && old(dropped) <= dropped && old(known) <= known
      ensures entries == if move.Put? then old(entries)[leaf := move.node] else old(entries) - {leaf}
    {
      if leaf in entries { dropped := dropped + {entries[leaf]}; }
      ValuesWithout(entries, leaf);
      entries := entries - {leaf};
      if move.Put? {
        ValuesWith(entries, leaf, move.node);
        entries, known := entries[leaf := move.node], known + {move.node};
      }
    }

    // What somebody else does to the leaf between two calls.
    method Interfere(moves: seq<Move>)
      requires Conserved()
      modifies this
      ensures Conserved() && removed == old(removed) && old(dropped) <= dropped && old(known) <= known
      ensures entries - {leaf} == old(entries) - {leaf} && entries == LeafAfter(old(entries), leaf, moves)
    {
      for i := 0 to |moves|
        invariant Conserved() && removed == old(removed) && old(dropped) <= dropped && old(known) <= known
        invariant entries == LeafAfter(old(entries), leaf, moves[..i])
      {
        Disturb(moves[i]);
      }
      assert moves[..|moves|] == moves;
    }

    // A rename onto a free name.
    method Rename(source: Name, target: Name)
      requires Conserved() && source in entries && target !in entries
      modifies this`entries
      ensures Conserved() && entries == old(entries) - {source} + map[target := old(entries)[source]]
    {
      var node := entries[source];
      ValuesWithout(entries, source);
      ValuesWith(entries - {source}, target, node);
      entries := (entries - {source})[target := node];
    }

    method Unlink(name: Name)
      requires Conserved() && name in entries
      modifies this`entries, this`removed
      ensures Conserved() && entries == old(entries) - {name} && removed == old(removed) + {old(entries)[name]}
    {
      ValuesWithout(entries, name);
      removed := removed + {entries[name]};
      entries := entries - {name};
    }

    // Gives a quarantined entry its name back, or a recovery name if that is taken; false when
    // this raises an error.
    method RestoreQuarantine(quarantine: Name, recovery: Name, moves: nat -> seq<Move>, fails: nat -> bool, call: nat)
      returns (restored: bool)
      requires Conserved() && recovery !in entries && leaf != quarantine && leaf != recovery && quarantine != recovery
      modifies this
      ensures Conserved() && removed == old(removed) && old(dropped) <= dropped
      ensures entries - {leaf, quarantine, recovery} == old(entries) - {leaf, quarantine, recovery}
      ensures quarantine !in old(entries) ==> restored && entries == old(entries)
      ensures quarantine in old(entries) && restored ==>
                quarantine !in entries && recovery !in entries && leaf in entries && entries[leaf] == old(entries)[quarantine]
      ensures !restored ==>
                (quarantine in entries && recovery !in entries && entries[quarantine] == old(entries)[quarantine])
                || (quarantine !in entries && recovery in entries && entries[recovery] == old(entries)[quarantine])
      ensures Quiet(moves, fails) && quarantine in old(entries) && leaf !in old(entries) ==>
                restored && entries == (old(entries) - {quarantine})[leaf := old(entries)[quarantine]]
      ensures Quiet(moves, fails) && quarantine in old(entries) && leaf in old(entries) ==>
                !restored && entries == (old(entries) - {quarantine})[recovery := old(entries)[quarantine]]
      ensures !fails(call) && !fails(call + 1) ==> quarantine !in entries
      ensures quarantine in old(entries) && restored ==> !fails(call)
      ensures recovery in entries ==> !fails(call + 1)
    {
      hide Conserved;
      if quarantine !in entries { return true; }
      ghost var before := entries;
      Interfere(moves(call));
      OthersStay(before, entries, leaf);
      if leaf !in entries {
        if fails(call) { return false; }
        ghost var found := entries;
        Rename(quarantine, leaf);
        RenamedApart(found, leaf, quarantine, recovery);
        assert Quiet(moves, fails) ==> found == before;
        return true;
      }
      ghost var between := entries;
      Interfere(moves(call + 1));
      OthersStay(between, entries, leaf);
      if fails(call + 1) { return false; }
      ghost var found := entries;
      Rename(quarantine, recovery);
      RenamedApart(found, recovery, quarantine, leaf);
      restored := false;
    }

    // Removes the entry called `leaf` if it is what is expected.  `taken` is what the first rename
    // moved away.
    method QuarantineDelete(expected: State, quarantine: Name, recovery: Name, moves: nat -> seq<Move>, fails: nat -> bool)
      returns (outcome: Outcome, ghost taken: Option<Node>)
      requires Conserved() && quarantine !in entries && recovery !in entries
      requires leaf != quarantine && leaf != recovery && quarantine != recovery
      modifies this
      ensures Conserved() && entries - {leaf, quarantine, recovery} == old(entries) - {leaf}
      ensures outcome == Returned(true) ==>
                if taken.None? then expected.Missing? && removed == old(removed)
                else DeleteMatches(expected, taken.value.state) && removed == old(removed) + {taken.value}
      ensures outcome != Returned(true) ==>
                removed == old(removed)
                && (taken.Some? ==> Holds(entries, {leaf, quarantine, recovery}, taken.value))
      ensures outcome.Returned? && taken.Some? ==> !fails(0) && !fails(1) && !fails(2)
      ensures (forall k :: !fails(k)) ==> quarantine !in entries
      ensures outcome == Returned(false) ==>
                if taken.None? then expected.Present?
                else !DeleteMatches(expected, taken.value.state) && leaf in entries && entries[leaf] == taken.value
                     && quarantine !in entries && recovery !in entries
      ensures Quiet(moves, fails) ==>
                && outcome == (if leaf in old(entries) then QuietOutcome(expected, old(entries)[leaf])
                               else Returned(expected.Missing?))
                && entries == (if outcome == Returned(true) then old(entries) - {leaf} else old(entries))
    {
      hide Conserved, QuietOutcome, DeleteMatches, Holds;
      taken := None;
      ghost var before := entries;
      Interfere(moves(0));
      OthersStay(before, entries, leaf);
      if leaf !in entries { return Returned(expected.Missing?), None; }
      if fails(0) { return Raised, None; }
      var node := entries[leaf];
      taken := Some(node);
      Rename(leaf, quarantine);
      outcome := InspectAndRemove(expected, quarantine, recovery, moves, fails);
    }

    // With the entry under its quarantine name.
    method InspectAndRemove(expected: State, quarantine: Name, recovery: Name, moves: nat -> seq<Move>, fails: nat -> bool)
      returns (outcome: Outcome)
      requires Conserved() && quarantine in entries && recovery !in entries
      requires leaf != quarantine && leaf != recovery && quarantine != recovery
      modifies this
      ensures Conserved() && entries - {leaf, quarantine, recovery} == old(entries) - {leaf, quarantine, recovery}
      ensures outcome == Returned(true) ==>
                DeleteMatches(expected, old(entries)[quarantine].state) && removed == old(removed) + {old(entries)[quarantine]}
      ensures outcome != Returned(true) ==>
                removed == old(removed) && Holds(entries, {leaf, quarantine, recovery}, old(entries)[quarantine])
      ensures outcome.Returned? ==> !fails(1) && !fails(2)
      ensures (forall k :: !fails(k)) ==> quarantine !in entries
      ensures outcome == Returned(false) ==>
                !DeleteMatches(expected, old(entries)[quarantine].state) && leaf in entries
                && entries[leaf] == old(entries)[quarantine] && quarantine !in entries && recovery !in entries
      ensures Quiet(moves, fails) && leaf !in old(entries) ==>
                var node, others := old(entries)[quarantine], old(entries) - {quarantine};
                && outcome == QuietOutcome(expected, node)
                && entries == (if outcome == Returned(true) then others else others[leaf := node])
    {
      var node := entries[quarantine];
      ghost var quarantined := entries;
      Interfere(moves(1));
      OthersStay(quarantined, entries, leaf);
      if fails(1) {
        outcome := RestoreAndRaise(quarantine, recovery, moves, fails, 2, node);
        return;
      }
      if !DeleteMatches(expected, node.state) {
        var restored := RestoreQuarantine(quarantine, recovery, moves, fails, 2);
        if restored { return Returned(false); }
        outcome := FailedRestore(quarantine, recovery, moves, fails, node);
        return;
      }
      if fails(2) || (node.state.Present? && node.state.entry.kind.Dir? && node.hasChildren) {
        outcome := RestoreAndRaise(quarantine, recovery, moves, fails, 3, node);
        return;
      }
      Unlink(quarantine);
      outcome := Returned(true);
    }

    method RestoreAndRaise(quarantine: Name, recovery: Name, moves: nat -> seq<Move>, fails: nat -> bool, call: nat, ghost node: Node)
      returns (outcome: Outcome)
      requires Conserved() && leaf != quarantine && leaf != recovery && quarantine != recovery
      requires quarantine in entries && recovery !in entries && entries[quarantine] == node
      modifies this
      ensures Conserved() && removed == old(removed) && outcome == Raised
      ensures entries - {leaf, quarantine, recovery} == old(entries) - {leaf, quarantine, recovery}
      ensures Holds(entries, {leaf, quarantine, recovery}, node)
      ensures (forall k :: !fails(k)) ==> quarantine !in entries
      ensures Quiet(moves, fails) && leaf !in old(entries) ==> entries == (old(entries) - {quarantine})[leaf := node]
    {
      var restored := RestoreQuarantine(quarantine, recovery, moves, fails, call);
      outcome := Raised;
    }

    // The error handler tries once more; with a recovery name given already it finds nothing to do.
    method FailedRestore(quarantine: Name, recovery: Name, moves: nat -> seq<Move>, fails: nat -> bool, ghost node: Node)
      returns (outcome: Outcome)
      requires Conserved() && leaf != quarantine && leaf != recovery && quarantine != recovery
      requires (quarantine in entries && recovery !in entries && entries[quarantine] == node)
               || (quarantine !in entries && recovery in entries && entries[recovery] == node)
      modifies this
      ensures Conserved() && removed == old(removed) && outcome == Raised
      ensures entries - {leaf, quarantine, recovery} == old(entries) - {leaf, quarantine, recovery}
      ensures Holds(entries, {leaf, quarantine, recovery}, node)
      ensures (forall k :: !fails(k)) ==> quarantine !in entries
    {
      if quarantine in entries {
        var restored := RestoreQuarantine(quarantine, recovery, moves, fails, 4);
      }
      outcome := Raised;
    }

    // Puts a staged entry in the place of `leaf`.  Call 3 is the rename that rolls back.
    method InstallAt(source: Node, temporary: Name, backup: Name, fails: nat -> bool) returns (outcome: Outcome)
      requires Conserved() && temporary !in entries && backup !in entries
      requires leaf != temporary && leaf != backup && temporary != backup
      modifies this
      ensures Conserved()
      ensures outcome.Returned? <==> !fails(0) && !fails(2) && (leaf in old(entries) ==> !fails(1) && !fails(5))
      ensures outcome.Returned? ==> outcome.success && entries == old(entries)[leaf := source]
      ensures outcome == Raised && !fails(3) ==>
                entries - {temporary, backup} == old(entries) || entries - {temporary, backup} == old(entries)[leaf := source]
      ensures outcome == Raised && leaf in old(entries) ==> Holds(entries, {leaf, backup}, old(entries)[leaf])
      ensures temporary in entries ==> fails(4)
    {
      if fails(0) { return Raised; }
      ghost var before := entries;
      ValuesWith(entries, temporary, source);
      entries, known := entries[temporary := source], known + {source};
      assert entries - {temporary} == before;
      if leaf in entries {
        if fails(1) {
          Discard(temporary, fails(4));
          return Raised;
        }
        outcome := Replace(source, temporary, backup, fails);
      } else {
        outcome := Fill(source, temporary, fails);
      }
    }

    // Nothing was there before.
    method Fill(source: Node, temporary: Name, fails: nat -> bool) returns (outcome: Outcome)
      requires Conserved() && leaf !in entries && temporary in entries && entries[temporary] == source
      modifies this
      ensures Conserved()
      ensures outcome.Returned? <==> !fails(2)
      ensures outcome.Returned? ==> outcome.success && entries == (old(entries) - {temporary})[leaf := source]
      ensures outcome == Raised ==> entries - {temporary} == old(entries) - {temporary}
      ensures temporary in entries ==> fails(4)
    {
      if fails(2) {
        Discard(temporary, fails(4));
        return Raised;
      }
      Rename(temporary, leaf);
      outcome := Returned(true);
    }

    // What was there before keeps the backup name until the new entry is in place.
    method Replace(source: Node, temporary: Name, backup: Name, fails: nat -> bool) returns (outcome: Outcome)
      requires Conserved() && leaf in entries && backup !in entries && temporary in entries && entries[temporary] == source
      requires leaf != temporary && leaf != backup && temporary != backup
      modifies this
      ensures Conserved()
      ensures outcome.Returned? <==> !fails(2) && !fails(5)
      ensures outcome.Returned? ==> outcome.success && entries == (old(entries) - {temporary})[leaf := source]
      ensures outcome == Raised && !fails(3) ==>
                entries - {temporary, backup} == old(entries) - {temporary}
                || entries - {temporary, backup} == (old(entries) - {temporary})[leaf := source]
      ensures outcome == Raised ==> Holds(entries, {leaf, backup}, old(entries)[leaf])
      ensures temporary in entries ==> fails(4)
    {
      Rename(leaf, backup);
      if fails(2) {
        outcome := RollBack(temporary, backup, fails);
        return;
      }
      Rename(temporary, leaf);
      if fails(5) { return Raised; }
      Unlink(backup);
      outcome := Returned(true);
    }

    // The new entry did not get its name: the old one takes it back, if that rename succeeds.
    method RollBack(temporary: Name, backup: Name, fails: nat -> bool) returns (outcome: Outcome)
      requires Conserved() && leaf !in entries && backup in entries && temporary in entries
      requires leaf != temporary && leaf != backup && temporary != backup
      modifies this
      ensures Conserved() && outcome == Raised
      ensures !fails(3) ==> entries - {temporary, backup} == (old(entries) - {temporary, backup})[leaf := old(entries)[backup]]
      ensures Holds(entries, {leaf, backup}, old(entries)[backup])
      ensures fails(3) ==> leaf !in entries
      ensures temporary in entries ==> fails(4)
    {
      if !fails(3) { Rename(backup, leaf); }
      Discard(temporary, fails(4));
      outcome := Raised;
    }

    // Cleaning up; failing to is not reported.
    method Discard(name: Name, failing: bool)
      requires Conserved() && name in entries
      modifies this`entries, this`removed
      ensures Conserved() && entries == (if failing then old(entries) else old(entries) - {name})
    {
      if !failing { Unlink(name); }
    }
  }

  // One of the names is the node's.
  ghost predicate Holds(entries: map<Name, Node>, names: set<Name>, node: Node) {
    exists n | n in names :: n in entries && entries[n] == node
  }

  lemma OthersStay(before: map<Name, Node>, after: map<Name, Node>, leaf: Name)
    requires before - {leaf} == after - {leaf}
    ensures forall n | n != leaf :: (n in after <==> n in before) && (n in after ==> after[n] == before[n])
  {
    forall n | n != leaf
      ensures (n in after <==> n in before) && (n in after ==> after[n] == before[n])
    {
      assert n in before <==> n in before - {leaf};
      assert n in after <==> n in after - {leaf};
      if n in after { assert (after - {leaf})[n] == (before - {leaf})[n]; }
    }
  }

  lemma RenamedApart(m: map<Name, Node>, target: Name, source: Name, other: Name)
    requires source in m && target !in m
    ensures var after := m - {source} + map[target := m[source]];
            after == (m - {source})[target := m[source]]
            && after - {target, source, other} == m - {target, source, other}
  {
  }

  lemma ValuesWithout(m: map<Name, Node>, name: Name)
    ensures name in m ==> m.Values == (m - {name}).Values + {m[name]}
    ensures name !in m ==> m - {name} == m
  {
    if name in m {
      forall v
        ensures v in m.Values <==> v in (m - {name}).Values + {m[name]}
      {
        if v in m.Values {
          var k :| k in m && m[k] == v;
          if k != name { assert k in m - {name}; }
        }
      }
    }
  }

  lemma ValuesWith(m: map<Name, Node>, name: Name, node: Node)
    requires name !in m
    ensures m[name := node].Values == m.Values + {node}
  {
    forall v
      ensures v in m[name := node].Values <==> v in m.Values + {node}
    {
      if v in m.Values {
        var k :| k in m && m[k] == v;
        assert m[name := node][k] == v;
      }
      if v == node { assert m[name := node][name] == v; }
    }
  }
}
