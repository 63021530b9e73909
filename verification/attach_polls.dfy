/** What a poll decides about a waiting attach, read off the request and what can be seen of its engine. */
module AttachPolls {
  import opened Wrappers
  import opened Occupancy
  import opened Attach

  // ---------------------------------------------------------------- one leaf

  /** The receipt of the leaf tells of the activation and the terminal that are live now. */
  ghost predicate Reported(leaf: Leaf, look: Look) {
    && leaf.physical.None? && leaf.receipt.Some? && leaf.receipt.value in look.receipts
    && exists g: nat :: look.receipts[leaf.receipt.value] == Activated(Get(look.activation, leaf.id), Some(g))
                   && Get(look.generation, leaf.id) == Some(g)
  }

  /** The leaf is live, or its receipt says so now. */
  ghost predicate Arrived(leaf: Leaf, look: Look) { LeafLive(leaf, look) || Reported(leaf, look) }

  /** What the leaf stands for is not there any more. */
  ghost predicate Changed(leaf: Leaf, look: Look) {
    if leaf.physical.Some? then !LeafLive(leaf, look)
    else leaf.receipt.None? && Get(look.activation, leaf.id) != leaf.activation
  }

  /** Its terminal was asked for in vain, or cannot be asked for. */
  ghost predicate Refused(leaf: Leaf, look: Look) {
    && leaf.physical.None?
    && if leaf.receipt.Some? then leaf.receipt.value in look.receipts && !Reported(leaf, look)
       else !Changed(leaf, look) && Get<Restore>(look.restore, leaf.id) == Some(RestoreError)
  }

  ghost predicate Fails(leaf: Leaf, look: Look) { Changed(leaf, look) || Refused(leaf, look) }

  /** The ticket that a restore request for this surface was answered with. */
  ghost function TicketFor(id: nat, look: Look): Option<nat> {
    if id in look.restore && look.restore[id].Asked? then look.restore[id].ticket else None
  }

  /** How a leaf that does not fail looks after the poll. */
  ghost predicate Follows(leaf: Leaf, after: Leaf, look: Look) {
    && (LeafLive(leaf, look) ==> after == leaf)
    && (Reported(leaf, look) ==> LeafLive(after, look) && after.id == leaf.id && after.receipt == leaf.receipt)
    && (!Arrived(leaf, look) ==>
          after == leaf.(receipt := if leaf.receipt.Some? then leaf.receipt else TicketFor(leaf.id, look)))
  }

  /** A leaf is one of: live, reported, changed, refused, or waiting. */
  lemma LeafExactly(leaf: Leaf, look: Look)
    ensures var (after, failure) := PollLeaf(leaf, look);
      && (failure == Some(TargetChanged) <==> Changed(leaf, look))
      && (failure == Some(SpawnFailed) <==> Refused(leaf, look))
      && (failure.Some? <==> Fails(leaf, look))
      && (failure.None? ==> Follows(leaf, after, look) && (after.physical.Some? <==> Arrived(leaf, look)))
    ensures !(Changed(leaf, look) && Refused(leaf, look)) && !(Arrived(leaf, look) && Fails(leaf, look))
  {
    if leaf.physical.None? && leaf.receipt.Some? && leaf.receipt.value in look.receipts {
      var outcome := look.receipts[leaf.receipt.value];
      if outcome.Activated? && outcome.generation.Some? {
        assert outcome == Activated(outcome.current, Some(outcome.generation.value));
      }
    }
  }

  // ---------------------------------------------------------------- all leaves of a request

  ghost predicate NoneFails(leaves: seq<Leaf>, look: Look) {
    forall i :: 0 <= i < |leaves| ==> !Fails(leaves[i], look)
  }

  ghost predicate AllArrived(leaves: seq<Leaf>, look: Look) {
    forall i :: 0 <= i < |leaves| ==> Arrived(leaves[i], look)
  }

  ghost predicate FirstFailure(leaves: seq<Leaf>, look: Look, i: nat) {
    i < |leaves| && Fails(leaves[i], look) && forall j :: 0 <= j < i ==> !Fails(leaves[j], look)
  }

  ghost predicate FailsFirstBy(leaves: seq<Leaf>, look: Look, reason: Reason) {
    exists i: nat :: FirstFailure(leaves, look, i)
                     && if reason == TargetChanged then Changed(leaves[i], look) else Refused(leaves[i], look)
  }

  ghost predicate AllFollow(leaves: seq<Leaf>, after: seq<Leaf>, look: Look) {
    |after| == |leaves| && forall i :: 0 <= i < |leaves| ==> Follows(leaves[i], after[i], look)
  }

  ghost predicate AllPhysical(leaves: seq<Leaf>) { forall i :: 0 <= i < |leaves| ==> leaves[i].physical.Some? }

  /** The first leaf that fails decides the failure; without one every leaf moves on by itself. */
  lemma {:induction false} LeavesExactly(leaves: seq<Leaf>, look: Look)
    ensures var (after, failure) := PollLeaves(leaves, look);
      && (failure.None? <==> NoneFails(leaves, look))
      && (forall reason :: failure == Some(reason) <==> FailsFirstBy(leaves, look, reason))
      && (failure.None? ==> AllFollow(leaves, after, look) && (AllPhysical(after) <==> AllArrived(leaves, look)))
  {
    hide PollLeaf, Changed, Refused, Arrived, Follows;
    if leaves != [] {
      LeafExactly(leaves[0], look);
      LeavesExactly(leaves[1..], look);
      var (leaf, failure) := PollLeaf(leaves[0], look);
      if failure.Some? {
        OnlyFirst(leaves, look);
      } else {
        FirstDoesNotFail(leaves, look);
        JoinLeaf(leaves, leaf, PollLeaves(leaves[1..], look).0, look);
      }
    } else {
      assert forall reason :: !FailsFirstBy(leaves, look, reason);
    }
  }

  lemma OnlyFirst(leaves: seq<Leaf>, look: Look)
    requires leaves != [] && Fails(leaves[0], look)
    ensures !NoneFails(leaves, look)
    ensures forall reason :: FailsFirstBy(leaves, look, reason) <==>
      if reason == TargetChanged then Changed(leaves[0], look) else Refused(leaves[0], look)
  {
    hide Changed, Refused;
    assert FirstFailure(leaves, look, 0);
  }

  lemma FirstDoesNotFail(leaves: seq<Leaf>, look: Look)
    requires leaves != [] && !Fails(leaves[0], look)
    ensures NoneFails(leaves, look) <==> NoneFails(leaves[1..], look)
    ensures forall reason :: FailsFirstBy(leaves, look, reason) <==> FailsFirstBy(leaves[1..], look, reason)
  {
    hide Changed, Refused, Fails;
    if NoneFails(leaves[1..], look) {
      forall i | 0 <= i < |leaves| ensures !Fails(leaves[i], look) {
        if i > 0 { assert leaves[1..][i - 1] == leaves[i]; }
      }
    }
    forall i: nat ensures FirstFailure(leaves, look, i + 1) <==> FirstFailure(leaves[1..], look, i) {
      LaterFailure(leaves, look, i);
    }
    forall reason
      ensures FailsFirstBy(leaves, look, reason) <==> FailsFirstBy(leaves[1..], look, reason)
    {
      ShiftedReason(leaves, look, reason);
    }
  }

  lemma LaterFailure(leaves: seq<Leaf>, look: Look, i: nat)
    requires leaves != [] && !Fails(leaves[0], look)
    ensures FirstFailure(leaves, look, i + 1) <==> FirstFailure(leaves[1..], look, i)
  {
    hide Changed, Refused, Fails;
    if FirstFailure(leaves[1..], look, i) {
      assert leaves[i + 1] == leaves[1..][i];
      forall j | 0 <= j < i + 1 ensures !Fails(leaves[j], look) {
        if j > 0 { assert leaves[j] == leaves[1..][j - 1]; }
      }
    }
  }

  lemma ShiftedReason(leaves: seq<Leaf>, look: Look, reason: Reason)
    requires leaves != [] && !Fails(leaves[0], look)
    requires forall i: nat :: FirstFailure(leaves, look, i + 1) <==> FirstFailure(leaves[1..], look, i)
    ensures FailsFirstBy(leaves, look, reason) <==> FailsFirstBy(leaves[1..], look, reason)
  {
    hide Changed, Refused;
    if FailsFirstBy(leaves, look, reason) {
      var i: nat :| FirstFailure(leaves, look, i)
        && if reason == TargetChanged then Changed(leaves[i], look) else Refused(leaves[i], look);
      assert i > 0 && leaves[1..][i - 1] == leaves[i];
      LaterFailure(leaves, look, i - 1);
      assert FirstFailure(leaves[1..], look, i - 1);
    }
    if FailsFirstBy(leaves[1..], look, reason) {
      var i: nat :| FirstFailure(leaves[1..], look, i)
        && if reason == TargetChanged then Changed(leaves[1..][i], look) else Refused(leaves[1..][i], look);
      LaterFailure(leaves, look, i);
      assert FirstFailure(leaves, look, i + 1) && leaves[i + 1] == leaves[1..][i];
    }
  }

  lemma JoinLeaf(leaves: seq<Leaf>, leaf: Leaf, rest: seq<Leaf>, look: Look)
    requires leaves != [] && |rest| == |leaves| - 1
    ensures AllFollow(leaves, [leaf] + rest, look) <==>
              Follows(leaves[0], leaf, look) && AllFollow(leaves[1..], rest, look)
    ensures AllPhysical([leaf] + rest) <==> leaf.physical.Some? && AllPhysical(rest)
    ensures AllArrived(leaves, look) <==> Arrived(leaves[0], look) && AllArrived(leaves[1..], look)
  {
    hide Follows, Arrived;
    var all := [leaf] + rest;
    assert forall i :: 0 <= i < |rest| ==> all[i + 1] == rest[i] && leaves[i + 1] == leaves[1..][i];
    assert all[0] == leaf;
    if AllFollow(leaves[1..], rest, look) && Follows(leaves[0], leaf, look) {
      forall i | 0 <= i < |leaves| ensures Follows(leaves[i], all[i], look) {
        if i > 0 { assert Follows(leaves[1..][i - 1], rest[i - 1], look); }
      }
    }
    if AllFollow(leaves, all, look) {
      forall i | 0 <= i < |rest| ensures Follows(leaves[1..][i], rest[i], look) {
        assert Follows(leaves[i + 1], all[i + 1], look);
      }
    }
    if AllPhysical(all) {
      forall i | 0 <= i < |rest| ensures rest[i].physical.Some? { assert all[i + 1].physical.Some?; }
    }
    if AllArrived(leaves[1..], look) && Arrived(leaves[0], look) {
      forall i | 0 <= i < |leaves| ensures Arrived(leaves[i], look) {
        if i > 0 { assert Arrived(leaves[1..][i - 1], look); }
      }
    }
  }

  // ---------------------------------------------------------------- one request

  /** The request may be looked at: nobody cancelled it, its client is the one that asked, and it has its lease. */
  ghost predicate Entitled(r: Request, halted: bool, bound: bool, o: Occ) {
    !r.cancelled && !halted && bound && LeaseCurrent(r, o)
  }

  ghost predicate Complete(r: Request, halted: bool, bound: bool, o: Occ, look: Look) {
    Entitled(r, halted, bound, o) && !MembersChanged(r, look) && AllArrived(r.leaves, look)
  }

  /** Only the locks of the request's own grant have changed, and they are ready. */
  ghost predicate OwnTurnedReady(r: Request, o: Occ, o': Occ) {
    && o'.surfaces.Keys == o.surfaces.Keys && o'.workspaces.Keys == o.workspaces.Keys
    && (forall s :: s in o.surfaces ==>
          o'.surfaces[s] == if Own(r, o.surfaces[s]) then o.surfaces[s].(ready := true) else o.surfaces[s])
    && (forall w :: w in o.workspaces ==>
          o'.workspaces[w] == if Own(r, o.workspaces[w]) then o.workspaces[w].(ready := true) else o.workspaces[w])
    && o' == o.(surfaces := o'.surfaces, workspaces := o'.workspaces)
  }

  /** Every outcome of a poll has its own condition, and the conditions exclude one another. A request is
      handed over exactly when it is complete; only failing leaves and changed members make it fail. */
  lemma PollsExactly(r: Request, halted: bool, bound: bool, o: Occ, look: Look, published: bool)
    ensures var (fate, o') := PollOne(r, halted, bound, o, look, published);
      var entitled := Entitled(r, halted, bound, o);
      && (fate == Drop(Cancelled) <==> r.cancelled || halted)
      && (fate == Drop(Stale) <==> !r.cancelled && !halted && !entitled)
      && (fate == Drop(FailedWith(TargetChanged)) <==>
            entitled && (MembersChanged(r, look) || FailsFirstBy(r.leaves, look, TargetChanged)))
      && (fate == Drop(FailedWith(SpawnFailed)) <==>
            entitled && !MembersChanged(r, look) && FailsFirstBy(r.leaves, look, SpawnFailed))
      && (fate == Drop(HandedOver) <==>
            Complete(r, halted, bound, o, look) && (r.target.Surface? || published))
      && (fate == Drop(PublishFailed) <==>
            Complete(r, halted, bound, o, look) && r.target.Workspace? && !published)
      && (fate.Keep? <==>
            entitled && !MembersChanged(r, look) && NoneFails(r.leaves, look) && !AllArrived(r.leaves, look))
      && (fate.Keep? ==> AllFollow(r.leaves, fate.request.leaves, look))
      && (fate == Drop(HandedOver) ==> OwnTurnedReady(r, o, o'))
  {
    hide PollLeaves, MembersChanged, FailsFirstBy, NoneFails, AllArrived, AllFollow, SetReady, Free, ReleaseAll,
      ClearTerminals, Acquire, AcquireWorkspace, OwnTurnedReady;
    LeavesExactly(r.leaves, look);
    ArrivedDoesNotFail(r.leaves, look);
    var leaves := PollLeaves(r.leaves, look).0;
    assert AllPhysical(leaves) <==> !exists i :: 0 <= i < |leaves| && leaves[i].physical.None?;
    SameClientAgain(r, o);
  }

  lemma ArrivedDoesNotFail(leaves: seq<Leaf>, look: Look)
    ensures AllArrived(leaves, look) ==> NoneFails(leaves, look)
  {
    hide Arrived, Fails;
    forall i | 0 <= i < |leaves| ensures !(Arrived(leaves[i], look) && Fails(leaves[i], look)) {
      LeafExactly(leaves[i], look);
    }
  }

  /** Acquiring again what the client holds changes nothing. */
  lemma SameClientAgain(r: Request, o: Occ)
    ensures var o1 := SetReady(o, r.client, r.grant, true);
      OwnTurnedReady(r, o, o1)
      && (LeaseCurrent(r, o) && r.target.Surface? ==> Acquire(o1, r.target.id, r.client).1 == o1)
      && (LeaseCurrent(r, o) && r.target.Workspace? ==> AcquireWorkspace(o1, r.target.id, [], [], r.client).1 == o1)
  {
    hide ReleaseAll, ClearTerminals;
  }

  /** So a request all of whose leaves have arrived never leaves with a failure of a leaf. */
  lemma ArrivedNeverRefused(r: Request, halted: bool, bound: bool, o: Occ, look: Look, published: bool)
    requires AllArrived(r.leaves, look) && !MembersChanged(r, look)
    ensures !PollOne(r, halted, bound, o, look, published).0.Keep?
    ensures forall reason :: PollOne(r, halted, bound, o, look, published).0 != Drop(FailedWith(reason))
  {
    hide PollOne, MembersChanged;
    PollsExactly(r, halted, bound, o, look, published);
    ArrivedDoesNotFail(r.leaves, look);
    hide AllArrived, NoneFails;
    LeavesExactly(r.leaves, look);
  }

  // ---------------------------------------------------------------- over a run

  /** In every poll of every run a request hands its lease over exactly if it is complete at its turn. */
  lemma HandsOverExactly(s: Sys, e: Event, i: nat)
    requires i < |s.pending| && e.DoPoll? && |e.published| == |s.pending|
    ensures var t, r := e.tick.(hub := s.hub), s.pending[i];
      var before := PollList(s.pending[..i], e.published[..i], s.occs, t).1;
      HandsOver(s, e, i) <==>
        && r.engine in before
        && Complete(r, t.halted, Bound(r, t.hub), before[r.engine], LookAt(t, r.engine))
        && (r.target.Surface? || e.published[i])
  {
    hide PollOne, PollList, Complete, Bound, LookAt;
    var t, r := e.tick.(hub := s.hub), s.pending[i];
    var before := PollList(s.pending[..i], e.published[..i], s.occs, t).1;
    if r.engine in before {
      PollsExactly(r, t.halted, Bound(r, t.hub), before[r.engine], LookAt(t, r.engine), e.published[i]);
    }
  }
}
