/** When a new attach starts to wait, with what, and what becomes of the requests that wait already. */
module AttachBegins {
  import opened Wrappers
  import opened Occupancy
  import opened OccupancyEffects
  import opened Attach

  // ---------------------------------------------------------------- what stays keeps its order

  type Staying = Request -> bool

  function Count(reqs: seq<Request>, stays: Staying): nat {
    if reqs == [] then 0
    else Count(reqs[..|reqs| - 1], stays) + if stays(reqs[|reqs| - 1]) then 1 else 0
  }

  /** The list kept holds the requests that stay, each changed as told, in their old order and no others. */
  ghost predicate StayInOrder(reqs: seq<Request>, kept: seq<Request>, stays: Staying, change: Request -> Request) {
    && |kept| == Count(reqs, stays)
    && forall i :: 0 <= i < |reqs| && stays(reqs[i]) ==> StandsAt(reqs, kept, stays, change, i)
  }

  ghost predicate StandsAt(reqs: seq<Request>, kept: seq<Request>, stays: Staying, change: Request -> Request, i: nat)
    requires i < |reqs|
  {
    var k := Count(reqs[..i], stays);
    k < |kept| && kept[k] == change(reqs[i])
  }

  lemma OneMoreInOrder(init: seq<Request>, r: Request, kept: seq<Request>, stays: Staying, change: Request -> Request)
    requires StayInOrder(init, kept, stays, change)
    ensures StayInOrder(init + [r], if stays(r) then kept + [change(r)] else kept, stays, change)
  {
    var reqs, kept' := init + [r], if stays(r) then kept + [change(r)] else kept;
    assert reqs[..|init|] == init;
    forall i | 0 <= i < |reqs| && stays(reqs[i]) ensures StandsAt(reqs, kept', stays, change, i) {
      if i < |init| {
        assert StandsAt(init, kept, stays, change, i);
        assert reqs[..i] == init[..i];
      }
    }
  }

  // ---------------------------------------------------------------- what giving leases up takes away

  /** Giving up the lease of r takes the lock of surface s, of workspace w, or the listing of s. */
  ghost predicate TakesLock(r: Request, o: Occ, s: nat) {
    LeaseCurrent(r, o) && (r.target == Surface(s) || TakesListing(r, o, s))
  }

  ghost predicate TakesWorkspace(r: Request, o: Occ, w: nat) { LeaseCurrent(r, o) && r.target == Workspace(w) }

  ghost predicate TakesListing(r: Request, o: Occ, s: nat) {
    LeaseCurrent(r, o) && s in o.memberOf && r.target == Workspace(o.memberOf[s])
  }

  ghost predicate SomeTakesLock(reqs: seq<Request>, o: Occ, leaves: Staying, s: nat) {
    exists r :: r in reqs && leaves(r) && TakesLock(r, o, s)
  }

  ghost predicate SomeTakesWorkspace(reqs: seq<Request>, o: Occ, leaves: Staying, w: nat) {
    exists r :: r in reqs && leaves(r) && TakesWorkspace(r, o, w)
  }

  ghost predicate SomeTakesListing(reqs: seq<Request>, o: Occ, leaves: Staying, s: nat) {
    exists r :: r in reqs && leaves(r) && TakesListing(r, o, s)
  }

  /** Of o exactly that is gone which the leases of the leaving requests, as they were in o, take away. */
  ghost predicate GivenUp(reqs: seq<Request>, o: Occ, o': Occ, leaves: Staying) {
    && o'.nextSeq == o.nextSeq && o'.dead == o.dead
    && (forall s :: if SomeTakesLock(reqs, o, leaves, s) then s !in o'.surfaces else SameAt(o.surfaces, o'.surfaces, s))
    && (forall w :: if SomeTakesWorkspace(reqs, o, leaves, w) then w !in o'.workspaces
                    else SameAt(o.workspaces, o'.workspaces, w))
    && (forall s :: if SomeTakesListing(reqs, o, leaves, s) then s !in o'.memberOf
                    else SameAt(o.memberOf, o'.memberOf, s))
  }

  /** Giving up one lease takes exactly that. */
  lemma FreeTakes(r: Request, o: Occ)
    ensures var o' := Free(r, o);
      && o'.nextSeq == o.nextSeq && o'.dead == o.dead
      && (forall s :: if TakesLock(r, o, s) then s !in o'.surfaces else SameAt(o.surfaces, o'.surfaces, s))
      && (forall w :: if TakesWorkspace(r, o, w) then w !in o'.workspaces else SameAt(o.workspaces, o'.workspaces, w))
      && (forall s :: if TakesListing(r, o, s) then s !in o'.memberOf else SameAt(o.memberOf, o'.memberOf, s))
  {}

  lemma SomeMore(init: seq<Request>, r: Request, o: Occ, leaves: Staying)
    ensures forall s :: SomeTakesLock(init + [r], o, leaves, s) <==>
              SomeTakesLock(init, o, leaves, s) || (leaves(r) && TakesLock(r, o, s))
    ensures forall w :: SomeTakesWorkspace(init + [r], o, leaves, w) <==>
              SomeTakesWorkspace(init, o, leaves, w) || (leaves(r) && TakesWorkspace(r, o, w))
    ensures forall s :: SomeTakesListing(init + [r], o, leaves, s) <==>
              SomeTakesListing(init, o, leaves, s) || (leaves(r) && TakesListing(r, o, s))
  {
    hide TakesLock, TakesWorkspace, TakesListing;
    assert forall q :: q in init + [r] <==> q in init || q == r;
  }

  ghost predicate TargetTaken(init: seq<Request>, r: Request, o: Occ, leaves: Staying) {
    match r.target
    case Surface(s) => SomeTakesLock(init, o, leaves, s)
    case Workspace(w) => SomeTakesWorkspace(init, o, leaves, w)
  }

  /** A lease is as it was before, unless its own target has been taken meanwhile. */
  lemma StillCurrent(init: seq<Request>, r: Request, o: Occ, o1: Occ, leaves: Staying)
    requires GivenUp(init, o, o1, leaves)
    ensures LeaseCurrent(r, o1) <==> LeaseCurrent(r, o) && !TargetTaken(init, r, o, leaves)
  {
    match r.target
    case Surface(s) => assert SomeTakesLock(init, o, leaves, s) || SameAt(o.surfaces, o1.surfaces, s);
    case Workspace(w) => assert SomeTakesWorkspace(init, o, leaves, w) || SameAt(o.workspaces, o1.workspaces, w);
  }

  /** What one release more takes out of what is left is what it would have taken at the start, or gone already. */
  lemma TakesTheSame(init: seq<Request>, r: Request, o: Occ, o1: Occ, leaves: Staying)
    requires GivenUp(init, o, o1, leaves)
    ensures forall s :: SomeTakesLock(init, o, leaves, s) || (TakesLock(r, o1, s) <==> TakesLock(r, o, s))
    ensures forall w ::
              SomeTakesWorkspace(init, o, leaves, w) || (TakesWorkspace(r, o1, w) <==> TakesWorkspace(r, o, w))
    ensures forall s :: SomeTakesListing(init, o, leaves, s) || (TakesListing(r, o1, s) <==> TakesListing(r, o, s))
  {
    StillCurrent(init, r, o, o1, leaves);
    if w :| r.target == Workspace(w) && SomeTakesWorkspace(init, o, leaves, w) {
      var q :| q in init && leaves(q) && TakesWorkspace(q, o, w);
      forall s | TakesListing(r, o, s)
        ensures SomeTakesListing(init, o, leaves, s) && SomeTakesLock(init, o, leaves, s) {
        assert TakesListing(q, o, s) && TakesLock(q, o, s);
      }
    }
    hide LeaseCurrent;
    forall s | !SomeTakesListing(init, o, leaves, s) ensures TakesListing(r, o1, s) <==> TakesListing(r, o, s) {
      assert SameAt(o.memberOf, o1.memberOf, s);
    }
    forall s | !SomeTakesLock(init, o, leaves, s) ensures TakesLock(r, o1, s) <==> TakesLock(r, o, s) {
      assert SomeTakesListing(init, o, leaves, s) || SameAt(o.memberOf, o1.memberOf, s);
    }
  }

  lemma OneMoreGivenUp(init: seq<Request>, r: Request, o: Occ, o1: Occ, leaves: Staying)
    requires GivenUp(init, o, o1, leaves)
    ensures GivenUp(init + [r], o, if leaves(r) then Free(r, o1) else o1, leaves)
  {
    var o2 := if leaves(r) then Free(r, o1) else o1;
    SomeMore(init, r, o, leaves);
    TakesTheSame(init, r, o, o1, leaves);
    FreeTakes(r, o1);
    hide Free, TakesLock, TakesWorkspace, TakesListing, SomeTakesLock, SomeTakesWorkspace, SomeTakesListing;
    forall s ensures if SomeTakesLock(init + [r], o, leaves, s) then s !in o2.surfaces
                     else SameAt(o.surfaces, o2.surfaces, s)
    {
      assert SomeTakesLock(init, o, leaves, s) || SameAt(o.surfaces, o1.surfaces, s);
    }
    forall w ensures if SomeTakesWorkspace(init + [r], o, leaves, w) then w !in o2.workspaces
                     else SameAt(o.workspaces, o2.workspaces, w)
    {
      assert SomeTakesWorkspace(init, o, leaves, w) || SameAt(o.workspaces, o1.workspaces, w);
    }
    forall s ensures if SomeTakesListing(init + [r], o, leaves, s) then s !in o2.memberOf
                     else SameAt(o.memberOf, o2.memberOf, s)
    {
      assert SomeTakesListing(init, o, leaves, s) || SameAt(o.memberOf, o1.memberOf, s);
    }
  }

  // ---------------------------------------------------------------- ending requests

  function Replaced(id: nat, client: nat): Staying { (r: Request) => r.client == client && r.engine == id }
  function On(id: nat): Staying { (r: Request) => r.engine == id }
  function Not(leaves: Staying): Staying { (r: Request) => !leaves(r) }
  function Cancelling(client: nat): Request -> Request {
    (r: Request) => if r.client == client then r.(cancelled := true) else r
  }
  function Unchanged(): Request -> Request { (r: Request) => r }

  /** A new attach takes out the requests of its client on the same engine, with their leases, and cancels
      the client's others. */
  lemma {:induction false} DrainExactly(pending: seq<Request>, o: Occ, id: nat, client: nat)
    ensures var (kept, o') := Drain(pending, o, id, client);
      StayInOrder(pending, kept, Not(Replaced(id, client)), Cancelling(client))
      && GivenUp(pending, o, o', Replaced(id, client))
  {
    if pending != [] {
      hide Free, StayInOrder, GivenUp;
      var n := |pending| - 1;
      DrainExactly(pending[..n], o, id, client);
      var (kept, o1) := Drain(pending[..n], o, id, client);
      OneMoreInOrder(pending[..n], pending[n], kept, Not(Replaced(id, client)), Cancelling(client));
      OneMoreGivenUp(pending[..n], pending[n], o, o1, Replaced(id, client));
      assert pending[..n] + [pending[n]] == pending;
    }
  }

  /** Closing an engine takes out its requests with their leases, and nothing else. */
  lemma {:induction false} CloseExactly(pending: seq<Request>, o: Occ, id: nat)
    ensures var (kept, o') := CancelEngine(pending, o, id);
      StayInOrder(pending, kept, Not(On(id)), Unchanged()) && GivenUp(pending, o, o', On(id))
  {
    if pending != [] {
      hide Free, StayInOrder, GivenUp;
      var n := |pending| - 1;
      CloseExactly(pending[..n], o, id);
      var (kept, o1) := CancelEngine(pending[..n], o, id);
      OneMoreInOrder(pending[..n], pending[n], kept, Not(On(id)), Unchanged());
      OneMoreGivenUp(pending[..n], pending[n], o, o1, On(id));
      assert pending[..n] + [pending[n]] == pending;
    }
  }

  /** Once a client has cancelled, its requests only wait to be released: whatever a poll finds, none of them is
      handed over, and their leases end. The requests of the others are as they were. */
  lemma CancelledNeverReady(pending: seq<Request>, client: nat, i: nat, halted: bool, bound: bool, o: Occ,
                            look: Look, published: bool)
    requires i < |pending|
    ensures var after := CancelClient(pending, client);
      && |after| == |pending| && (pending[i].client != client ==> after[i] == pending[i])
      && (pending[i].client == client ==>
            var (fate, o') := PollOne(after[i], halted, bound, o, look, published);
            Stands(after[i], pending[i]) && fate == Drop(Cancelled) && !LeaseCurrent(pending[i], o'))
  {
    hide Free, PollLeaves, Acquire, AcquireWorkspace, SetReady;
    var r := CancelClient(pending, client)[i];
    FreeIsExact(r, o);
    hide LeaseCurrent;
    if r.client == client { SameLease(r, pending[i], Free(r, o)); }
  }

  lemma SameLease(a: Request, b: Request, o: Occ)
    requires Stands(a, b)
    ensures LeaseCurrent(a, o) == LeaseCurrent(b, o)
  {}

  // ---------------------------------------------------------------- a new attach

  /** The client waits for the target already, over the connection it has now. */
  ghost predicate WaitsAlready(pending: seq<Request>, client: nat, hub: map<nat, nat>, target: Target) {
    exists r :: r in pending && r.client == client && Bound(r, hub) && r.target == target && !r.cancelled
  }

  /** There is something to wait for: a terminal, or a workspace. */
  predicate ToWaitFor(target: Target, f: Facts) { if target.Surface? then f.terminal else f.surfaces.Some? }

  function TerminalsOf(target: Target, f: Facts): seq<nat> {
    if target.Surface? then [target.id] else f.terminals
  }

  function MembersOfTarget(target: Target, f: Facts): seq<nat>
    requires ToWaitFor(target, f)
  {
    if target.Surface? then [target.id] else f.surfaces.value
  }

  /** The target can be had: the client has it, or no living other client has it, nor one of its terminals when
      that is looked at. */
  ghost predicate Obtainable(o: Occ, target: Target, terminals: seq<nat>, client: nat) {
    match target
    case Surface(s) => !HeldAgainst(o.surfaces, o.dead, s, client)
    case Workspace(w) =>
      || (w in o.workspaces && o.workspaces[w].holder == client)
      || (!HeldAgainst(o.workspaces, o.dead, w, client)
          && NoneStands(Without(o, o.workspaces, w), {}, terminals, client))
  }

  /** The leaf of a surface as it is found: live if its terminal is, else with its activation and without receipt. */
  ghost predicate AsFound(leaf: Leaf, id: nat, look: Look) {
    && leaf.id == id && leaf.receipt.None? && leaf.activation == Get(look.activation, id)
    && (leaf.physical.Some? <==> id in look.generation) && (leaf.physical.Some? ==> LeafLive(leaf, look))
  }

  ghost predicate AllAsFound(leaves: seq<Leaf>, ids: seq<nat>, look: Look) {
    |leaves| == |ids| && forall i :: 0 <= i < |ids| ==> AsFound(leaves[i], ids[i], look)
  }

  /** The new request waits for the target as it was found, under the grant of the lock the target has now. */
  ghost predicate WaitsFor(r: Request, id: nat, target: Target, client: nat, hub: map<nat, nat>, f: Facts, o': Occ)
    requires ToWaitFor(target, f)
  {
    && !r.cancelled && r.engine == id && r.target == target && r.client == client && Bound(r, hub)
    && r.members == MembersOfTarget(target, f) && AllAsFound(r.leaves, TerminalsOf(target, f), f.look)
    && LeaseCurrent(r, o')
  }

  lemma Granting(o: Occ, target: Target, terminals: seq<nat>, members: seq<nat>, client: nat)
    ensures var (answer, o') := AcquireTarget(o, target, terminals, members, client);
      && (answer.Granted? <==> Obtainable(o, target, terminals, client))
      && (answer.Granted? ==> LockOf(o', target) == Some(answer.lock) && answer.lock.holder == client)
  {
    hide ReleaseAll, AcquireWorkspace, Acquire, OthersAsBefore, NoneStands;
    match target
    case Surface(s) =>
      AcquireExactly(o, s, client);
      var answer := Acquire(o, s, client).0;
      assert !answer.AlreadyAttached? ==> answer.Granted?;
    case Workspace(w) => AcquireWorkspaceExactly(o, w, terminals, members, client);
  }

  lemma Unready(o: Occ, target: Target, client: nat, grant: nat)
    ensures var o' := SetReady(o, client, grant, false);
      LockOf(o, target).Some? ==> LockOf(o', target).Some? && Same(LockOf(o', target).value, LockOf(o, target).value)
  {}

  /** An attach starts to wait if and only if its client is connected, does not wait for the target already,
      fewer than 64 others wait, the target is there, the queue can take it, and the target can be had. It stands
      last, and waits for what was found. A client that is not connected, or waits for the target already,
      changes nothing; in every other case its earlier requests have ended. */
  lemma BeginExactly(pending: seq<Request>, o: Occ, id: nat, target: Target, client: nat, hub: map<nat, nat>, f: Facts)
    ensures var (after, o') := Begin(pending, o, id, target, client, hub, f);
      var (kept, o1) := Drain(pending, o, id, client);
      var idle := client !in hub || WaitsAlready(pending, client, hub, target);
      var asks := !idle && |kept| < MAX_PENDING && ToWaitFor(target, f) && f.fits;
      var terminals := TerminalsOf(target, f);
      && (idle ==> after == pending && o' == o)
      && (!idle && !asks ==> after == kept)
      && (asks && !Obtainable(o1, target, terminals, client) ==> after == kept)
      && (asks && Obtainable(o1, target, terminals, client) ==>
            |after| == |kept| + 1 && kept < after && WaitsFor(after[|kept|], id, target, client, hub, f, o'))
  {
    hide Drain, AcquireTarget, Obtainable, SetReady, AllAsFound;
    var idle := client !in hub || WaitsAlready(pending, client, hub, target);
    if client in hub { SameDuplicate(pending, client, hub, target); }
    if !idle {
      var (kept, o1) := Drain(pending, o, id, client);
      if |kept| < MAX_PENDING && ToWaitFor(target, f) && f.fits {
        var terminals, members := TerminalsOf(target, f), MembersOfTarget(target, f);
        Granting(o1, target, terminals, members, client);
        var (answer, o2) := AcquireTarget(o1, target, terminals, members, client);
        if answer.Granted? {
          LeavesFound(terminals, f.look);
          Unready(o2, target, client, answer.lock.grant);
        }
      }
    }
  }

  /** A surface that is no terminal is attached on the spot, if that is possible: no request waits, and the
      client has the lock unless a living other client does. */
  lemma AttachedOnTheSpot(pending: seq<Request>, o: Occ, id: nat, s: nat, client: nat, hub: map<nat, nat>, f: Facts)
    requires client in hub && !WaitsAlready(pending, client, hub, Surface(s)) && !f.terminal
    ensures var (after, o') := Begin(pending, o, id, Surface(s), client, hub, f);
      var (kept, o1) := Drain(pending, o, id, client);
      var acquires := |kept| < MAX_PENDING && f.direct;
      && (!acquires ==> o' == o1)
      && (acquires && !HeldAgainst(o1.surfaces, o1.dead, s, client) ==>
            s in o'.surfaces && o'.surfaces[s].holder == client)
      && (acquires && HeldAgainst(o1.surfaces, o1.dead, s, client) ==> o' == o1)
  {
    hide Drain, Acquire;
    SameDuplicate(pending, client, hub, Surface(s));
    AcquireExactly(Drain(pending, o, id, client).1, s, client);
  }

  lemma SameDuplicate(pending: seq<Request>, client: nat, hub: map<nat, nat>, target: Target)
    requires client in hub
    ensures Duplicate(pending, client, hub[client], target) <==> WaitsAlready(pending, client, hub, target)
  {
    if WaitsAlready(pending, client, hub, target) {
      var r :| r in pending && r.client == client && Bound(r, hub) && r.target == target && !r.cancelled;
      var i :| 0 <= i < |pending| && pending[i] == r;
    }
  }

  lemma LeavesFound(terminals: seq<nat>, look: Look)
    ensures AllAsFound(NewLeaves(terminals, look), terminals, look)
  {}
}
