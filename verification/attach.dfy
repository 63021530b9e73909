/** Attach requests that hold a lease while they wait for terminals to be activated. */
module Attach {
  import opened Wrappers
  import opened Occupancy

  datatype Target = Surface(id: nat) | Workspace(id: nat)

  datatype Leaf = Leaf(id: nat, activation: Option<nat>, receipt: Option<nat>, physical: Option<nat>)

  datatype Request = Request(
    cancelled: bool, engine: nat, target: Target, client: nat, binding: nat, grant: nat,
    leaves: seq<Leaf>, members: seq<nat>)

  const MAX_PENDING := 64

  // ---------------------------------------------------------------- the lease

  predicate LeaseCurrent(r: Request, o: Occ) {
    match r.target
    case Surface(s) => s in o.surfaces && o.surfaces[s].holder == r.client && o.surfaces[s].grant == r.grant
    case Workspace(w) => w in o.workspaces && o.workspaces[w].holder == r.client && o.workspaces[w].grant == r.grant
  }

  function Free(r: Request, o: Occ): Occ {
    if !LeaseCurrent(r, o) then o
    else
      match r.target
      case Surface(s) => Release(o, s, r.client)
      case Workspace(w) => ForceDetachWorkspace(o, w)
  }

  /** The lock is this request's own: its client and its grant. */
  ghost predicate Own(r: Request, lock: Lock) { lock.holder == r.client && lock.grant == r.grant }

  /** Freeing took a lock away that the request did not hold. */
  ghost predicate FreesForeign(r: Request, o: Occ) {
    || (exists s :: s in o.surfaces && s !in Free(r, o).surfaces && !Own(r, o.surfaces[s]))
    || (exists w :: w in o.workspaces && w !in Free(r, o).workspaces && !Own(r, o.workspaces[w]))
  }

  /** A surface listed as a member of workspace w is locked under another grant. */
  ghost predicate ForeignMember(r: Request, o: Occ, w: nat) {
    exists s :: s in o.memberOf && o.memberOf[s] == w && s in o.surfaces && !Own(r, o.surfaces[s])
  }

  /** Freeing leaves the request without its lease, and takes away somebody else's lock exactly when the
      target is a workspace one of whose listed members is locked under another grant. */
  lemma FreeIsExact(r: Request, o: Occ)
    ensures !LeaseCurrent(r, Free(r, o))
    ensures FreesForeign(r, o) <==> r.target.Workspace? && LeaseCurrent(r, o) && ForeignMember(r, o, r.target.id)
    ensures Fewer(o, Free(r, o))
  {
    if r.target.Workspace? && LeaseCurrent(r, o) && ForeignMember(r, o, r.target.id) {
      var s :| s in o.memberOf && o.memberOf[s] == r.target.id && s in o.surfaces && !Own(r, o.surfaces[s]);
      assert s !in Free(r, o).surfaces;
    }
  }

  /** One request's release ends another client's current lease exactly when it frees a workspace that
      lists the surface the other one holds. */
  lemma FreeAndOthers(r: Request, q: Request, o: Occ)
    requires LeaseCurrent(r, o) && LeaseCurrent(q, o) && r.client != q.client
    ensures LeaseCurrent(q, Free(r, o)) <==>
              !(r.target.Workspace? && q.target.Surface? && q.target.id in o.memberOf
                && o.memberOf[q.target.id] == r.target.id)
  {}

  /** Every lock of the grant is on the target itself, or on a surface still listed in the workspace. */
  ghost predicate AllListed(r: Request, o: Occ) {
    match r.target
    case Surface(x) =>
      && (forall s :: s in o.surfaces && Own(r, o.surfaces[s]) ==> s == x)
      && (forall w :: w in o.workspaces ==> !Own(r, o.workspaces[w]))
    case Workspace(w) =>
      forall s :: s in o.surfaces && Own(r, o.surfaces[s]) ==> s in o.memberOf && o.memberOf[s] == w
  }

  /** Giving a lease up leaves no lock of its grant behind exactly when every lock of the grant is listed
      where the release looks. */
  lemma FreeLeavesNothing(r: Request, o: Occ)
    requires GrantsOk(o) && LeaseCurrent(r, o)
    ensures !Carries(Free(r, o), r.client, r.grant) <==> AllListed(r, o)
  {
    var o' := Free(r, o);
    match r.target {
      case Surface(x) =>
        if !AllListed(r, o) {
          if s :| s in o.surfaces && Own(r, o.surfaces[s]) && s != x { assert s in o'.surfaces; }
        }
      case Workspace(w) =>
        assert forall v :: v in o.workspaces && Own(r, o.workspaces[v]) ==> v == w;
        if !AllListed(r, o) {
          var s :| s in o.surfaces && Own(r, o.surfaces[s]) && !(s in o.memberOf && o.memberOf[s] == w);
          assert s in o'.surfaces;
        }
    }
  }

  // ---------------------------------------------------------------- waiting for activations

  datatype Activated = Activated(current: Option<nat>, generation: Option<nat>) | NotActivated
  datatype Restore = Asked(ticket: Option<nat>) | RestoreError

  /** What one look at an engine shows: current activations, live terminal generations, the surfaces of
      each workspace, finished receipts and the answers to new restore requests. */
  datatype Look = Look(
    activation: map<nat, nat>, generation: map<nat, nat>, surfaces: map<nat, seq<nat>>,
    receipts: map<nat, Activated>, restore: map<nat, Restore>)

  function Get<V>(m: map<nat, V>, k: nat): Option<V> { if k in m then Some(m[k]) else None }

  datatype Reason = TargetChanged | SpawnFailed

  function PollLeaf(leaf: Leaf, look: Look): (Leaf, Option<Reason>) {
    var current := Get(look.activation, leaf.id);
    if leaf.physical.Some? then
      if current != leaf.activation || Get(look.generation, leaf.id) != leaf.physical then (leaf, Some(TargetChanged))
        else (leaf, None)
    else if leaf.receipt.Some? then
      var outcome: Option<Activated> := Get(look.receipts, leaf.receipt.value);
      match outcome
      case None => (leaf, None)
      case Some(Activated(activation, Some(g))) =>
        if current == activation && Get(look.generation, leaf.id) == Some(g)
        then (leaf.(activation := activation, physical := Some(g)), None)
        else (leaf, Some(SpawnFailed))
      case Some(_) => (leaf, Some(SpawnFailed))
    else if current != leaf.activation then (leaf, Some(TargetChanged))
    else
      var answer: Option<Restore> := Get(look.restore, leaf.id);
      match answer
      case Some(RestoreError) => (leaf, Some(SpawnFailed))
      case Some(Asked(ticket)) => (leaf.(receipt := ticket), None)
      case None => (leaf, None)
  }

  /** The leaf stands for the terminal that is live now. */
  ghost predicate LeafLive(leaf: Leaf, look: Look) {
    leaf.physical.Some? && Get(look.generation, leaf.id) == leaf.physical
      && Get(look.activation, leaf.id) == leaf.activation
  }

  /** Leaves are polled in order up to the first failure. */
  function PollLeaves(leaves: seq<Leaf>, look: Look): (r: (seq<Leaf>, Option<Reason>))
    ensures |r.0| == |leaves|
  {
    if leaves == [] then ([], None)
    else
      var (leaf, failure) := PollLeaf(leaves[0], look);
      if failure.Some? then ([leaf] + leaves[1..], failure)
      else
        var (rest, failure') := PollLeaves(leaves[1..], look);
        ([leaf] + rest, failure')
  }

  lemma {:induction false} PolledLeavesLive(leaves: seq<Leaf>, look: Look)
    requires PollLeaves(leaves, look).1.None?
    ensures forall i :: 0 <= i < |leaves| ==>
              var l := PollLeaves(leaves, look).0[i]; l.id == leaves[i].id && (l.physical.Some? ==> LeafLive(l, look))
  {
    if leaves != [] {
      PolledLeavesLive(leaves[1..], look);
      var r := PollLeaves(leaves, look).0;
      forall i | 0 <= i < |leaves| ensures r[i].id == leaves[i].id && (r[i].physical.Some? ==> LeafLive(r[i], look)) {
        if i > 0 { assert r[i] == PollLeaves(leaves[1..], look).0[i - 1] && leaves[i] == leaves[1..][i - 1]; }
      }
    }
  }

  /** The workspace's surfaces are no longer the ones captured when the request began. */
  predicate MembersChanged(r: Request, look: Look) {
    r.target.Workspace? &&
    match Get(look.surfaces, r.target.id)
    case None => true
    case Some(now) => |now| != |r.members| || exists i :: 0 <= i < |now| && now[i] !in r.members
  }

  ghost predicate Distinct(xs: seq<nat>) { forall i, j :: 0 <= i < j < |xs| ==> xs[i] != xs[j] }

  ghost function Elements(xs: seq<nat>): set<nat> { set i | 0 <= i < |xs| :: xs[i] }

  lemma {:induction false} DistinctSize(xs: seq<nat>)
    requires Distinct(xs)
    ensures |Elements(xs)| == |xs|
  {
    if xs != [] {
      var init, last := xs[..|xs| - 1], xs[|xs| - 1];
      DistinctSize(init);
      assert Elements(xs) == Elements(init) + {last};
    }
  }

  lemma SubsetOfSameSize(a: set<nat>, b: set<nat>)
    requires a <= b && |a| == |b|
    ensures a == b
  {
    assert |b| == |a| + |b - a| by { assert b == a + (b - a); }
    assert b - a == {};
    assert b == a + (b - a);
  }

  /** For distinct ids the length-and-containment test is set equality. */
  lemma MembersSameSet(r: Request, look: Look)
    requires r.target.Workspace? && Distinct(r.members)
    requires r.target.id in look.surfaces ==> Distinct(look.surfaces[r.target.id])
    ensures !MembersChanged(r, look) <==>
      r.target.id in look.surfaces && Elements(look.surfaces[r.target.id]) == Elements(r.members)
  {
    if r.target.id in look.surfaces {
      var now := look.surfaces[r.target.id];
      DistinctSize(now);
      DistinctSize(r.members);
      if |now| == |r.members| && forall i :: 0 <= i < |now| ==> now[i] in r.members {
        SubsetOfSameSize(Elements(now), Elements(r.members));
      }
      if Elements(now) == Elements(r.members) {
        forall i | 0 <= i < |now| ensures now[i] in r.members { assert now[i] in Elements(now); }
      }
    }
  }

  // ---------------------------------------------------------------- polling one request

  datatype Why = NoEngine | Cancelled | Stale | FailedWith(reason: Reason) | HandedOver | PublishFailed
  datatype Fate = Keep(request: Request) | Drop(why: Why)

  function PollOne(r: Request, halted: bool, bound: bool, o: Occ, look: Look, published: bool): (Fate, Occ) {
    if r.cancelled || halted then (Drop(Cancelled), Free(r, o))
    else if !bound || !LeaseCurrent(r, o) then (Drop(Stale), Free(r, o))
    else
      var (leaves, failure0) := PollLeaves(r.leaves, look);
      var failure := if MembersChanged(r, look) then Some(TargetChanged) else failure0;
      if failure.Some? then (Drop(FailedWith(failure.value)), Free(r, o))
      else if exists i :: 0 <= i < |leaves| && leaves[i].physical.None? then (Keep(r.(leaves := leaves)), o)
      else
        var o1 := SetReady(o, r.client, r.grant, true);
        match r.target
        case Surface(s) => (Drop(HandedOver), Acquire(o1, s, r.client).1)
        case Workspace(w) =>
          if published then (Drop(HandedOver), AcquireWorkspace(o1, w, [], [], r.client).1)
          else (Drop(PublishFailed), Free(r, o1))
  }

  /** Everything the lease covers is marked ready. */
  ghost predicate AllReady(r: Request, o: Occ) {
    && (forall s :: s in o.surfaces && Own(r, o.surfaces[s]) ==> o.surfaces[s].ready)
    && (forall w :: w in o.workspaces && Own(r, o.workspaces[w]) ==> o.workspaces[w].ready)
  }

  lemma SetReadyFacts(r: Request, o: Occ)
    ensures var o1 := SetReady(o, r.client, r.grant, true);
            && Fewer(o, o1) && Fewer(o1, o) && (LeaseCurrent(r, o1) <==> LeaseCurrent(r, o)) && AllReady(r, o1)
            && o1.memberOf == o.memberOf
  {}

  /** A request that leaves the list handed its lease over or no longer has one. */
  lemma LeavingAccountsForLease(r: Request, halted: bool, bound: bool, o: Occ, look: Look, published: bool)
    ensures var (fate, o') := PollOne(r, halted, bound, o, look, published);
            match fate
            case Keep(q) => o' == o && LeaseCurrent(r, o') && q == r.(leaves := q.leaves)
            case Drop(HandedOver) => LeaseCurrent(r, o')
            case Drop(_) => !LeaseCurrent(r, o')
    ensures Fewer(o, PollOne(r, halted, bound, o, look, published).1)
  {
    hide PollLeaves, MembersChanged, SetReady, AllReady, Fewer, ReleaseAll, ClearTerminals;
    FreeIsExact(r, o);
    NothingFewer(o);
    SetReadyFacts(r, o);
    var o1 := SetReady(o, r.client, r.grant, true);
    FreeIsExact(r, o1);
    FewerTwice(o, o1, Free(r, o1));
  }

  lemma FewerTwice(a: Occ, b: Occ, c: Occ)
    requires Fewer(a, b) && Fewer(b, c)
    ensures Fewer(a, c)
  {}

  /** The lease is handed over ready only when it is current, the client is the one that asked, every
      leaf is the live terminal of its activation, and the workspace is the one captured at the start. */
  lemma ReadyOnlyWhenLive(r: Request, halted: bool, bound: bool, o: Occ, look: Look, published: bool)
    requires PollOne(r, halted, bound, o, look, published).0 == Drop(HandedOver)
    ensures AllReady(r, PollOne(r, halted, bound, o, look, published).1) && LeaseCurrent(r, o) && bound && !halted
      && !r.cancelled
    ensures var leaves := PollLeaves(r.leaves, look).0; forall i :: 0 <= i < |leaves| ==>
      leaves[i].id == r.leaves[i].id && LeafLive(leaves[i], look)
    ensures !MembersChanged(r, look)
  {
    hide PollLeaves, MembersChanged, SetReady, ReleaseAll, ClearTerminals, PollLeaf;
    SetReadyFacts(r, o);
    PolledLeavesLive(r.leaves, look);
  }

  function LockOf(o: Occ, x: Target): Option<Lock> {
    match x
    case Surface(s) => if s in o.surfaces then Some(o.surfaces[s]) else None
    case Workspace(w) => if w in o.workspaces then Some(o.workspaces[w]) else None
  }

  /** A lock that was not ready is ready now. */
  ghost predicate TurnedReady(o: Occ, o': Occ, x: Target) {
    LockOf(o, x).Some? && !LockOf(o, x).value.ready && LockOf(o', x).Some? && LockOf(o', x).value.ready
  }

  /** All that a request must show before its lease is marked ready. */
  ghost predicate Passes(r: Request, halted: bool, bound: bool, o: Occ, look: Look) {
    && !r.cancelled && !halted && bound && LeaseCurrent(r, o) && !MembersChanged(r, look)
    && var leaves := PollLeaves(r.leaves, look).0;
       forall i :: 0 <= i < |leaves| ==> leaves[i].id == r.leaves[i].id && LeafLive(leaves[i], look)
  }

  /** A poll turns no lock ready but those of a lease that is current, uncancelled and bound, with every leaf
      live and the members unchanged. That holds too when the publication fails afterwards. */
  lemma TurnsReady(r: Request, halted: bool, bound: bool, o: Occ, look: Look, published: bool, x: Target)
    requires TurnedReady(o, PollOne(r, halted, bound, o, look, published).1, x)
    ensures Passes(r, halted, bound, o, look) && Own(r, LockOf(o, x).value)
  {
    hide PollLeaves, MembersChanged, ReleaseAll, ClearTerminals, PollLeaf;
    SetReadyFacts(r, o);
    NotTurnedByFree(r, o, x);
    var o1 := SetReady(o, r.client, r.grant, true);
    NotTurnedByFree(r, o1, x);
    TurnedBySetReady(r, o, x);
    hide SetReady, Free, TurnedReady, Own;
    if PollLeaves(r.leaves, look).1.None? { PolledLeavesLive(r.leaves, look); }
  }

  lemma NotTurnedByFree(r: Request, o: Occ, x: Target)
    ensures LockOf(Free(r, o), x).Some? ==> LockOf(Free(r, o), x) == LockOf(o, x)
    ensures !TurnedReady(o, Free(r, o), x) && !TurnedReady(o, o, x)
  {}

  lemma TurnedBySetReady(r: Request, o: Occ, x: Target)
    ensures var o1 := SetReady(o, r.client, r.grant, true);
      && (TurnedReady(o, o1, x) ==> Own(r, LockOf(o, x).value))
      && (TurnedReady(o, Free(r, o1), x) ==> Own(r, LockOf(o, x).value))
  {
    NotTurnedByFree(r, SetReady(o, r.client, r.grant, true), x);
  }

  // ---------------------------------------------------------------- the list of requests

  /** One round of the main loop: who is connected under which binding, and how the engines look. */
  datatype Tick = Tick(halted: bool, hub: map<nat, nat>, looks: map<nat, Look>)

  const BLANK := Look(map[], map[], map[], map[], map[])

  predicate Bound(r: Request, hub: map<nat, nat>) { r.client in hub && hub[r.client] == r.binding }

  function LookAt(t: Tick, engine: nat): Look { if engine in t.looks then t.looks[engine] else BLANK }

  function PollFate(r: Request, o: Occ, t: Tick, published: bool): (Fate, Occ) {
    PollOne(r, t.halted, Bound(r, t.hub), o, LookAt(t, r.engine), published)
  }

  function PollStep(kept: seq<Request>, occs: map<nat, Occ>, r: Request, t: Tick,
                    published: bool): (seq<Request>, map<nat, Occ>) {
    if r.engine !in occs then (kept, occs)
    else
      var (fate, o) := PollFate(r, occs[r.engine], t, published);
      (if fate.Keep? then kept + [fate.request] else kept, occs[r.engine := o])
  }

  function PollList(reqs: seq<Request>, published: seq<bool>, occs: map<nat, Occ>,
                    t: Tick): (seq<Request>, map<nat, Occ>)
    requires |published| == |reqs|
  {
    if reqs == [] then ([], occs)
    else
      var n := |reqs| - 1;
      var (kept, occs1) := PollList(reqs[..n], published[..n], occs, t);
      PollStep(kept, occs1, reqs[n], t, published[n])
  }

  function DrainStep(kept: seq<Request>, o: Occ, item: Request, id: nat, client: nat): (seq<Request>, Occ) {
    if item.client != client then (kept + [item], o)
    else if item.engine == id then (kept, Free(item, o))
    else (kept + [item.(cancelled := true)], o)
  }

  /** A new attach of a client ends its earlier requests: freed on this engine, cancelled elsewhere. */
  function Drain(pending: seq<Request>, o: Occ, id: nat, client: nat): (seq<Request>, Occ) {
    if pending == [] then ([], o)
    else
      var n := |pending| - 1;
      var (kept, o1) := Drain(pending[..n], o, id, client);
      DrainStep(kept, o1, pending[n], id, client)
  }

  function CancelStep(kept: seq<Request>, o: Occ, r: Request, id: nat): (seq<Request>, Occ) {
    if r.engine != id then (kept + [r], o) else (kept, Free(r, o))
  }

  function CancelEngine(pending: seq<Request>, o: Occ, id: nat): (seq<Request>, Occ) {
    if pending == [] then ([], o)
    else
      var n := |pending| - 1;
      var (kept, o1) := CancelEngine(pending[..n], o, id);
      CancelStep(kept, o1, pending[n], id)
  }

  /** What the engine says about the target of a new attach: whether a surface is a terminal, whether a
      non-terminal is attached on the spot, the workspace's surfaces if it exists, its terminals, and
      whether the queue's byte budget allows one more request. */
  datatype Facts = Facts(terminal: bool, direct: bool, surfaces: Option<seq<nat>>, terminals: seq<nat>, fits: bool,
                         look: Look)

  function NewLeaves(terminals: seq<nat>, look: Look): seq<Leaf> {
    seq(|terminals|, i requires 0 <= i < |terminals| =>
      Leaf(terminals[i], Get(look.activation, terminals[i]), None, Get(look.generation, terminals[i])))
  }

  predicate Duplicate(pending: seq<Request>, client: nat, binding: nat, target: Target) {
    exists i :: 0 <= i < |pending| && !pending[i].cancelled && pending[i].client == client
      && pending[i].binding == binding && pending[i].target == target
  }

  function AcquireTarget(o: Occ, target: Target, terminals: seq<nat>, members: seq<nat>, client: nat): (Answer, Occ) {
    match target
    case Surface(s) => Acquire(o, s, client)
    case Workspace(w) => AcquireWorkspace(o, w, terminals, members, client)
  }

  function Begin(pending: seq<Request>, o: Occ, id: nat, target: Target, client: nat, hub: map<nat, nat>,
                 f: Facts): (seq<Request>, Occ) {
    if client !in hub || Duplicate(pending, client, hub[client], target) then (pending, o)
    else
      var (kept, o1) := Drain(pending, o, id, client);
      if |kept| >= MAX_PENDING then (kept, o1)
      else if target.Surface? && !f.terminal then (kept, if f.direct then Acquire(o1, target.id, client).1 else o1)
      else if target.Workspace? && f.surfaces.None? then (kept, o1)
      else if !f.fits then (kept, o1)
      else
        var members := if target.Surface? then [target.id] else f.surfaces.value;
        var terminals := if target.Surface? then [target.id] else f.terminals;
        var (answer, o2) := AcquireTarget(o1, target, terminals, members, client);
        match answer
        case AlreadyAttached(_) => (kept, o2)
        case Granted(lock) =>
          (kept + [Request(false, id, target, client, hub[client], lock.grant, NewLeaves(terminals, f.look), members)],
           SetReady(o2, client, lock.grant, false))
  }

  // ---------------------------------------------------------------- the list stays small and single

  ghost predicate Apart(a: Request, b: Request) {
    a.client == b.client ==> a.engine != b.engine && (a.cancelled || b.cancelled)
  }

  /** At most one uncancelled request per client, and at most one of any kind per client and engine. */
  ghost predicate Single(reqs: seq<Request>) {
    forall i, j :: 0 <= i < j < |reqs| ==> Apart(reqs[i], reqs[j])
  }

  ghost predicate ListOk(reqs: seq<Request>) { |reqs| <= MAX_PENDING && Single(reqs) }

  ghost predicate Stands(q: Request, r: Request) {
    q.client == r.client && q.engine == r.engine && (r.cancelled ==> q.cancelled) && q.target == r.target
      && q.grant == r.grant
  }

  /** Every element of kept stands for one of reqs[..n]. */
  ghost predicate Descends(kept: seq<Request>, reqs: seq<Request>) {
    |kept| <= |reqs| && forall k :: 0 <= k < |kept| ==> HasSource(kept[k], reqs)
  }

  ghost predicate HasSource(q: Request, reqs: seq<Request>) { exists i :: 0 <= i < |reqs| && Stands(q, reqs[i]) }

  lemma DescendsMore(kept: seq<Request>, reqs: seq<Request>, r: Request)
    requires Descends(kept, reqs)
    ensures Descends(kept, reqs + [r])
  {
    forall k | 0 <= k < |kept| ensures HasSource(kept[k], reqs + [r]) { SourceMore(kept[k], reqs, r); }
  }

  lemma SourceMore(q: Request, reqs: seq<Request>, r: Request)
    requires HasSource(q, reqs)
    ensures HasSource(q, reqs + [r])
  {
    var i :| 0 <= i < |reqs| && Stands(q, reqs[i]);
    assert Stands(q, (reqs + [r])[i]);
  }

  lemma KeepOne(kept: seq<Request>, reqs: seq<Request>, r: Request, q: Request)
    requires Descends(kept, reqs) && Single(kept) && Single(reqs + [r]) && Stands(q, r)
    ensures Descends(kept + [q], reqs + [r]) && Single(kept + [q])
  {
    DescendsMore(kept, reqs, r);
    var all := reqs + [r];
    assert Stands(q, all[|reqs|]);
    assert HasSource(q, all);
    forall k | 0 <= k < |kept| ensures Apart(kept[k], q) {
      assert HasSource(kept[k], reqs);
      var i :| 0 <= i < |reqs| && Stands(kept[k], reqs[i]);
      assert Apart(all[i], all[|reqs|]);
    }
  }

  lemma SinglePrefix(reqs: seq<Request>, n: nat)
    requires n <= |reqs| && Single(reqs)
    ensures Single(reqs[..n])
  {}

  lemma {:induction false} PollListOk(reqs: seq<Request>, published: seq<bool>, occs: map<nat, Occ>, t: Tick)
    requires |published| == |reqs| && Single(reqs)
    ensures var (kept, occs') := PollList(reqs, published, occs, t);
      Single(kept) && Descends(kept, reqs) && occs'.Keys == occs.Keys
  {
    hide Single, Descends, PollOne;
    if reqs == [] {
      EmptyList(reqs);
    } else {
      var n := |reqs| - 1;
      SinglePrefix(reqs, n);
      PollListOk(reqs[..n], published[..n], occs, t);
      assert reqs[..n] + [reqs[n]] == reqs;
      var (kept, occs1) := PollList(reqs[..n], published[..n], occs, t);
      DescendsMore(kept, reqs[..n], reqs[n]);
      if reqs[n].engine in occs1 {
        var o := occs1[reqs[n].engine];
        PollFateStands(reqs[n], o, t, published[n]);
        var fate := PollFate(reqs[n], o, t, published[n]).0;
        if fate.Keep? { KeepOne(kept, reqs[..n], reqs[n], fate.request); }
      }
    }
  }

  lemma EmptyList(reqs: seq<Request>)
    requires reqs == []
    ensures Single([]) && Descends([], reqs)
  {}

  lemma PollFateStands(r: Request, o: Occ, t: Tick, published: bool)
    ensures var (fate, o') := PollFate(r, o, t, published);
            Fewer(o, o') && (fate.Keep? ==> Stands(fate.request, r))
              && (LeaseCurrent(r, o') ==> fate.Keep? || fate == Drop(HandedOver))
  {
    hide PollOne, LeaseCurrent, Fewer;
    LeavingAccountsForLease(r, t.halted, Bound(r, t.hub), o, LookAt(t, r.engine), published);
  }

  ghost predicate AllFewer(occs: map<nat, Occ>, occs': map<nat, Occ>) {
    occs.Keys == occs'.Keys && forall e :: e in occs ==> Fewer(occs[e], occs'[e])
  }

  lemma {:induction false} PollListFewer(reqs: seq<Request>, published: seq<bool>, occs: map<nat, Occ>, t: Tick)
    requires |published| == |reqs|
    ensures AllFewer(occs, PollList(reqs, published, occs, t).1)
  {
    hide PollOne, Fewer;
    if reqs == [] {
      forall e | e in occs ensures Fewer(occs[e], occs[e]) { NothingFewer(occs[e]); }
    } else {
      var n := |reqs| - 1;
      PollListFewer(reqs[..n], published[..n], occs, t);
      var (kept, occs1) := PollList(reqs[..n], published[..n], occs, t);
      if reqs[n].engine in occs1 {
        var e := reqs[n].engine;
        PollFateStands(reqs[n], occs1[e], t, published[n]);
        FewerTwice(occs[e], occs1[e], PollFate(reqs[n], occs1[e], t, published[n]).1);
      }
    }
  }

  lemma FewerLock(o: Occ, o': Occ, x: Target)
    requires Fewer(o, o') && LockOf(o', x).Some?
    ensures LockOf(o, x).Some? && Same(LockOf(o, x).value, LockOf(o', x).value)
  {}

  /** Request i, at its turn in the poll, shows all it must. */
  ghost predicate PassesAtTurn(reqs: seq<Request>, published: seq<bool>, occs: map<nat, Occ>, t: Tick, i: nat)
    requires |published| == |reqs| && i < |reqs|
  {
    var before := PollList(reqs[..i], published[..i], occs, t).1;
    reqs[i].engine in before
      && Passes(reqs[i], t.halted, Bound(reqs[i], t.hub), before[reqs[i].engine], LookAt(t, reqs[i].engine))
  }

  /** Over a whole poll: every lock that turned ready belongs to a request that showed all it must at its turn. */
  lemma {:induction false} PollTurnsReady(reqs: seq<Request>, published: seq<bool>, occs: map<nat, Occ>, t: Tick,
                                          e: nat, x: Target) returns (i: nat)
    requires |published| == |reqs| && e in occs
    requires e in PollList(reqs, published, occs, t).1
      && TurnedReady(occs[e], PollList(reqs, published, occs, t).1[e], x)
    ensures i < |reqs| && reqs[i].engine == e && PassesAtTurn(reqs, published, occs, t, i)
      && Own(reqs[i], LockOf(occs[e], x).value)
  {
    hide PollOne, Fewer, Passes, LockOf, Bound, LookAt;
    assert reqs != [];
    var n := |reqs| - 1;
    PollListFewer(reqs[..n], published[..n], occs, t);
    var occs1 := PollList(reqs[..n], published[..n], occs, t).1;
    var o1, o' := occs1[e], PollList(reqs, published, occs, t).1[e];
    if reqs[n].engine == e {
      PollFateStands(reqs[n], o1, t, published[n]);
      FewerLock(o1, o', x);
    }
    FewerLock(occs[e], o1, x);
    if LockOf(o1, x).value.ready {
      i := PollTurnsReady(reqs[..n], published[..n], occs, t, e, x);
      assert reqs[..n][..i] == reqs[..i] && published[..n][..i] == published[..i];
    } else {
      i := n;
      TurnsReady(reqs[n], t.halted, Bound(reqs[n], t.hub), o1, LookAt(t, e), published[n], x);
    }
  }

  lemma FewerNotCurrent(r: Request, o: Occ, o': Occ)
    requires Fewer(o, o') && !LeaseCurrent(r, o)
    ensures !LeaseCurrent(r, o')
  {}

  /** After a poll, a request whose lease is still current was kept or handed its lease over. */
  lemma {:induction false} PollAccounts(reqs: seq<Request>, published: seq<bool>, occs: map<nat, Occ>, t: Tick, i: nat)
    requires |published| == |reqs| && i < |reqs| && reqs[i].engine in occs
    ensures var (kept, occs') := PollList(reqs, published, occs, t);
            var before := PollList(reqs[..i], published[..i], occs, t).1;
            && reqs[i].engine in occs' && reqs[i].engine in before
            && (LeaseCurrent(reqs[i], occs'[reqs[i].engine]) ==>
                  var fate := PollFate(reqs[i], before[reqs[i].engine], t, published[i]).0;
                  fate == Drop(HandedOver) || (fate.Keep? && fate.request in kept))
  {
    hide PollOne, LeaseCurrent, Fewer;
    var n, e := |reqs| - 1, reqs[i].engine;
    PollListFewer(reqs, published, occs, t);
    PollListFewer(reqs[..n], published[..n], occs, t);
    PollListFewer(reqs[..i], published[..i], occs, t);
    var (kept, occs1) := PollList(reqs[..n], published[..n], occs, t);
    var (kept', occs') := PollList(reqs, published, occs, t);
    if i == n {
      PollFateStands(reqs[n], occs1[e], t, published[n]);
    } else {
      PollAccounts(reqs[..n], published[..n], occs, t, i);
      assert reqs[..n][..i] == reqs[..i] && published[..n][..i] == published[..i];
      if reqs[n].engine in occs1 {
        PollFateStands(reqs[n], occs1[reqs[n].engine], t, published[n]);
        if reqs[n].engine == e && !LeaseCurrent(reqs[i], occs1[e]) { FewerNotCurrent(reqs[i], occs1[e], occs'[e]); }
      }
      assert forall q :: q in kept ==> q in kept';
    }
  }

  /** Requests of other clients stay as they are, and those of this client on other engines are cancelled. */
  ghost predicate DrainKeeps(r: Request, kept: seq<Request>, id: nat, client: nat) {
    && (r.client != client ==> r in kept)
    && (r.client == client && r.engine != id ==> r.(cancelled := true) in kept)
  }

  lemma KeptMore(r: Request, kept: seq<Request>, kept': seq<Request>, id: nat, client: nat)
    requires DrainKeeps(r, kept, id, client) && kept <= kept'
    ensures DrainKeeps(r, kept', id, client)
  {
    assert forall q :: q in kept ==> q in kept';
  }

  lemma LastKept(r: Request, kept: seq<Request>, kept': seq<Request>, id: nat, client: nat, o: Occ)
    requires kept' == DrainStep(kept, o, r, id, client).0
    ensures DrainKeeps(r, kept', id, client)
  {}

  lemma {:induction false} DrainOk(pending: seq<Request>, o: Occ, id: nat, client: nat)
    requires Single(pending)
    ensures var (kept, o') := Drain(pending, o, id, client);
            && Single(kept) && Descends(kept, pending) && Fewer(o, o')
            && (forall k :: 0 <= k < |kept| && kept[k].client == client ==> kept[k].cancelled && kept[k].engine != id)
            && (forall i :: 0 <= i < |pending| && pending[i].client == client && pending[i].engine == id ==>
              !LeaseCurrent(pending[i], o'))
            && (forall i :: 0 <= i < |pending| ==> DrainKeeps(pending[i], kept, id, client))
  {
    hide Single, Descends, Fewer, LeaseCurrent, Free, DrainKeeps;
    if pending == [] {
      EmptyList(pending);
      NothingFewer(o);
    } else {
      var n := |pending| - 1;
      var r := pending[n];
      SinglePrefix(pending, n);
      DrainOk(pending[..n], o, id, client);
      assert pending[..n] + [r] == pending;
      var (kept, o1) := Drain(pending[..n], o, id, client);
      var (kept', o') := Drain(pending, o, id, client);
      forall i | 0 <= i < |pending| ensures DrainKeeps(pending[i], kept', id, client) {
        if i < n {
          assert pending[..n][i] == pending[i];
          KeptMore(pending[i], kept, kept', id, client);
        } else {
          LastKept(r, kept, kept', id, client, o1);
        }
      }
      DescendsMore(kept, pending[..n], r);
      FreeIsExact(r, o1);
      FewerTwice(o, o1, Free(r, o1));
      if r.client != client { KeepOne(kept, pending[..n], r, r); }
      else if r.engine != id { KeepOne(kept, pending[..n], r, r.(cancelled := true)); }
      forall i | 0 <= i < |pending| && pending[i].client == client && pending[i].engine == id
        ensures !LeaseCurrent(pending[i], o') {
        if i < n {
          assert pending[..n][i] == pending[i];
          if o' != o1 { FewerNotCurrent(pending[i], o1, o'); }
        }
      }
    }
  }

  lemma {:induction false} CancelEngineOk(pending: seq<Request>, o: Occ, id: nat)
    requires Single(pending)
    ensures var (kept, o') := CancelEngine(pending, o, id);
            && Single(kept) && Descends(kept, pending) && Fewer(o, o')
            && (forall k :: 0 <= k < |kept| ==> kept[k].engine != id)
            && (forall i :: 0 <= i < |pending| && pending[i].engine == id ==> !LeaseCurrent(pending[i], o'))
            && (forall i :: 0 <= i < |pending| && pending[i].engine != id ==> pending[i] in kept)
  {
    hide Single, Descends, Fewer, LeaseCurrent, Free;
    if pending == [] {
      EmptyList(pending);
      NothingFewer(o);
    } else {
      var n := |pending| - 1;
      var r := pending[n];
      SinglePrefix(pending, n);
      CancelEngineOk(pending[..n], o, id);
      assert pending[..n] + [r] == pending;
      var (kept, o1) := CancelEngine(pending[..n], o, id);
      var (kept', o') := CancelEngine(pending, o, id);
      DescendsMore(kept, pending[..n], r);
      FreeIsExact(r, o1);
      FewerTwice(o, o1, Free(r, o1));
      if r.engine != id { KeepOne(kept, pending[..n], r, r); }
      forall i | 0 <= i < |pending|
        ensures (pending[i].engine == id ==> !LeaseCurrent(pending[i], o'))
          && (pending[i].engine != id ==> pending[i] in kept') {
        if i < n {
          assert pending[..n][i] == pending[i];
          if o' != o1 && pending[i].engine == id { FewerNotCurrent(pending[i], o1, o'); }
        }
      }
    }
  }

  lemma DescendsSmall(kept: seq<Request>, reqs: seq<Request>)
    requires Descends(kept, reqs)
    ensures |kept| <= |reqs|
  {}

  /** A new request is the only uncancelled one of its client, and the list never passes its limit. */
  lemma BeginOk(pending: seq<Request>, o: Occ, id: nat, target: Target, client: nat, hub: map<nat, nat>, f: Facts)
    requires ListOk(pending)
    ensures ListOk(Begin(pending, o, id, target, client, hub, f).0)
  {
    hide Single, Descends, Fewer, LeaseCurrent, SetReady, AcquireTarget, Duplicate, Acquire;
    if client in hub && !Duplicate(pending, client, hub[client], target) {
      DrainOk(pending, o, id, client);
      var (kept, o1) := Drain(pending, o, id, client);
      DescendsSmall(kept, pending);
      var after := Begin(pending, o, id, target, client, hub, f).0;
      if |after| == |kept| + 1 { AddFresh(kept, after[|kept|], id, client); }
    }
  }

  lemma AddFresh(kept: seq<Request>, q: Request, id: nat, client: nat)
    requires Single(kept) && q.client == client && q.engine == id
    requires forall k :: 0 <= k < |kept| && kept[k].client == client ==> kept[k].cancelled && kept[k].engine != id
    ensures Single(kept + [q])
  {
    forall i, j | 0 <= i < j < |kept + [q]| ensures Apart((kept + [q])[i], (kept + [q])[j]) {
      if j < |kept| { assert Apart(kept[i], kept[j]); }
    }
  }

  lemma WorkspaceLockIsNew(o: Occ, w: nat, terminals: seq<nat>, members: seq<nat>, client: nat)
    ensures var answer := AcquireWorkspace(o, w, terminals, members, client).0;
            answer.Granted? ==>
              answer.lock.grant > o.nextSeq
                || (w in o.workspaces && o.workspaces[w] == answer.lock && answer.lock.holder == client)
  {
    hide ClearTerminals;
    var o1 := if w in o.workspaces then ReleaseAll(o, o.workspaces[w].holder) else o;
    ClearTerminalsFewer(o1, terminals, client);
  }

  lemma SurfaceLockIsNew(o: Occ, s: nat, client: nat)
    ensures var answer := Acquire(o, s, client).0;
            answer.Granted? ==>
              answer.lock.grant > o.nextSeq
                || (s in o.surfaces && o.surfaces[s] == answer.lock && answer.lock.holder == client)
  {}

  lemma AcquireTargetGrants(o: Occ, target: Target, terminals: seq<nat>, members: seq<nat>, r: Request)
    requires GrantsOk(o) && r.target == target
    ensures var (answer, o') := AcquireTarget(o, target, terminals, members, r.client);
            GrantStep(o, o') && (answer.Granted? && r.grant == answer.lock.grant ==>
              LeaseCurrent(r, o') && r.grant <= o'.nextSeq && (r.grant > o.nextSeq || LeaseCurrent(r, o)))
  {
    hide GrantsOk, GrantStep, ReleaseAll, ClearTerminals;
    match target {
      case Surface(s) =>
        SurfaceLockIsNew(o, s, r.client);
        AcquireStep(o, s, r.client);
        GrantBelow(AcquireTarget(o, target, terminals, members, r.client).1, r);
      case Workspace(w) =>
        WorkspaceLockIsNew(o, w, terminals, members, r.client);
        AcquireWorkspaceStep(o, w, terminals, members, r.client);
        GrantBelow(AcquireTarget(o, target, terminals, members, r.client).1, r);
    }
  }

  lemma GrantBelow(o: Occ, r: Request)
    ensures GrantsOk(o) && LeaseCurrent(r, o) ==> r.grant <= o.nextSeq
    ensures forall o0: Occ :: GrantStep(o0, o) ==> GrantsOk(o)
  {}

  ghost predicate NotReady(r: Request, o: Occ) {
    && (forall s :: s in o.surfaces && Own(r, o.surfaces[s]) ==> !o.surfaces[s].ready)
    && (forall w :: w in o.workspaces && Own(r, o.workspaces[w]) ==> !o.workspaces[w].ready)
  }

  lemma SetUnready(r: Request, o: Occ)
    ensures var o1 := SetReady(o, r.client, r.grant, false);
            && Fewer(o, o1) && (LeaseCurrent(r, o1) <==> LeaseCurrent(r, o)) && NotReady(r, o1)
            && o1.nextSeq == o.nextSeq
  {}

  /** A request that begins to wait holds a current lease that is not ready yet: a fresh one, or the one its
      client held on the target before. */
  lemma BeginHoldsLease(pending: seq<Request>, o: Occ, id: nat, target: Target, client: nat, hub: map<nat, nat>,
                        f: Facts)
    requires GrantsOk(o) && ListOk(pending)
    ensures var (after, o') := Begin(pending, o, id, target, client, hub, f);
            && GrantStep(o, o')
            && (|after| > |Drain(pending, o, id, client).0| && after != pending ==>
                  var r := after[|after| - 1];
                  && LeaseCurrent(r, o') && NotReady(r, o') && r.grant <= o'.nextSeq && r.client == client
                  && r.engine == id && r.target == target && !r.cancelled
                  && (r.grant > o.nextSeq || LeaseCurrent(r, o)))
  {
    hide Single, Descends, Fewer, LeaseCurrent, SetReady, AcquireTarget, Duplicate, Acquire, GrantsOk, GrantStep,
      NotReady, Drain;
    NothingFewer(o);
    FewerStep(o, o);
    if client in hub && !Duplicate(pending, client, hub[client], target) {
      DrainOk(pending, o, id, client);
      var (kept, o1) := Drain(pending, o, id, client);
      FewerStep(o, o1);
      FewerOk(o, o1);
      if target.Surface? { AcquireStep(o1, target.id, client); StepAfter(o, o1, Acquire(o1, target.id, client).1); }
      var members := if target.Surface? then [target.id] else f.surfaces.GetOr([]);
      var terminals := if target.Surface? then [target.id] else f.terminals;
      var (answer, o2) := AcquireTarget(o1, target, terminals, members, client);
      var r := Request(false, id, target, client, hub[client], if answer.Granted? then answer.lock.grant else 0,
        NewLeaves(terminals, f.look), members);
      AcquireTargetGrants(o1, target, terminals, members, r);
      if !LeaseCurrent(r, o) { FewerNotCurrent(r, o, o1); }
      FewerSeq(o, o1);
      StepAfter(o, o1, o2);
      GrantBelow2(o1, o2);
      SetUnready(r, o2);
      var o3 := SetReady(o2, r.client, r.grant, false);
      FewerStep(o2, o3);
      StepAfter(o, o2, o3);
    }
  }

  lemma GrantBelow2(o: Occ, o': Occ)
    requires GrantStep(o, o')
    ensures GrantsOk(o')
  {}

  // ---------------------------------------------------------------- whole runs

  datatype Sys = Sys(pending: seq<Request>, occs: map<nat, Occ>, hub: map<nat, nat>)

  datatype Event =
    | DoBegin(id: nat, target: Target, client: nat, facts: Facts)
    | DoPoll(published: seq<bool>, tick: Tick)
    | DoCancelClient(client: nat)
    | DoOpenEngine(id: nat)
    | DoCloseEngine(id: nat)
    | DoChange(id: nat, change: Change)
    | DoHub(hub: map<nat, nat>)

  function CancelClient(pending: seq<Request>, client: nat): (r: seq<Request>)
    ensures |r| == |pending|
  {
    seq(|pending|,
      i requires 0 <= i < |pending| => if pending[i].client == client then pending[i].(cancelled := true)
        else pending[i])
  }

  function Step(s: Sys, e: Event): Sys {
    match e
    case DoBegin(id, target, client, facts) =>
      if id !in s.occs then s
      else
        var (pending, o) := Begin(s.pending, s.occs[id], id, target, client, s.hub, facts);
        s.(pending := pending, occs := s.occs[id := o])
    case DoPoll(published, tick) =>
      if |published| != |s.pending| then s
      else
        var (pending, occs) := PollList(s.pending, published, s.occs, tick.(hub := s.hub));
        s.(pending := pending, occs := occs)
    case DoCancelClient(client) => s.(pending := CancelClient(s.pending, client))
    case DoOpenEngine(id) => if id in s.occs then s else s.(occs := s.occs[id := EMPTY])
    case DoCloseEngine(id) =>
      if id !in s.occs then s
      else s.(pending := CancelEngine(s.pending, s.occs[id], id).0, occs := s.occs - {id})
    case DoChange(id, change) => if id !in s.occs then s else s.(occs := s.occs[id := Apply(s.occs[id], change)])
    case DoHub(hub) => s.(hub := hub)
  }

  function Run(s: Sys, es: seq<Event>): Sys {
    if es == [] then s else Step(Run(s, es[..|es| - 1]), es[|es| - 1])
  }

  const START := Sys([], map[], map[])

  /** Every request belongs to an open engine, and its grant was given there. */
  ghost predicate Homed(reqs: seq<Request>, occs: map<nat, Occ>) {
    forall i :: 0 <= i < |reqs| ==> HomedIn(reqs[i], occs)
  }

  ghost predicate HomedIn(r: Request, occs: map<nat, Occ>) { r.engine in occs && r.grant <= occs[r.engine].nextSeq }

  ghost predicate SysOk(s: Sys) {
    && ListOk(s.pending) && Homed(s.pending, s.occs)
    && (forall e :: e in s.occs ==> GrantsOk(s.occs[e]))
  }

  lemma CancelClientOk(pending: seq<Request>, client: nat)
    requires ListOk(pending)
    ensures ListOk(CancelClient(pending, client))
  {
    var r := CancelClient(pending, client);
    forall i, j | 0 <= i < j < |r| ensures Apart(r[i], r[j]) { assert Apart(pending[i], pending[j]); }
  }

  ghost predicate Grown(occs: map<nat, Occ>, occs': map<nat, Occ>) {
    forall e :: e in occs ==> e in occs' && occs[e].nextSeq <= occs'[e].nextSeq
  }

  lemma StaysHomed(kept: seq<Request>, reqs: seq<Request>, occs: map<nat, Occ>, occs': map<nat, Occ>)
    requires Descends(kept, reqs) && Homed(reqs, occs) && Grown(occs, occs')
    ensures Homed(kept, occs')
  {
    forall k | 0 <= k < |kept| ensures HomedIn(kept[k], occs') {
      assert HasSource(kept[k], reqs);
      var i :| 0 <= i < |reqs| && Stands(kept[k], reqs[i]);
      assert HomedIn(reqs[i], occs);
    }
  }

  lemma DescendsItself(reqs: seq<Request>)
    ensures Descends(reqs, reqs)
  {
    forall k | 0 <= k < |reqs| ensures HasSource(reqs[k], reqs) { assert Stands(reqs[k], reqs[k]); }
  }

  /** Begin leaves the list alone, drains it, or drains it and adds one request. */
  ghost predicate BeginShape(pending: seq<Request>, kept: seq<Request>, after: seq<Request>) {
    after == pending || after == kept || (|after| == |kept| + 1 && after[..|kept|] == kept)
  }

  lemma BeginHasShape(pending: seq<Request>, o: Occ, id: nat, target: Target, client: nat, hub: map<nat, nat>, f: Facts)
    ensures BeginShape(pending, Drain(pending, o, id, client).0, Begin(pending, o, id, target, client, hub, f).0)
  {
    hide Drain, Duplicate, AcquireTarget, Acquire, SetReady;
  }

  lemma BeginHomed(s: Sys, id: nat, target: Target, client: nat, facts: Facts)
    requires SysOk(s) && id in s.occs
    ensures var (pending, o) := Begin(s.pending, s.occs[id], id, target, client, s.hub, facts);
      Homed(pending, s.occs[id := o])
  {
    hide Begin, Single, Fewer, LeaseCurrent, GrantsOk, NotReady, Drain, DrainKeeps, Descends, Homed, HomedIn;
    var (pending, o) := Begin(s.pending, s.occs[id], id, target, client, s.hub, facts);
    BeginHoldsLease(s.pending, s.occs[id], id, target, client, s.hub, facts);
    BeginHasShape(s.pending, s.occs[id], id, target, client, s.hub, facts);
    DrainOk(s.pending, s.occs[id], id, client);
    var kept := Drain(s.pending, s.occs[id], id, client).0;
    assert s.occs[id].nextSeq <= o.nextSeq by { StepSeq(s.occs[id], o); }
    hide GrantStep;
    assert Grown(s.occs, s.occs[id := o]);
    DescendsItself(s.pending);
    StaysHomed(s.pending, s.pending, s.occs, s.occs[id := o]);
    StaysHomed(kept, s.pending, s.occs, s.occs[id := o]);
    if pending != s.pending && pending != kept {
      assert pending == kept + [pending[|kept|]];
      OneMoreHomed(kept, pending[|kept|], s.occs[id := o]);
    }
  }

  lemma OneMoreHomed(kept: seq<Request>, r: Request, occs: map<nat, Occ>)
    requires Homed(kept, occs) && r.engine in occs && r.grant <= occs[r.engine].nextSeq
    ensures Homed(kept + [r], occs)
  {}

  lemma PollHomed(s: Sys, published: seq<bool>, t: Tick)
    requires SysOk(s) && |published| == |s.pending|
    ensures var (pending, occs) := PollList(s.pending, published, s.occs, t); Homed(pending, occs)
  {
    hide Single, Descends, Homed, PollList, Fewer;
    PollListOk(s.pending, published, s.occs, t);
    PollListFewer(s.pending, published, s.occs, t);
    var (pending, occs) := PollList(s.pending, published, s.occs, t);
    forall e | e in s.occs ensures s.occs[e].nextSeq <= occs[e].nextSeq { FewerSeq(s.occs[e], occs[e]); }
    StaysHomed(pending, s.pending, s.occs, occs);
  }

  lemma CancelHomed(s: Sys, client: nat)
    requires Homed(s.pending, s.occs)
    ensures Homed(CancelClient(s.pending, client), s.occs)
  {
    forall i | 0 <= i < |s.pending| ensures HomedIn(CancelClient(s.pending, client)[i], s.occs) {
      assert HomedIn(s.pending[i], s.occs);
    }
  }

  lemma CloseHomed(s: Sys, id: nat)
    requires SysOk(s) && id in s.occs
    ensures Homed(CancelEngine(s.pending, s.occs[id], id).0, s.occs - {id})
  {
    hide Single, Descends, CancelEngine, GrantsOk;
    CancelEngineOk(s.pending, s.occs[id], id);
    var kept := CancelEngine(s.pending, s.occs[id], id).0;
    assert Grown(s.occs, s.occs);
    StaysHomed(kept, s.pending, s.occs, s.occs);
    forall k | 0 <= k < |kept| ensures HomedIn(kept[k], s.occs - {id}) {
      assert HomedIn(kept[k], s.occs) && kept[k].engine != id;
    }
  }

  lemma GrownHomed(s: Sys, occs: map<nat, Occ>)
    requires Homed(s.pending, s.occs) && Grown(s.occs, occs)
    ensures Homed(s.pending, occs)
  {
    forall i | 0 <= i < |s.pending| ensures HomedIn(s.pending[i], occs) { assert HomedIn(s.pending[i], s.occs); }
  }

  lemma StepSeq(o: Occ, o': Occ)
    requires GrantStep(o, o')
    ensures o.nextSeq <= o'.nextSeq
  {}

  lemma StepOk(s: Sys, e: Event)
    requires SysOk(s)
    ensures SysOk(Step(s, e))
  {
    hide Homed, HomedIn, Single, GrantsOk, GrantStep, Begin, PollList, CancelClient, CancelEngine, Apply, Fewer,
      Descends, LeaseCurrent;
    match e
    case DoBegin(id, target, client, facts) =>
      if id in s.occs {
        BeginHomed(s, id, target, client, facts);
        BeginOk(s.pending, s.occs[id], id, target, client, s.hub, facts);
        BeginHoldsLease(s.pending, s.occs[id], id, target, client, s.hub, facts);
        GrantBelow2(s.occs[id], Begin(s.pending, s.occs[id], id, target, client, s.hub, facts).1);
      }
    case DoPoll(published, tick) =>
      if |published| == |s.pending| {
        var t := tick.(hub := s.hub);
        PollHomed(s, published, t);
        PollListOk(s.pending, published, s.occs, t);
        PollListFewer(s.pending, published, s.occs, t);
        var (pending, occs) := PollList(s.pending, published, s.occs, t);
        DescendsSmall(pending, s.pending);
        forall k | k in occs ensures GrantsOk(occs[k]) { FewerOk(s.occs[k], occs[k]); }
      }
    case DoCancelClient(client) =>
      CancelClientOk(s.pending, client);
      CancelHomed(s, client);
    case DoOpenEngine(id) =>
      assert GrantsOk(EMPTY) by { EmptyGrants(); }
      GrownHomed(s, Step(s, e).occs);
    case DoCloseEngine(id) =>
      if id in s.occs {
        CloseHomed(s, id);
        CancelEngineOk(s.pending, s.occs[id], id);
        DescendsSmall(CancelEngine(s.pending, s.occs[id], id).0, s.pending);
      }
    case DoChange(id, change) =>
      if id in s.occs {
        ApplyStep(s.occs[id], change);
        GrantBelow2(s.occs[id], Apply(s.occs[id], change));
        StepSeq(s.occs[id], Apply(s.occs[id], change));
        GrownHomed(s, Step(s, e).occs);
      }
    case DoHub(hub) =>
  }

  lemma EmptyGrants()
    ensures GrantsOk(EMPTY)
  {}

  /** In every reachable state at most 64 requests wait, at most one uncancelled per client and at most one
      per client and engine; each belongs to an open engine, and every engine's grants are numbered soundly. */
  lemma {:induction false} EveryRunIsOk(es: seq<Event>)
    ensures SysOk(Run(START, es))
  {
    hide ListOk, GrantsOk, Step, HomedIn;
    if es == [] {
      assert ListOk([]) by { EmptyOk(); }
    } else {
      EveryRunIsOk(es[..|es| - 1]);
      StepOk(Run(START, es[..|es| - 1]), es[|es| - 1]);
    }
  }

  lemma EmptyOk()
    ensures ListOk([])
  {}

  // ---------------------------------------------------------------- every lease in every run

  /** Every lock of o' is one of o, or fresh. */
  ghost predicate Renews(o: Occ, o': Occ) { o.nextSeq <= o'.nextSeq && forall x: Target :: RenewsAt(o, o', x) }

  ghost predicate RenewsAt(o: Occ, o': Occ, x: Target) {
    LockOf(o', x).Some? ==>
      LockOf(o', x).value.grant > o.nextSeq || (LockOf(o, x).Some? && Same(LockOf(o, x).value, LockOf(o', x).value))
  }

  lemma NotRegained(r: Request, o: Occ, o': Occ)
    requires Renews(o, o') && !LeaseCurrent(r, o) && r.grant <= o.nextSeq
    ensures !LeaseCurrent(r, o')
  {
    assert RenewsAt(o, o', r.target);
  }

  lemma FewerRenews(o: Occ, o': Occ)
    requires Fewer(o, o')
    ensures Renews(o, o')
  {}

  lemma RenewsTwice(a: Occ, b: Occ, c: Occ)
    requires Renews(a, b) && Renews(b, c)
    ensures Renews(a, c)
  {
    forall x: Target ensures RenewsAt(a, c, x) { assert RenewsAt(a, b, x) && RenewsAt(b, c, x); }
  }

  lemma AcquireRenews(o: Occ, s: nat, client: nat)
    ensures Renews(o, Acquire(o, s, client).1)
  {}

  lemma GrantRenews(o: Occ, w: nat, terminals: seq<nat>, members: seq<nat>, client: nat)
    ensures Renews(o, GrantWorkspace(o, w, terminals, members, client))
  {}

  lemma AcquireTargetRenews(o: Occ, target: Target, terminals: seq<nat>, members: seq<nat>, client: nat)
    ensures Renews(o, AcquireTarget(o, target, terminals, members, client).1)
  {
    hide Renews, ClearTerminals, GrantWorkspace, Acquire, ReleaseAll, Fewer;
    NothingFewer(o);
    FewerRenews(o, o);
    if target.Surface? {
      AcquireRenews(o, target.id, client);
    } else {
      var w := target.id;
      var o1 := if w in o.workspaces then ReleaseAll(o, o.workspaces[w].holder) else o;
      if w in o.workspaces { ReleaseAllFewer(o, o.workspaces[w].holder); }
      FewerRenews(o, o1);
      ClearTerminalsFewer(o1, terminals, client);
      var o2 := ClearTerminals(o1, terminals, client).1;
      FewerRenews(o1, o2);
      RenewsTwice(o, o1, o2);
      GrantRenews(o2, w, terminals, members, client);
      RenewsTwice(o, o2, GrantWorkspace(o2, w, terminals, members, client));
    }
  }

  /** What a new attach ends is not brought back by the lease it then takes. */
  lemma BeginRenewsDrained(pending: seq<Request>, o: Occ, id: nat, target: Target, client: nat, hub: map<nat, nat>,
                           f: Facts)
    ensures var (after, o') := Begin(pending, o, id, target, client, hub, f);
            (after == pending && o' == o) || Renews(Drain(pending, o, id, client).1, o')
  {
    hide Renews, Drain, Duplicate, AcquireTarget, Acquire, SetReady, Fewer;
    var o1 := Drain(pending, o, id, client).1;
    NothingFewer(o1);
    FewerRenews(o1, o1);
    if target.Surface? { AcquireRenews(o1, target.id, client); }
    var members := if target.Surface? then [target.id] else f.surfaces.GetOr([]);
    var terminals := if target.Surface? then [target.id] else f.terminals;
    AcquireTargetRenews(o1, target, terminals, members, client);
    var (answer, o2) := AcquireTarget(o1, target, terminals, members, client);
    if answer.Granted? {
      var r := Request(false, id, target, client, 0, answer.lock.grant, [], members);
      SetUnready(r, o2);
      var o3 := SetReady(o2, client, answer.lock.grant, false);
      FewerRenews(o2, o3);
      RenewsTwice(o1, o2, o3);
    }
  }

  /** The request is still in the list, perhaps cancelled by now. */
  ghost predicate Remains(r: Request, reqs: seq<Request>) { exists k :: 0 <= k < |reqs| && Stands(reqs[k], r) }

  /** The request waits, or its engine is closed, or its lease is not current any more. */
  ghost predicate Accounted(r: Request, s: Sys) {
    Remains(r, s.pending) || r.engine !in s.occs || !LeaseCurrent(r, s.occs[r.engine])
  }

  /** This step is a poll in which request i hands its lease over, ready. */
  ghost predicate HandsOver(s: Sys, e: Event, i: nat)
    requires i < |s.pending|
  {
    e.DoPoll? && |e.published| == |s.pending| &&
    var t := e.tick.(hub := s.hub);
    var before := PollList(s.pending[..i], e.published[..i], s.occs, t).1;
    s.pending[i].engine in before
      && PollFate(s.pending[i], before[s.pending[i].engine], t, e.published[i]).0 == Drop(HandedOver)
  }

  lemma RemainsIn(q: Request, r: Request, reqs: seq<Request>)
    requires q in reqs && Stands(q, r)
    ensures Remains(r, reqs)
  {}

  lemma BeginAccounts(s: Sys, id: nat, target: Target, client: nat, facts: Facts, i: nat)
    requires SysOk(s) && id in s.occs && i < |s.pending|
    ensures Accounted(s.pending[i], Step(s, DoBegin(id, target, client, facts)))
  {
    hide Begin, Single, Fewer, LeaseCurrent, GrantsOk, Drain, Descends, Renews, Remains;
    var r, o := s.pending[i], s.occs[id];
    BeginHasShape(s.pending, o, id, target, client, s.hub, facts);
    BeginRenewsDrained(s.pending, o, id, target, client, s.hub, facts);
    DrainOk(s.pending, o, id, client);
    var (after, o') := Begin(s.pending, o, id, target, client, s.hub, facts);
    var (kept, o1) := Drain(s.pending, o, id, client);
    assert DrainKeeps(r, kept, id, client);
    if after == s.pending {
      RemainsIn(r, r, after);
    } else {
      assert forall q :: q in kept ==> q in after by { assert forall q :: q in after[..|kept|] ==> q in after; }
      if r.client != client { RemainsIn(r, r, after); }
      else if r.engine != id { RemainsIn(r.(cancelled := true), r, after); }
      else {
        assert HomedIn(r, s.occs);
        assert o.nextSeq <= o1.nextSeq by { FewerSeq(o, o1); }
        NotRegained(r, o1, o');
      }
    }
  }

  lemma PollAccountsInStep(s: Sys, e: Event, i: nat)
    requires SysOk(s) && e.DoPoll? && i < |s.pending|
    ensures Accounted(s.pending[i], Step(s, e)) || HandsOver(s, e, i)
  {
    hide PollList, PollFate, LeaseCurrent, Remains, Single, GrantsOk;
    var r := s.pending[i];
    assert HomedIn(r, s.occs);
    if |e.published| == |s.pending| {
      var t := e.tick.(hub := s.hub);
      PollAccounts(s.pending, e.published, s.occs, t, i);
      var before := PollList(s.pending[..i], e.published[..i], s.occs, t).1;
      PollFateStands(r, before[r.engine], t, e.published[i]);
      var fate := PollFate(r, before[r.engine], t, e.published[i]).0;
      var (kept, occs) := PollList(s.pending, e.published, s.occs, t);
      if fate.Keep? && fate.request in kept { RemainsIn(fate.request, r, kept); }
    } else {
      RemainsIn(r, r, s.pending);
    }
  }

  /** Whatever happens, a request that was waiting waits on, or hands its lease over ready in a poll, or has
      no current lease any more, or its engine is closed. */
  lemma StepAccounts(s: Sys, e: Event, i: nat)
    requires SysOk(s) && i < |s.pending|
    ensures Accounted(s.pending[i], Step(s, e)) || HandsOver(s, e, i)
  {
    hide Begin, PollList, CancelEngine, Single, GrantsOk, LeaseCurrent, Apply, Remains, Fewer;
    var r := s.pending[i];
    match e
    case DoBegin(id, target, client, facts) =>
      if id in s.occs {
        BeginAccounts(s, id, target, client, facts, i);
      } else {
        RemainsIn(r, r, s.pending);
      }
    case DoPoll(published, tick) => PollAccountsInStep(s, e, i);
    case DoCancelClient(client) => RemainsIn(CancelClient(s.pending, client)[i], r, CancelClient(s.pending, client));
    case DoCloseEngine(id) =>
      if id in s.occs {
        CancelEngineOk(s.pending, s.occs[id], id);
        if r.engine != id { RemainsIn(r, r, CancelEngine(s.pending, s.occs[id], id).0); }
      } else { RemainsIn(r, r, s.pending); }
    case _ => RemainsIn(r, r, s.pending);
  }

  /** Lease conservation over every interleaving: at every step of every run, each request that waits stays,
      hands its lease over, has it no longer, or loses its engine. */
  lemma EveryLeaseIsAccountedFor(es: seq<Event>, n: nat, i: nat)
    requires n < |es| && i < |Run(START, es[..n]).pending|
    ensures var s := Run(START, es[..n]);
            Accounted(s.pending[i], Run(START, es[..n + 1])) || HandsOver(s, es[n], i)
  {
    hide Step, SysOk, Accounted, HandsOver;
    EveryRunIsOk(es[..n]);
    assert es[..n + 1][..n] == es[..n];
    StepAccounts(Run(START, es[..n]), es[n], i);
  }

  // ---------------------------------------------------------------- two runs in which a release goes wrong

  lemma {:induction false} DrainNone(pending: seq<Request>, o: Occ, id: nat, client: nat)
    requires forall i :: 0 <= i < |pending| ==> pending[i].client != client
    ensures Drain(pending, o, id, client) == (pending, o)
  {
    if pending != [] {
      DrainNone(pending[..|pending| - 1], o, id, client);
      assert pending == pending[..|pending| - 1] + [pending[|pending| - 1]];
    }
  }

  lemma {:induction false} NothingToClear(o: Occ, terminals: seq<nat>, client: nat)
    requires forall i :: 0 <= i < |terminals| ==> terminals[i] !in o.surfaces
    ensures ClearTerminals(o, terminals, client) == (None, o)
    decreases |terminals|
  {
    if terminals != [] { NothingToClear(o, terminals[1..], client); }
  }

  /** A fresh grant of a workspace with one surface, a terminal, before it is ready. */
  function WithOne(o: Occ, w: nat, x: nat, client: nat): Occ {
    var lock := Lock(false, client, o.nextSeq + 1);
    o.(nextSeq := o.nextSeq + 1, workspaces := o.workspaces[w := lock], surfaces := o.surfaces[x := lock],
      memberOf := o.memberOf[x := w])
  }

  lemma GrantsOne(o: Occ, w: nat, x: nat, client: nat)
    requires x !in o.surfaces
    ensures var lock := FreshLock(o, client);
            GrantWorkspace(o, w, [x], [x], client) ==
            o.(nextSeq := o.nextSeq + 1, workspaces := o.workspaces[w := lock], surfaces := o.surfaces[x := lock],
              memberOf := o.memberOf[x := w])
  {}

  lemma OneNotReady(o: Occ, w: nat, x: nat, client: nat)
    requires Numbered(o) && x !in o.surfaces && w !in o.workspaces
    ensures SetReady(GrantWorkspace(o, w, [x], [x], client), client, o.nextSeq + 1, false) == WithOne(o, w, x, client)
  {
    hide GrantWorkspace;
    GrantsOne(o, w, x, client);
  }

  /** A new client takes a free workspace with one terminal. */
  lemma BeginsWorkspace(o: Occ, w: nat, x: nat, client: nat, hub: map<nat, nat>, f: Facts)
    requires client in hub && Numbered(o) && w !in o.workspaces && x !in o.surfaces
    requires f.surfaces == Some([x]) && f.terminals == [x] && f.fits
    ensures Begin([], o, 0, Workspace(w), client, hub, f) ==
      ([Request(false, 0, Workspace(w), client, hub[client], o.nextSeq + 1, NewLeaves([x], f.look), [x])],
        WithOne(o, w, x, client))
  {
    hide GrantWorkspace, SetReady, Drain, ClearTerminals, NewLeaves, WithOne, Numbered;
    DrainNone([], o, 0, client);
    NothingToClear(o, [x], client);
    OneNotReady(o, w, x, client);
    var r := Request(false, 0, Workspace(w), client, hub[client], o.nextSeq + 1, NewLeaves([x], f.look), [x]);
    assert [] + [r] == [r];
  }

  lemma OneLeaf(x: nat, look: Look)
    ensures NewLeaves([x], look) == [Leaf(x, Get(look.activation, x), None, Get(look.generation, x))]
  {}

  /** A new client takes a free terminal. */
  lemma BeginsSurface(pending: seq<Request>, o: Occ, x: nat, client: nat, hub: map<nat, nat>, f: Facts)
    requires client in hub && |pending| < MAX_PENDING && forall i :: 0 <= i < |pending| ==> pending[i].client != client
    requires f.terminal && f.fits && x !in o.surfaces
    ensures Begin(pending, o, 0, Surface(x), client, hub, f) ==
      (pending + [Request(false, 0, Surface(x), client, hub[client], o.nextSeq + 1, NewLeaves([x], f.look), [x])],
       SetReady(o.(nextSeq := o.nextSeq + 1, surfaces := o.surfaces[x := FreshLock(o, client)]), client, o.nextSeq + 1,
         false))
  {
    hide SetReady, Drain;
    DrainNone(pending, o, 0, client);
  }

  lemma OneMoreEvent(es: seq<Event>, e: Event)
    ensures Run(START, es + [e]) == Step(Run(START, es), e)
  {
    assert (es + [e])[..|es|] == es;
  }

  const CLIENTS: map<nat, nat> := map[1 := 1, 2 := 1]
  const OPENING: seq<Event> := [DoOpenEngine(0), DoHub(CLIENTS)]

  /** A workspace with these surfaces, of which these are terminals that have yet to be activated. */
  function Asleep(surfaces: seq<nat>, terminals: seq<nat>): Facts {
    Facts(true, false, Some(surfaces), terminals, true, BLANK)
  }

  /** All the poll sees is which surfaces workspace w has. */
  function Sees(w: nat, surfaces: seq<nat>): Tick {
    Tick(false, map[], map[0 := BLANK.(surfaces := map[w := surfaces])])
  }

  lemma Opened()
    ensures Run(START, OPENING) == Sys([], map[0 := EMPTY], CLIENTS)
  {
    assert OPENING == ([] + [DoOpenEngine(0)]) + [DoHub(CLIENTS)];
    OneMoreEvent([], DoOpenEngine(0));
    OneMoreEvent([] + [DoOpenEngine(0)], DoHub(CLIENTS));
  }

  const R1 := Request(false, 0, Workspace(5), 1, 1, 1, [Leaf(10, None, None, None)], [10])
  const R2 := Request(false, 0, Surface(11), 2, 1, 2, [Leaf(11, None, None, None)], [11])
  const OCC1 := Occ(map[10 := Lock(false, 1, 1)], map[5 := Lock(false, 1, 1)], map[10 := 5], 1, {})
  const OCC2 := OCC1.(surfaces := map[10 := Lock(false, 1, 1), 11 := Lock(false, 2, 2)], nextSeq := 2)
  const OCC3 := OCC2.(memberOf := map[10 := 5, 11 := 5])

  lemma FirstBegins()
    ensures Begin([], EMPTY, 0, Workspace(5), 1, CLIENTS, Asleep([10], [10])) == ([R1], OCC1)
  {
    hide Begin, NewLeaves;
    BeginsWorkspace(EMPTY, 5, 10, 1, CLIENTS, Asleep([10], [10]));
    OneLeaf(10, BLANK);
  }

  lemma SecondBegins()
    ensures Begin([R1], OCC1, 0, Surface(11), 2, CLIENTS, Asleep([], [])) == ([R1, R2], OCC2)
  {
    BeginsSurface([R1], OCC1, 11, 2, CLIENTS, Asleep([], []));
    assert NewLeaves([11], BLANK) == R2.leaves;
    assert SetReady(OCC1.(nextSeq := 2, surfaces := OCC1.surfaces[11 := Lock(true, 2, 2)]), 2, 2, false) == OCC2;
    hide Begin, NewLeaves, SetReady;
    assert [R1] + [R2] == [R1, R2];
  }

  lemma ChangedIsReleased(r: Request, o: Occ, look: Look, published: bool)
    requires !r.cancelled && LeaseCurrent(r, o) && MembersChanged(r, look)
    ensures PollOne(r, false, true, o, look, published) == (Drop(FailedWith(TargetChanged)), Free(r, o))
  {}

  lemma StaleIsDropped(r: Request, o: Occ, look: Look, published: bool)
    requires !r.cancelled && !LeaseCurrent(r, o)
    ensures PollOne(r, false, true, o, look, published) == (Drop(Stale), o)
  {}

  lemma PollsOne(r: Request, published: bool, occs: map<nat, Occ>, t: Tick, why: Why)
    requires r.engine in occs && PollFate(r, occs[r.engine], t, published).0 == Drop(why)
    ensures PollList([r], [published], occs, t) == ([], occs[r.engine := PollFate(r, occs[r.engine], t, published).1])
  {
    hide PollFate;
    assert [r][..0] == [] && [published][..0] == [];
    assert PollList([], [], occs, t) == ([], occs);
  }

  lemma PollsTwo(r: Request, q: Request, occs: map<nat, Occ>, t: Tick, why: Why, why': Why)
    requires r.engine in occs && PollFate(r, occs[r.engine], t, true).0 == Drop(why)
    requires q.engine == r.engine
      && PollFate(q, PollFate(r, occs[r.engine], t, true).1, t, true)
        == (Drop(why'), PollFate(r, occs[r.engine], t, true).1)
    ensures PollList([r, q], [true, true], occs, t) == ([], occs[r.engine := PollFate(r, occs[r.engine], t, true).1])
  {
    hide PollFate;
    PollsOne(r, true, occs, t, why);
    assert [r, q][..1] == [r] && [true, true][..1] == [true];
    var occs1 := occs[r.engine := PollFate(r, occs[r.engine], t, true).1];
    assert occs1[r.engine := occs1[r.engine]] == occs1;
  }

  /** Client 1 waits for workspace 5 and client 2 for surface 11. */
  lemma BothWait() returns (es: seq<Event>)
    ensures |es| == 4 && Run(START, es) == Sys([R1, R2], map[0 := OCC2], CLIENTS)
  {
    hide Begin, Run;
    Opened();
    var e2 := DoBegin(0, Workspace(5), 1, Asleep([10], [10]));
    var e3 := DoBegin(0, Surface(11), 2, Asleep([], []));
    OneMoreEvent(OPENING, e2); FirstBegins();
    var s2 := OPENING + [e2];
    assert Run(START, s2) == Sys([R1], map[0 := OCC1], CLIENTS);
    OneMoreEvent(s2, e3); SecondBegins();
    es := s2 + [e3];
  }

  /** Surface 11, which client 2 holds and waits for, is moved into workspace 5, which client 1 waits for; when
      it is activated the registry lists it there. The workspace is not the one captured any more, so the
      poll gives client 1's request up, and with it takes the lock of client 2, who has asked for nothing. */
  lemma ReleaseCanEndAnothersLease() returns (es: seq<Event>)
    ensures |es| == 6 && es[4] == DoChange(0, DoAddMember(5, 11, true)) && es[5].DoPoll?
    ensures var before, after := Run(START, es[..5]), Run(START, es);
            && before.pending == [R1, R2] && after.pending == [] && 0 in before.occs && 0 in after.occs
            && R1.client != R2.client && !R2.cancelled && Bound(R2, after.hub) && R2.target.Surface?
            && LeaseCurrent(R2, before.occs[0]) && FreesForeign(R1, before.occs[0]) && !LeaseCurrent(R2, after.occs[0])
  {
    hide Begin, PollList, Run, Free, FreesForeign;
    var s3 := BothWait();
    var e4 := DoChange(0, DoAddMember(5, 11, true));
    var e5 := DoPoll([true, true], Sees(5, [10, 11]));
    OneMoreEvent(s3, e4);
    var s4 := s3 + [e4];
    assert Apply(OCC2, DoAddMember(5, 11, true)) == OCC3;
    assert Run(START, s4) == Sys([R1, R2], map[0 := OCC3], CLIENTS);
    es := s4 + [e5];
    OneMoreEvent(s4, e5);
    assert es[..5] == s4;
    LastPoll();
  }

  lemma LastPoll()
    ensures var t := Sees(5, [10, 11]).(hub := CLIENTS);
            var o := Free(R1, OCC3);
            && PollList([R1, R2], [true, true], map[0 := OCC3], t) == ([], map[0 := o])
            && LeaseCurrent(R2, OCC3) && FreesForeign(R1, OCC3) && !LeaseCurrent(R2, o)
  {
    var t := Sees(5, [10, 11]).(hub := CLIENTS);
    assert |LookAt(t, 0).surfaces[5]| == 2;
    assert MembersChanged(R1, LookAt(t, 0));
    ChangedIsReleased(R1, OCC3, LookAt(t, 0), true);
    var o := Free(R1, OCC3);
    assert 11 in OCC3.surfaces && 11 !in o.surfaces;
    StaleIsDropped(R2, o, LookAt(t, 0), true);
    hide PollOne, Free;
    PollsTwo(R1, R2, map[0 := OCC3], t, FailedWith(TargetChanged), Stale);
    assert map[0 := OCC3][0 := o] == map[0 := o];
  }

  /** A terminal that lives already. */
  const AWAKE := Facts(true, false, Some([12]), [12], true, BLANK.(generation := map[12 := 7]))
  const SEEN_AWAKE := Tick(false, CLIENTS, map[0 := BLANK.(generation := map[12 := 7], surfaces := map[6 := [12]])])

  const R3 := Request(false, 0, Workspace(6), 2, 1, 1, [Leaf(12, None, None, Some(7))], [12])
  const R4 := Request(false, 0, Workspace(5), 1, 1, 2, [Leaf(10, None, None, None)], [10])
  const OCC4 := Occ(map[12 := Lock(false, 2, 1)], map[6 := Lock(false, 2, 1)], map[12 := 6], 1, {})
  const OCC5 := OCC4.(surfaces := map[12 := Lock(true, 2, 1)], workspaces := map[6 := Lock(true, 2, 1)])
  const OCC6 := Occ(
    map[10 := Lock(false, 1, 2), 12 := Lock(true, 2, 1)], map[5 := Lock(false, 1, 2), 6 := Lock(true, 2, 1)],
    map[10 := 5, 12 := 6], 2, {})
  const OCC7 := OCC6.(memberOf := map[10 := 6, 12 := 6])

  lemma ThirdBegins()
    ensures Begin([], EMPTY, 0, Workspace(6), 2, CLIENTS, AWAKE) == ([R3], OCC4)
  {
    hide Begin, NewLeaves;
    BeginsWorkspace(EMPTY, 6, 12, 2, CLIENTS, AWAKE);
    OneLeaf(12, AWAKE.look);
  }

  lemma FourthBegins()
    ensures Begin([], OCC5, 0, Workspace(5), 1, CLIENTS, Asleep([10], [10])) == ([R4], OCC6)
  {
    hide Begin, NewLeaves;
    BeginsWorkspace(OCC5, 5, 10, 1, CLIENTS, Asleep([10], [10]));
    OneLeaf(10, BLANK);
    var o := WithOne(OCC5, 5, 10, 1);
    assert o.memberOf == OCC6.memberOf && o.workspaces == OCC6.workspaces && o.surfaces == OCC6.surfaces;
  }

  lemma ThirdIsHandedOver()
    ensures PollList([R3], [true], map[0 := OCC4], SEEN_AWAKE) == ([], map[0 := OCC5])
  {
    var look := LookAt(SEEN_AWAKE, 0);
    assert !MembersChanged(R3, look) by { assert look.surfaces[6] == [12]; }
    assert PollLeaves(R3.leaves, look) == (R3.leaves, None) by {
      assert R3.leaves[1..] == [] && [R3.leaves[0]] + [] == R3.leaves;
    }
    assert SetReady(OCC4, 2, 1, true) == OCC5;
    hide SetReady, MembersChanged, PollLeaves;
    assert PollOne(R3, false, true, OCC4, look, true) == (Drop(HandedOver), OCC5);
    hide PollOne;
    PollsOne(R3, true, map[0 := OCC4], SEEN_AWAKE, HandedOver);
    assert map[0 := OCC4][0 := OCC5] == map[0 := OCC5];
  }

  lemma FourthIsGivenUp()
    ensures var o := OCC7.(workspaces := map[6 := Lock(true, 2, 1)]);
            PollList([R4], [true], map[0 := OCC7], Sees(5, []).(hub := CLIENTS)) == ([], map[0 := o])
  {
    var t := Sees(5, []).(hub := CLIENTS);
    assert MembersChanged(R4, LookAt(t, 0)) by { assert |LookAt(t, 0).surfaces[5]| == 0; }
    ChangedIsReleased(R4, OCC7, LookAt(t, 0), true);
    var o := OCC7.(workspaces := map[6 := Lock(true, 2, 1)]);
    assert MembersOf(OCC7, {5}) == {};
    assert OCC7.surfaces - {} == OCC7.surfaces && OCC7.memberOf - {} == OCC7.memberOf;
    assert OCC7.workspaces - {5} == map[6 := Lock(true, 2, 1)];
    assert Free(R4, OCC7) == o;
    hide PollOne, Free;
    PollsOne(R4, true, map[0 := OCC7], t, FailedWith(TargetChanged));
    assert map[0 := OCC7][0 := o] == map[0 := o];
  }

  /** Client 2 has workspace 6, and client 1 waits for workspace 5. */
  lemma BothHeld() returns (es: seq<Event>)
    ensures |es| == 5 && Run(START, es) == Sys([R4], map[0 := OCC6], CLIENTS)
  {
    hide Begin, PollList, Run;
    Opened();
    var e2 := DoBegin(0, Workspace(6), 2, AWAKE);
    var e3 := DoPoll([true], SEEN_AWAKE);
    var e4 := DoBegin(0, Workspace(5), 1, Asleep([10], [10]));
    OneMoreEvent(OPENING, e2); ThirdBegins();
    var s2 := OPENING + [e2];
    assert Run(START, s2) == Sys([R3], map[0 := OCC4], CLIENTS);
    OneMoreEvent(s2, e3); ThirdIsHandedOver();
    var s3 := s2 + [e3];
    assert Run(START, s3) == Sys([], map[0 := OCC5], CLIENTS);
    OneMoreEvent(s3, e4); FourthBegins();
    es := s3 + [e4];
  }

  /** Surface 10 of workspace 5, which client 1 waits for, is moved into workspace 6, which client 2 has. The
      poll gives client 1's request up, and leaves behind a lock of its grant that is not ready and that no
      request waits for. */
  lemma ReleaseCanLeaveALock() returns (es: seq<Event>)
    ensures |es| == 7 && es[5] == DoChange(0, DoAddMember(6, 10, true)) && es[6].DoPoll?
    ensures var before, after := Run(START, es[..6]), Run(START, es);
            && before.pending == [R4] && after.pending == [] && 0 in before.occs && 0 in after.occs
            && LeaseCurrent(R4, before.occs[0]) && !AllListed(R4, before.occs[0])
            && !LeaseCurrent(R4, after.occs[0]) && 10 in after.occs[0].surfaces
            && after.occs[0].surfaces[10] == Lock(false, R4.client, R4.grant)
  {
    hide Begin, PollList, Run;
    var s4 := BothHeld();
    var e5 := DoChange(0, DoAddMember(6, 10, true));
    var e6 := DoPoll([true], Sees(5, []));
    OneMoreEvent(s4, e5);
    var s5 := s4 + [e5];
    assert Apply(OCC6, DoAddMember(6, 10, true)) == OCC7;
    assert Run(START, s5) == Sys([R4], map[0 := OCC7], CLIENTS);
    es := s5 + [e6];
    OneMoreEvent(s5, e6);
    assert es[..6] == s5;
    FourthIsGivenUp();
    assert Own(R4, OCC7.surfaces[10]) && OCC7.memberOf[10] == 6;
  }

  // ---------------------------------------------------------------- the loops

  /** The invariant does not depend on which clients are connected. */
  lemma AnyHub(s: Sys, hub: map<nat, nat>)
    requires SysOk(s)
    ensures SysOk(s.(hub := hub))
  {}

  lemma StepServes(s: Sys, e: Event)
    requires SysOk(s.(hub := map[]))
    ensures SysOk(Step(s, e).(hub := map[]))
    ensures forall i :: 0 <= i < |s.pending| ==> Accounted(s.pending[i], Step(s, e)) || HandsOver(s, e, i)
  {
    hide SysOk, Step, Accounted, HandsOver;
    AnyHub(s.(hub := map[]), s.hub);
    StepOk(s, e);
    AnyHub(Step(s, e), map[]);
    forall i | 0 <= i < |s.pending| ensures Accounted(s.pending[i], Step(s, e)) || HandsOver(s, e, i) {
      StepAccounts(s, e, i);
    }
  }

  lemma BeginServes(s: Sys, id: nat, target: Target, client: nat, facts: Facts)
    requires SysOk(s.(hub := map[])) && id in s.occs
    ensures var (after, o) := Begin(s.pending, s.occs[id], id, target, client, s.hub, facts);
      var t := Sys(after, s.occs[id := o], s.hub);
      SysOk(t.(hub := map[])) && forall i :: 0 <= i < |s.pending| ==> Accounted(s.pending[i], t)
  {
    hide SysOk, Begin, Accounted;
    StepServes(s, DoBegin(id, target, client, facts));
  }

  /** The engine whose requests are gone may also stay open. */
  lemma ClosesSoundly(s: Sys, id: nat)
    requires SysOk(s) && id in s.occs
    ensures var (kept, o) := CancelEngine(s.pending, s.occs[id], id);
      SysOk(Sys(kept, s.occs[id := o], s.hub)) && forall r :: r in kept <==> r in s.pending && r.engine != id
  {
    hide CancelEngine, GrantsOk, Single, Descends, Fewer;
    StepOk(s, DoCloseEngine(id));
    CancelEngineOk(s.pending, s.occs[id], id);
    KeptOnOthers(s.pending, s.occs[id], id);
    var (kept, o) := CancelEngine(s.pending, s.occs[id], id);
    FewerOk(s.occs[id], o);
    forall k | 0 <= k < |kept| ensures HomedIn(kept[k], s.occs[id := o]) { assert HomedIn(kept[k], s.occs - {id}); }
  }

  lemma {:induction false} KeptOnOthers(pending: seq<Request>, o: Occ, id: nat)
    ensures forall r :: r in CancelEngine(pending, o, id).0 <==> r in pending && r.engine != id
  {
    if pending != [] {
      hide Free;
      KeptOnOthers(pending[..|pending| - 1], o, id);
      assert pending == pending[..|pending| - 1] + [pending[|pending| - 1]];
    }
  }

  class Server {
    var pending: seq<Request>
    var occs: map<nat, Occ>

    ghost function Now(hub: map<nat, nat>): Sys reads this { Sys(pending, occs, hub) }

    /** At most 64 requests, at most one uncancelled for each client and one for each client and engine, each
        on an open engine, and the grants of every engine numbered soundly. */
    ghost predicate Valid() reads this { SysOk(Now(map[])) }

    constructor ()
      ensures pending == [] && occs == map[] && Valid()
    {
      pending, occs := [], map[];
      new;
      EmptyOk();
    }

    /** Every request waits on, hands its lease over ready, or has no current lease any more. */
    method PollAll(published: seq<bool>, t: Tick)
      requires |published| == |pending| && Valid()
      modifies this
      ensures Valid()
      ensures forall i :: 0 <= i < |old(pending)| ==>
                Accounted(old(pending)[i], Now(t.hub)) || HandsOver(old(Now(t.hub)), DoPoll(published, t), i)
      ensures (pending, occs) == PollList(old(pending), published, old(occs), t)
    {
      hide SysOk, Accounted, HandsOver;
      StepServes(Now(t.hub), DoPoll(published, t));
      var owned := pending;
      pending := [];
      for i := 0 to |owned|
        invariant (pending, occs) == PollList(owned[..i], published[..i], old(occs), t)
      {
        assert owned[..i + 1][..i] == owned[..i] && published[..i + 1][..i] == published[..i];
        var request := owned[i];
        if request.engine in occs {
          var (fate, o) := PollFate(request, occs[request.engine], t, published[i]);
          occs := occs[request.engine := o];
          if fate.Keep? { pending := pending + [fate.request]; }
        }
      }
      assert owned[..|owned|] == owned && published[..|owned|] == published;
    }

    /** No request of the engine is left, and all others wait on as they are. */
    method CloseEngine(id: nat)
      requires id in occs && Valid()
      modifies this
      ensures Valid()
      ensures forall r :: r in pending <==> r in old(pending) && r.engine != id
      ensures id in occs && occs == old(occs)[id := occs[id]]
      ensures (pending, occs[id]) == CancelEngine(old(pending), old(occs)[id], id)
    {
      hide SysOk;
      ClosesSoundly(Now(map[]), id);
      var owned := pending;
      pending := [];
      for i := 0 to |owned|
        invariant id in occs && occs == old(occs)[id := occs[id]]
        invariant (pending, occs[id]) == CancelEngine(owned[..i], old(occs)[id], id)
      {
        assert owned[..i + 1][..i] == owned[..i];
        if owned[i].engine != id { pending := pending + [owned[i]]; }
        else { occs := occs[id := Free(owned[i], occs[id])]; }
      }
      assert owned[..|owned|] == owned;
    }

    method BeginAttach(id: nat, target: Target, client: nat, hub: map<nat, nat>, f: Facts)
      requires id in occs && Valid()
      modifies this
      ensures Valid()
      ensures forall i :: 0 <= i < |old(pending)| ==> Accounted(old(pending)[i], Now(hub))
      ensures id in occs && occs == old(occs)[id := occs[id]]
      ensures (pending, occs[id]) == Begin(old(pending), old(occs)[id], id, target, client, hub, f)
    {
      hide SysOk, Accounted;
      BeginServes(Now(hub), id, target, client, f);
      assert occs[id := occs[id]] == occs;
      if client !in hub || Duplicate(pending, client, hub[client], target) { return; }
      var owned, o := pending, occs[id];
      pending := [];
      for i := 0 to |owned|
        invariant occs == old(occs)
        invariant (pending, o) == Drain(owned[..i], occs[id], id, client)
      {
        assert owned[..i + 1][..i] == owned[..i];
        var item := owned[i];
        if item.client == client {
          if item.engine == id { o := Free(item, o); }
          else { pending := pending + [item.(cancelled := true)]; }
        } else {
          pending := pending + [item];
        }
      }
      assert owned[..|owned|] == owned;
      if |pending| >= MAX_PENDING { occs := occs[id := o]; return; }
      if target.Surface? && !f.terminal {
        occs := occs[id := if f.direct then Acquire(o, target.id, client).1 else o];
        return;
      }
      if (target.Workspace? && f.surfaces.None?) || !f.fits { occs := occs[id := o]; return; }
      var members := if target.Surface? then [target.id] else f.surfaces.value;
      var terminals := if target.Surface? then [target.id] else f.terminals;
      var (answer, o2) := AcquireTarget(o, target, terminals, members, client);
      match answer {
        case AlreadyAttached(_) => occs := occs[id := o2];
        case Granted(lock) =>
          occs := occs[id := SetReady(o2, client, lock.grant, false)];
          pending := pending
            + [Request(false, id, target, client, hub[client], lock.grant, NewLeaves(terminals, f.look), members)];
      }
    }
  }
}
