/** Which client holds which surface and workspace. Every grant has its own sequence number. */
module Occupancy {
  import opened Wrappers

  datatype Lock = Lock(ready: bool, holder: nat, grant: nat)

  datatype Occ = Occ(
    surfaces: map<nat, Lock>, workspaces: map<nat, Lock>,
    memberOf: map<nat, nat>, nextSeq: nat, dead: set<nat>)

  datatype Answer = Granted(lock: Lock) | AlreadyAttached(holder: nat)

  // ---------------------------------------------------------------- what each operation does

  function HeldBy(locks: map<nat, Lock>, client: nat): set<nat> {
    set k | k in locks && locks[k].holder == client
  }

  function MembersOf(o: Occ, workspaces: set<nat>): set<nat> {
    set s | s in o.memberOf && o.memberOf[s] in workspaces
  }

  /** Everything client holds is given up: its workspaces with all their members, then its surfaces. */
  function ReleaseAll(o: Occ, client: nat): Occ {
    var ws := HeldBy(o.workspaces, client);
    var ms := MembersOf(o, ws);
    o.(workspaces := o.workspaces - ws, surfaces := o.surfaces - ms - HeldBy(o.surfaces, client),
       memberOf := o.memberOf - ms, dead := o.dead - {client})
  }

  function FreshLock(o: Occ, client: nat): Lock { Lock(true, client, o.nextSeq + 1) }

  function Acquire(o: Occ, s: nat, client: nat): (Answer, Occ) {
    if s in o.surfaces && o.surfaces[s].holder == client then (Granted(o.surfaces[s]), o)
    else if s in o.surfaces && o.surfaces[s].holder !in o.dead then (AlreadyAttached(o.surfaces[s].holder), o)
    else
      var o1 := if s in o.surfaces then ReleaseAll(o, o.surfaces[s].holder) else o;
      var lock := FreshLock(o1, client);
      (Granted(lock), o1.(nextSeq := o1.nextSeq + 1, surfaces := o1.surfaces[s := lock]))
  }

  /** Holders of the terminals are checked in order; a dead one is evicted, a live one stops the search. */
  function ClearTerminals(o: Occ, terminals: seq<nat>, client: nat): (Option<nat>, Occ)
    decreases |terminals|
  {
    if terminals == [] then (None, o)
    else
      var s := terminals[0];
      if s in o.surfaces && o.surfaces[s].holder != client then
        if o.surfaces[s].holder in o.dead
          then ClearTerminals(ReleaseAll(o, o.surfaces[s].holder), terminals[1..], client)
        else (Some(o.surfaces[s].holder), o)
      else ClearTerminals(o, terminals[1..], client)
  }

  function GrantWorkspace(o: Occ, w: nat, terminals: seq<nat>, members: seq<nat>, client: nat): Occ {
    var lock := FreshLock(o, client);
    o.(nextSeq := o.nextSeq + 1, workspaces := o.workspaces[w := lock],
       surfaces := Fill(terminals, lock) + o.surfaces,
       memberOf := o.memberOf + Fill(members, w))
  }

  function AcquireWorkspace(o: Occ, w: nat, terminals: seq<nat>, members: seq<nat>, client: nat): (Answer, Occ) {
    if w in o.workspaces && o.workspaces[w].holder == client then (Granted(o.workspaces[w]), o)
    else if w in o.workspaces && o.workspaces[w].holder !in o.dead then (AlreadyAttached(o.workspaces[w].holder), o)
    else
      var o1 := if w in o.workspaces then ReleaseAll(o, o.workspaces[w].holder) else o;
      var (busy, o2) := ClearTerminals(o1, terminals, client);
      if busy.Some? then (AlreadyAttached(busy.value), o2)
      else (Granted(FreshLock(o2, client)), GrantWorkspace(o2, w, terminals, members, client))
  }

  /** Only the holder can release. */
  function Release(o: Occ, s: nat, client: nat): Occ {
    if s in o.surfaces && o.surfaces[s].holder == client then o.(surfaces := o.surfaces - {s}) else o
  }

  function ForceDetach(o: Occ, s: nat): Occ { o.(surfaces := o.surfaces - {s}) }

  function ForceDetachWorkspace(o: Occ, w: nat): Occ {
    if w !in o.workspaces then o
    else
      var ms := MembersOf(o, {w});
      o.(workspaces := o.workspaces - {w}, surfaces := o.surfaces - ms, memberOf := o.memberOf - ms)
  }

  function ForgetClosedSurface(o: Occ, s: nat): Occ {
    o.(surfaces := o.surfaces - {s}, memberOf := o.memberOf - {s})
  }

  function AddMember(o: Occ, w: nat, s: nat, terminal: bool): Occ {
    if w !in o.workspaces then o
    else
      o.(surfaces := if terminal && s !in o.surfaces then o.surfaces[s := o.workspaces[w]] else o.surfaces,
         memberOf := o.memberOf[s := w])
  }

  function MarkDead(o: Occ, clients: set<nat>): Occ { o.(dead := o.dead + clients) }

  function WithReady(lock: Lock, client: nat, grant: nat, ready: bool): Lock {
    if lock.holder == client && lock.grant == grant then lock.(ready := ready) else lock
  }

  function SetReady(o: Occ, client: nat, grant: nat, ready: bool): Occ {
    o.(surfaces := map s | s in o.surfaces :: WithReady(o.surfaces[s], client, grant, ready),
       workspaces := map w | w in o.workspaces :: WithReady(o.workspaces[w], client, grant, ready))
  }

  /** The tier that only displays takes a sequence number too. */
  function AcquireSoft(o: Occ): Occ { o.(nextSeq := o.nextSeq + 1) }

  datatype Change =
    | DoAcquire(s: nat, client: nat)
    | DoAcquireWorkspace(w: nat, terminals: seq<nat>, members: seq<nat>, client: nat)
    | DoRelease(s: nat, client: nat)
    | DoReleaseAll(client: nat)
    | DoForceDetach(s: nat)
    | DoForceDetachWorkspace(w: nat)
    | DoForget(s: nat)
    | DoAddMember(w: nat, s: nat, terminal: bool)
    | DoMarkDead(clients: set<nat>)
    | DoSetReady(client: nat, grant: nat, ready: bool)
    | DoAcquireSoft

  function Apply(o: Occ, c: Change): Occ {
    match c
    case DoAcquire(s, client) => Acquire(o, s, client).1
    case DoAcquireWorkspace(w, ts, ms, client) => AcquireWorkspace(o, w, ts, ms, client).1
    case DoRelease(s, client) => Release(o, s, client)
    case DoReleaseAll(client) => ReleaseAll(o, client)
    case DoForceDetach(s) => ForceDetach(o, s)
    case DoForceDetachWorkspace(w) => ForceDetachWorkspace(o, w)
    case DoForget(s) => ForgetClosedSurface(o, s)
    case DoAddMember(w, s, terminal) => AddMember(o, w, s, terminal)
    case DoMarkDead(clients) => MarkDead(o, clients)
    case DoSetReady(client, grant, ready) => SetReady(o, client, grant, ready)
    case DoAcquireSoft => AcquireSoft(o)
  }

  const EMPTY := Occ(map[], map[], map[], 0, {})

  // ---------------------------------------------------------------- grants

  /** Some lock carries this grant and holder. */
  ghost predicate Carries(o: Occ, client: nat, grant: nat) {
    || (exists s :: s in o.surfaces && o.surfaces[s].holder == client && o.surfaces[s].grant == grant)
    || (exists w :: w in o.workspaces && o.workspaces[w].holder == client && o.workspaces[w].grant == grant)
  }

  /** Grants are numbered from 1 to nextSeq; one number means one holder, and at most one workspace. */
  ghost predicate GrantsOk(o: Occ) { Numbered(o) && HoldersAgree(o) && OneWorkspaceEach(o) }

  ghost predicate Numbered(o: Occ) {
    && (forall s :: s in o.surfaces ==> 1 <= o.surfaces[s].grant <= o.nextSeq)
    && (forall w :: w in o.workspaces ==> 1 <= o.workspaces[w].grant <= o.nextSeq)
  }

  ghost predicate HoldersAgree(o: Occ) {
    && (forall s, t :: s in o.surfaces && t in o.surfaces && o.surfaces[s].grant == o.surfaces[t].grant ==>
      o.surfaces[s].holder == o.surfaces[t].holder)
    && (forall s, w :: s in o.surfaces && w in o.workspaces && o.surfaces[s].grant == o.workspaces[w].grant ==>
      o.surfaces[s].holder == o.workspaces[w].holder)
  }

  ghost predicate OneWorkspaceEach(o: Occ) {
    forall v, w :: v in o.workspaces && w in o.workspaces && o.workspaces[v].grant == o.workspaces[w].grant ==> v == w
  }

  /** o' has only locks of o, perhaps with another ready flag, and no smaller sequence number. */
  ghost predicate Fewer(o: Occ, o': Occ) {
    && o.nextSeq <= o'.nextSeq
    && (forall s :: s in o'.surfaces ==> s in o.surfaces && Same(o'.surfaces[s], o.surfaces[s]))
    && (forall w :: w in o'.workspaces ==> w in o.workspaces && Same(o'.workspaces[w], o.workspaces[w]))
  }

  ghost predicate Same(a: Lock, b: Lock) { a.holder == b.holder && a.grant == b.grant }

  lemma FewerOk(o: Occ, o': Occ)
    requires GrantsOk(o) && Fewer(o, o')
    ensures GrantsOk(o')
  {}

  lemma FewerCarries(o: Occ, o': Occ, client: nat, grant: nat)
    requires Fewer(o, o') && Carries(o', client, grant)
    ensures Carries(o, client, grant)
  {}

  lemma {:induction false} ClearTerminalsFewer(o: Occ, terminals: seq<nat>, client: nat)
    ensures Fewer(o, ClearTerminals(o, terminals, client).1)
      && ClearTerminals(o, terminals, client).1.nextSeq == o.nextSeq
    ensures ClearTerminals(o, terminals, client).0.None? ==>
              forall s :: s in terminals && s in ClearTerminals(o, terminals, client).1.surfaces ==>
                ClearTerminals(o, terminals, client).1.surfaces[s].holder == client
    decreases |terminals|
  {
    if terminals != [] {
      var s := terminals[0];
      var o1 := if s in o.surfaces && o.surfaces[s].holder != client && o.surfaces[s].holder in o.dead
        then ReleaseAll(o, o.surfaces[s].holder) else o;
      ClearTerminalsFewer(o1, terminals[1..], client);
      var r := ClearTerminals(o, terminals, client);
      if r.0.None? {
        assert r == ClearTerminals(o1, terminals[1..], client);
        forall t | t in terminals && t in r.1.surfaces ensures r.1.surfaces[t].holder == client {
          if t == s { assert s in o1.surfaces; } else { assert t in terminals[1..]; }
        }
      }
    }
  }

  /** What one operation may do to the grants. */
  ghost predicate GrantStep(o: Occ, o': Occ) {
    && GrantsOk(o') && o.nextSeq <= o'.nextSeq
    && (forall client: nat, grant: nat :: grant <= o.nextSeq && Carries(o', client, grant) ==>
      Carries(o, client, grant))
  }

  lemma FewerStep(o: Occ, o': Occ)
    requires GrantsOk(o) && Fewer(o, o')
    ensures GrantStep(o, o')
  {
    hide GrantsOk, Fewer, Carries;
    FewerOk(o, o');
    assert o.nextSeq <= o'.nextSeq by { FewerSeq(o, o'); }
    forall client: nat, grant: nat | grant <= o.nextSeq && Carries(o', client, grant)
      ensures Carries(o, client, grant) {
      FewerCarries(o, o', client, grant);
    }
  }

  lemma FewerSeq(o: Occ, o': Occ)
    requires Fewer(o, o')
    ensures o.nextSeq <= o'.nextSeq
  {}

  lemma StepAfter(o: Occ, o1: Occ, o2: Occ)
    requires GrantStep(o, o1) && GrantStep(o1, o2)
    ensures GrantStep(o, o2)
  {
    hide GrantsOk, Carries;
  }

  lemma ReleaseAllFewer(o: Occ, client: nat)
    ensures Fewer(o, ReleaseAll(o, client))
  {}

  /** A new lock on one surface. */
  lemma NewSurfaceLock(o: Occ, s: nat, client: nat)
    requires GrantsOk(o)
    ensures GrantStep(o, o.(nextSeq := o.nextSeq + 1, surfaces := o.surfaces[s := FreshLock(o, client)]))
  {
    LocksJoin(o, o.(nextSeq := o.nextSeq + 1, surfaces := o.surfaces[s := FreshLock(o, client)]), FreshLock(o, client),
      0);
  }

  lemma AcquireStep(o: Occ, s: nat, client: nat)
    requires GrantsOk(o)
    ensures GrantStep(o, Acquire(o, s, client).1)
  {
    hide GrantsOk, GrantStep, ReleaseAll, Fewer, FreshLock;
    var o1 := if s in o.surfaces then ReleaseAll(o, o.surfaces[s].holder) else o;
    if s in o.surfaces { ReleaseAllFewer(o, o.surfaces[s].holder); } else { NothingFewer(o); }
    FewerStep(o, o1);
    FewerOk(o, o1);
    NothingFewer(o);
    FewerStep(o, o);
    NewSurfaceLock(o1, s, client);
    StepAfter(o, o1, o1.(nextSeq := o1.nextSeq + 1, surfaces := o1.surfaces[s := FreshLock(o1, client)]));
  }

  lemma NothingFewer(o: Occ)
    ensures Fewer(o, o)
  {}

  lemma GrantWorkspaceStep(o: Occ, w: nat, ts: seq<nat>, ms: seq<nat>, client: nat)
    requires GrantsOk(o)
    ensures GrantStep(o, GrantWorkspace(o, w, ts, ms, client))
  {
    var o' := GrantWorkspace(o, w, ts, ms, client);
    var lock := FreshLock(o, client);
    assert forall s :: s in o'.surfaces ==>
      o'.surfaces[s] == lock || (s in o.surfaces && o'.surfaces[s] == o.surfaces[s]);
    assert forall v :: v in o'.workspaces ==>
      (v == w && o'.workspaces[v] == lock) || (v in o.workspaces && o'.workspaces[v] == o.workspaces[v]);
    LocksJoin(o, o', lock, w);
  }

  /** Old locks plus copies of one new lock, one of them on a workspace. */
  lemma LocksJoin(o: Occ, o': Occ, lock: Lock, w: nat)
    requires GrantsOk(o) && Joined(o, o', lock, w)
    ensures GrantStep(o, o')
  {
    hide GrantsOk, Carries, Joined;
    JoinedSeq(o, o', lock, w);
    LocksJoinOk(o, o', lock, w);
    forall client: nat, grant: nat | grant <= o.nextSeq && Carries(o', client, grant)
      ensures Carries(o, client, grant) {
      LocksJoinCarries(o, o', lock, w, client, grant);
    }
  }

  lemma JoinedSeq(o: Occ, o': Occ, lock: Lock, w: nat)
    requires Joined(o, o', lock, w)
    ensures o.nextSeq <= o'.nextSeq
  {}

  ghost predicate Joined(o: Occ, o': Occ, lock: Lock, w: nat) {
    && lock.grant == o.nextSeq + 1 == o'.nextSeq
    && (forall s :: s in o'.surfaces ==> o'.surfaces[s] == lock || (s in o.surfaces && o'.surfaces[s] == o.surfaces[s]))
    && (forall v :: v in o'.workspaces ==>
      (v == w && o'.workspaces[v] == lock) || (v in o.workspaces && o'.workspaces[v] == o.workspaces[v]))
  }

  lemma LocksJoinOk(o: Occ, o': Occ, lock: Lock, w: nat)
    requires GrantsOk(o) && Joined(o, o', lock, w)
    ensures GrantsOk(o')
  {
    hide HoldersAgree;
    assert HoldersAgree(o') by { JoinedHolders(o, o', lock, w); }
  }

  lemma JoinedHolders(o: Occ, o': Occ, lock: Lock, w: nat)
    requires Numbered(o) && HoldersAgree(o) && Joined(o, o', lock, w)
    ensures HoldersAgree(o')
  {
    forall s, t | s in o'.surfaces && t in o'.surfaces && o'.surfaces[s].grant == o'.surfaces[t].grant
      ensures o'.surfaces[s].holder == o'.surfaces[t].holder
    {
      assert o'.surfaces[s] == lock || s in o.surfaces;
      assert o'.surfaces[t] == lock || t in o.surfaces;
    }
    forall s, v | s in o'.surfaces && v in o'.workspaces && o'.surfaces[s].grant == o'.workspaces[v].grant
      ensures o'.surfaces[s].holder == o'.workspaces[v].holder
    {
      assert o'.surfaces[s] == lock || s in o.surfaces;
      assert o'.workspaces[v] == lock || v in o.workspaces;
    }
  }

  lemma LocksJoinCarries(o: Occ, o': Occ, lock: Lock, w: nat, client: nat, grant: nat)
    requires Joined(o, o', lock, w) && grant <= o.nextSeq && Carries(o', client, grant)
    ensures Carries(o, client, grant)
  {}

  lemma AcquireWorkspaceStep(o: Occ, w: nat, ts: seq<nat>, ms: seq<nat>, client: nat)
    requires GrantsOk(o)
    ensures GrantStep(o, AcquireWorkspace(o, w, ts, ms, client).1)
  {
    hide GrantsOk, GrantStep, ReleaseAll, GrantWorkspace, ClearTerminals, Fewer;
    NothingFewer(o);
    FewerStep(o, o);
    if !(w in o.workspaces && (o.workspaces[w].holder == client || o.workspaces[w].holder !in o.dead)) {
      var o1 := if w in o.workspaces then ReleaseAll(o, o.workspaces[w].holder) else o;
      if w in o.workspaces { ReleaseAllFewer(o, o.workspaces[w].holder); }
      FewerStep(o, o1);
      FewerOk(o, o1);
      ClearTerminalsFewer(o1, ts, client);
      var o2 := ClearTerminals(o1, ts, client).1;
      FewerStep(o1, o2);
      FewerOk(o1, o2);
      StepAfter(o, o1, o2);
      GrantWorkspaceStep(o2, w, ts, ms, client);
      StepAfter(o, o2, GrantWorkspace(o2, w, ts, ms, client));
    }
  }

  lemma AddMemberStep(o: Occ, w: nat, s: nat, terminal: bool)
    requires GrantsOk(o)
    ensures GrantStep(o, AddMember(o, w, s, terminal))
  {
    hide GrantsOk, Carries;
    var o' := AddMember(o, w, s, terminal);
    CopiesOk(o, o', w);
    forall client: nat, grant: nat | grant <= o.nextSeq && Carries(o', client, grant)
      ensures Carries(o, client, grant) {
      CopiesCarry(o, o', w, client, grant);
    }
  }

  /** Surfaces may only take over the lock of workspace w. */
  ghost predicate CopiesFrom(o: Occ, o': Occ, w: nat) {
    && o'.workspaces == o.workspaces && o'.nextSeq == o.nextSeq
    && forall t :: t in o'.surfaces ==>
      (t in o.surfaces && o'.surfaces[t] == o.surfaces[t]) || (w in o.workspaces && o'.surfaces[t] == o.workspaces[w])
  }

  lemma CopiesOk(o: Occ, o': Occ, w: nat)
    requires GrantsOk(o) && CopiesFrom(o, o', w)
    ensures GrantsOk(o')
  {}

  lemma CopiesCarry(o: Occ, o': Occ, w: nat, client: nat, grant: nat)
    requires CopiesFrom(o, o', w) && Carries(o', client, grant)
    ensures Carries(o, client, grant)
  {}

  lemma OthersFewer(o: Occ, c: Change)
    requires !c.DoAcquire? && !c.DoAcquireWorkspace? && !c.DoAddMember?
    ensures Fewer(o, Apply(o, c))
  {}

  /** One operation keeps the numbering sound, and a grant that no lock carries does not come back. */
  lemma ApplyStep(o: Occ, c: Change)
    requires GrantsOk(o)
    ensures GrantStep(o, Apply(o, c)) && GrantsOk(Apply(o, c))
  {
    assert GrantStep(o, Apply(o, c)) by { GrantsStep(o, c); }
  }

  lemma GrantsStep(o: Occ, c: Change)
    requires GrantsOk(o)
    ensures GrantStep(o, Apply(o, c))
  {
    hide GrantsOk, GrantStep, Fewer;
    match c {
      case DoAcquire(s, who) => AcquireStep(o, s, who);
      case DoAcquireWorkspace(w, ts, ms, who) => AcquireWorkspaceStep(o, w, ts, ms, who);
      case DoAddMember(w, s, terminal) => AddMemberStep(o, w, s, terminal);
      case _ =>
        OthersFewer(o, c);
        FewerStep(o, Apply(o, c));
    }
  }

  ghost function ApplyAll(o: Occ, cs: seq<Change>): Occ
    decreases |cs|
  {
    if cs == [] then o else ApplyAll(Apply(o, cs[0]), cs[1..])
  }

  /** Over any run: once no lock carries a grant that was given, nothing ever carries it again. */
  lemma {:induction false} ReleasedGrantNeverReturns(o: Occ, cs: seq<Change>, client: nat, grant: nat)
    requires GrantsOk(o) && grant <= o.nextSeq && !Carries(o, client, grant)
    ensures GrantsOk(ApplyAll(o, cs)) && !Carries(ApplyAll(o, cs), client, grant)
    decreases |cs|
  {
    if cs != [] {
      ApplyStep(o, cs[0]);
      ReleasedGrantNeverReturns(Apply(o, cs[0]), cs[1..], client, grant);
    }
  }

  // ---------------------------------------------------------------- the registry

  /** Without these workspaces and everything listed as their members. */
  function Stripped(o: Occ, ws: set<nat>): Occ {
    var ms := MembersOf(o, ws);
    o.(workspaces := o.workspaces - ws, surfaces := o.surfaces - ms, memberOf := o.memberOf - ms)
  }

  lemma StripNone(o: Occ)
    ensures Stripped(o, {}) == o
  {
    assert MembersOf(o, {}) == {};
  }

  lemma StripOne(o: Occ, ws: set<nat>, w: nat)
    requires w !in ws
    ensures var o1 := Stripped(o, ws);
            var ms := set s | s in o1.memberOf && o1.memberOf[s] == w;
            Stripped(o, ws + {w})
              == o1.(workspaces := o1.workspaces - {w}, surfaces := o1.surfaces - ms, memberOf := o1.memberOf - ms)
  {
    var o1 := Stripped(o, ws);
    var ms := set s | s in o1.memberOf && o1.memberOf[s] == w;
    assert MembersOf(o, ws + {w}) == MembersOf(o, ws) + ms;
  }

  lemma HeldAfter(o: Occ, ws: set<nat>, client: nat)
    ensures Stripped(o, ws).surfaces - HeldBy(Stripped(o, ws).surfaces, client)
      == o.surfaces - MembersOf(o, ws) - HeldBy(o.surfaces, client)
    ensures Stripped(o, {}) == o
  {
    assert MembersOf(o, {}) == {};
  }

  function Fill<V>(ks: seq<nat>, v: V): map<nat, V> { map k | k in ks :: v }

  lemma FillStep<V>(ks: seq<nat>, i: nat, v: V)
    requires i < |ks|
    ensures Fill(ks[..i + 1], v) == Fill(ks[..i], v)[ks[i] := v]
  {
    assert ks[..i + 1] == ks[..i] + [ks[i]];
  }

  lemma FillNone(o: Occ, ts: seq<nat>, ms: seq<nat>, lock: Lock, w: nat)
    ensures Fill(ts[..0], lock) + o.surfaces == o.surfaces && o.memberOf + Fill(ms[..0], w) == o.memberOf
  {
    assert Fill(ts[..0], lock) == map[] && Fill(ms[..0], w) == map[];
  }

  lemma OrInsert<V>(ks: seq<nat>, i: nat, v: V, base: map<nat, V>)
    requires i < |ks|
    ensures var m := Fill(ks[..i], v) + base;
            Fill(ks[..i + 1], v) + base == if ks[i] in m then m else m[ks[i] := v]
  {
    FillStep(ks, i, v);
  }

  lemma Insert<V>(ks: seq<nat>, i: nat, v: V, base: map<nat, V>)
    requires i < |ks|
    ensures base + Fill(ks[..i + 1], v) == (base + Fill(ks[..i], v))[ks[i] := v]
  {
    FillStep(ks, i, v);
  }

  lemma StrippedIs(o: Occ, ws: set<nat>)
    ensures Stripped(o, ws)
      == o.(workspaces := o.workspaces - ws, surfaces := o.surfaces - MembersOf(o, ws),
        memberOf := o.memberOf - MembersOf(o, ws))
  {}

  lemma StayStep(o: Occ)
    requires GrantsOk(o)
    ensures GrantStep(o, o)
  {
    NothingFewer(o);
    FewerStep(o, o);
  }

  /** Key k says in m' what it said in m: the same value, or nothing. */
  ghost predicate Kept<V>(m: map<nat, V>, m': map<nat, V>, k: nat) {
    (k in m <==> k in m') && (k in m ==> m'[k] == m[k])
  }

  class OccupancyRegistry {
    var surfaceLocks: map<nat, Lock>
    var workspaceLocks: map<nat, Lock>
    var surfaceToWorkspace: map<nat, nat>
    var nextSeq: nat
    var deadClients: set<nat>

    ghost function View(): Occ
      reads this
    {
      Occ(surfaceLocks, workspaceLocks, surfaceToWorkspace, nextSeq, deadClients)
    }

    /** Grants are numbered soundly; every method keeps it, and brings no grant back. */
    ghost predicate Valid()
      reads this
    {
      GrantsOk(View())
    }

    constructor ()
      ensures View() == EMPTY && Valid()
    {
      surfaceLocks, workspaceLocks, surfaceToWorkspace, nextSeq, deadClients := map[], map[], map[], 0, {};
    }

    method ReleaseAllForClient(client: nat)
      requires Valid()
      modifies this
      ensures Valid() && GrantStep(old(View()), View())
      ensures View() == ReleaseAll(old(View()), client)
      ensures forall s :: s in surfaceLocks ==> surfaceLocks[s].holder != client
      ensures forall w :: w in workspaceLocks ==> workspaceLocks[w].holder != client
    {
      hide GrantsOk, GrantStep, Stripped;
      ghost var o := View();
      ApplyStep(o, DoReleaseAll(client));
      var held := HeldBy(workspaceLocks, client);
      ReleaseWorkspaces(held);
      HeldAfter(o, held, client);
      surfaceLocks := surfaceLocks - HeldBy(surfaceLocks, client);
      deadClients := deadClients - {client};
      assert View() == ReleaseAll(o, client) by { StrippedIs(o, held); }
    }

    method ReleaseWorkspaces(held: set<nat>)
      modifies this
      ensures View() == Stripped(old(View()), held)
    {
      hide Stripped;
      ghost var o := View();
      StripNone(o);
      var todo := held;
      assert held - todo == {};
      while todo != {}
        invariant todo <= held
        invariant View() == Stripped(o, held - todo)
        decreases |todo|
      {
        var w :| w in todo;
        StripOne(o, held - todo, w);
        assert held - (todo - {w}) == (held - todo) + {w};
        workspaceLocks := workspaceLocks - {w};
        var members := set s | s in surfaceToWorkspace && surfaceToWorkspace[s] == w;
        surfaceLocks := surfaceLocks - members;
        surfaceToWorkspace := surfaceToWorkspace - members;
        todo := todo - {w};
      }
      assert held - todo == held;
    }

    method EvictIfDead(holder: nat) returns (evicted: bool)
      requires Valid()
      modifies this
      ensures Valid() && GrantStep(old(View()), View())
      ensures evicted == (holder in old(deadClients))
      ensures View() == if evicted then ReleaseAll(old(View()), holder) else old(View())
    {
      hide GrantsOk, GrantStep;
      if holder !in deadClients {
        StayStep(View());
        return false;
      }
      ReleaseAllForClient(holder);
      return true;
    }

    method AcquireSurface(s: nat, client: nat) returns (answer: Answer)
      requires Valid()
      modifies this
      ensures Valid() && GrantStep(old(View()), View())
      ensures (answer, View()) == Acquire(old(View()), s, client)
    {
      hide GrantsOk, GrantStep;
      ApplyStep(View(), DoAcquire(s, client));
      if s in surfaceLocks {
        var existing := surfaceLocks[s];
        if existing.holder == client { return Granted(existing); }
        var evicted := EvictIfDead(existing.holder);
        if !evicted { return AlreadyAttached(existing.holder); }
      }
      nextSeq := nextSeq + 1;
      var lock := Lock(true, client, nextSeq);
      surfaceLocks := surfaceLocks[s := lock];
      return Granted(lock);
    }

    method AcquireWorkspaceFor(w: nat, terminals: seq<nat>, members: seq<nat>, client: nat) returns (answer: Answer)
      requires Valid()
      modifies this
      ensures Valid() && GrantStep(old(View()), View())
      ensures (answer, View()) == AcquireWorkspace(old(View()), w, terminals, members, client)
    {
      hide GrantsOk, GrantStep;
      ApplyStep(View(), DoAcquireWorkspace(w, terminals, members, client));
      if w in workspaceLocks {
        var existing := workspaceLocks[w];
        if existing.holder == client { return Granted(existing); }
        var evicted := EvictIfDead(existing.holder);
        if !evicted { return AlreadyAttached(existing.holder); }
      }
      var busy := EvictDeadHolders(terminals, client);
      if busy.Some? { return AlreadyAttached(busy.value); }
      var lock := RegisterWorkspace(w, terminals, members, client);
      return Granted(lock);
    }

    method EvictDeadHolders(terminals: seq<nat>, client: nat) returns (busy: Option<nat>)
      requires Valid()
      modifies this
      ensures Valid()
      ensures (busy, View()) == ClearTerminals(old(View()), terminals, client)
    {
      hide GrantsOk, GrantStep;
      for i := 0 to |terminals|
        invariant Valid()
        invariant ClearTerminals(View(), terminals[i..], client) == ClearTerminals(old(View()), terminals, client)
      {
        assert terminals[i..][1..] == terminals[i + 1..];
        var s := terminals[i];
        if s in surfaceLocks && surfaceLocks[s].holder != client {
          var holder := surfaceLocks[s].holder;
          var evicted := EvictIfDead(holder);
          if !evicted { return Some(holder); }
        }
      }
      return None;
    }

    method RegisterWorkspace(w: nat, terminals: seq<nat>, members: seq<nat>, client: nat) returns (lock: Lock)
      modifies this
      ensures View() == GrantWorkspace(old(View()), w, terminals, members, client)
      ensures lock == FreshLock(old(View()), client)
    {
      hide Fill;
      ghost var o := View();
      assert Fill(terminals[..0], FreshLock(o, client)) + o.surfaces == o.surfaces
        && o.memberOf + Fill(members[..0], w) == o.memberOf by {
        FillNone(o, terminals, members, FreshLock(o, client), w);
      }
      nextSeq := nextSeq + 1;
      lock := Lock(true, client, nextSeq);
      workspaceLocks := workspaceLocks[w := lock];
      for i := 0 to |terminals|
        invariant nextSeq == o.nextSeq + 1 && workspaceLocks == o.workspaces[w := lock]
          && surfaceToWorkspace == o.memberOf && deadClients == o.dead
        invariant surfaceLocks == Fill(terminals[..i], lock) + o.surfaces
      {
        OrInsert(terminals, i, lock, o.surfaces);
        if terminals[i] !in surfaceLocks { surfaceLocks := surfaceLocks[terminals[i] := lock]; }
      }
      assert terminals[..|terminals|] == terminals;
      for i := 0 to |members|
        invariant nextSeq == o.nextSeq + 1 && workspaceLocks == o.workspaces[w := lock] && deadClients == o.dead
        invariant surfaceLocks == Fill(terminals, lock) + o.surfaces
        invariant surfaceToWorkspace == o.memberOf + Fill(members[..i], w)
      {
        Insert(members, i, w, o.memberOf);
        surfaceToWorkspace := surfaceToWorkspace[members[i] := w];
      }
      assert members[..|members|] == members;
    }

    /** Afterwards nobody holds the workspace and nothing is listed as its member; the locks of its listed
        members are gone, whoever held them, and no other lock or listing is touched. */
    method ForceDetachWorkspaceOf(w: nat) returns (holder: Option<nat>)
      requires Valid()
      modifies this
      ensures Valid() && GrantStep(old(View()), View())
      ensures View() == ForceDetachWorkspace(old(View()), w)
      ensures holder == if w in old(workspaceLocks) then Some(old(workspaceLocks)[w].holder) else None
      ensures w !in workspaceLocks
      ensures forall v :: v != w ==> Kept(old(workspaceLocks), workspaceLocks, v)
      ensures holder.None? ==> View() == old(View())
      ensures holder.Some? ==> forall s :: s in surfaceToWorkspace ==> surfaceToWorkspace[s] != w
      ensures holder.Some? ==>
        forall s :: s in old(surfaceToWorkspace) && old(surfaceToWorkspace)[s] == w ==> s !in surfaceLocks
      ensures forall s :: s in old(surfaceToWorkspace) && old(surfaceToWorkspace)[s] != w ==>
        Kept(old(surfaceToWorkspace), surfaceToWorkspace, s)
      ensures forall s :: !(s in old(surfaceToWorkspace) && old(surfaceToWorkspace)[s] == w) ==>
        Kept(old(surfaceLocks), surfaceLocks, s)
    {
      hide GrantsOk, GrantStep;
      ApplyStep(View(), DoForceDetachWorkspace(w));
      if w !in workspaceLocks { return None; }
      holder := Some(workspaceLocks[w].holder);
      workspaceLocks := workspaceLocks - {w};
      var members := set s | s in surfaceToWorkspace && surfaceToWorkspace[s] == w;
      assert members == MembersOf(old(View()), {w});
      surfaceLocks := surfaceLocks - members;
      surfaceToWorkspace := surfaceToWorkspace - members;
    }
  }
}
