/** Who may acquire what, and which locks and listings an operation leaves, changes or takes away. */
module OccupancyEffects {
  import opened Wrappers
  import opened Occupancy

  // ---------------------------------------------------------------- giving everything up

  /** The listing of s belongs to a workspace that client holds. */
  predicate ListedUnder(o: Occ, s: nat, client: nat) {
    s in o.memberOf && o.memberOf[s] in o.workspaces && o.workspaces[o.memberOf[s]].holder == client
  }

  /** What s loses when client goes: its own lock, or the lock of whoever has it, if it is listed under client. */
  predicate FreedWith(o: Occ, s: nat, client: nat) {
    s in o.surfaces && (o.surfaces[s].holder == client || ListedUnder(o, s, client))
  }

  ghost predicate SameAt<V>(m: map<nat, V>, m': map<nat, V>, k: nat) {
    (k in m <==> k in m') && (k in m ==> m'[k] == m[k])
  }

  /** Exactly the workspaces of client, their listings, and the locks of client and of those listed are gone. */
  lemma ReleaseAllExactly(o: Occ, client: nat)
    ensures var o' := ReleaseAll(o, client);
      && o'.nextSeq == o.nextSeq && o'.dead == o.dead - {client}
      && (forall s :: if FreedWith(o, s, client) then s !in o'.surfaces else SameAt(o.surfaces, o'.surfaces, s))
      && (forall w :: if w in o.workspaces && o.workspaces[w].holder == client then w !in o'.workspaces
                      else SameAt(o.workspaces, o'.workspaces, w))
      && (forall s :: if ListedUnder(o, s, client) then s !in o'.memberOf else SameAt(o.memberOf, o'.memberOf, s))
  {}

  // ---------------------------------------------------------------- a surface

  /** A client that is not known to be gone holds the surface, and it is not this one. */
  predicate HeldAgainst(locks: map<nat, Lock>, dead: set<nat>, k: nat, client: nat) {
    k in locks && locks[k].holder != client && locks[k].holder !in dead
  }

  /** The registry once the holder of the key, which is gone, has been given up. */
  function Without(o: Occ, locks: map<nat, Lock>, k: nat): Occ {
    if k in locks then ReleaseAll(o, locks[k].holder) else o
  }

  /** A surface is refused exactly if a living other client holds it, and the refusal names that client. Who
      holds it already keeps the lock it has; anybody else gets a ready lock with the next number. Nothing
      else changes, but for what a holder that is gone had. */
  lemma AcquireExactly(o: Occ, s: nat, client: nat)
    ensures var (answer, o') := Acquire(o, s, client);
      && (answer.AlreadyAttached? <==> HeldAgainst(o.surfaces, o.dead, s, client))
      && (answer.AlreadyAttached? ==> answer.holder == o.surfaces[s].holder && o' == o)
      && (s in o.surfaces && o.surfaces[s].holder == client ==> answer == Granted(o.surfaces[s]) && o' == o)
      && (answer.Granted? ==> s in o'.surfaces && o'.surfaces[s] == answer.lock && answer.lock.holder == client)
      && (answer.Granted? && !(s in o.surfaces && o.surfaces[s].holder == client) ==>
            var o1 := Without(o, o.surfaces, s);
            && answer.lock == Lock(true, client, o.nextSeq + 1) && o'.nextSeq == o.nextSeq + 1
            && (forall t :: t != s ==> SameAt(o1.surfaces, o'.surfaces, t))
            && o'.workspaces == o1.workspaces && o'.memberOf == o1.memberOf && o'.dead == o1.dead)
  {
    hide ReleaseAll;
    if s in o.surfaces { ReleaseAllExactly(o, o.surfaces[s].holder); }
  }

  // ---------------------------------------------------------------- a workspace

  /** Nobody but clients that are gone loses a lock, a workspace or a listing. */
  ghost predicate OnlyDeadLose(o: Occ, o': Occ) {
    && (forall s :: s in o.surfaces && (forall d :: d in o.dead ==> !FreedWith(o, s, d)) ==>
          s in o'.surfaces && o'.surfaces[s] == o.surfaces[s])
    && (forall w :: w in o.workspaces && o.workspaces[w].holder !in o.dead ==>
          w in o'.workspaces && o'.workspaces[w] == o.workspaces[w])
    && o'.dead <= o.dead
  }

  /** The part of o that is left in o'. */
  ghost predicate LeftOf(o: Occ, o': Occ) {
    && (forall s :: s in o'.surfaces ==> s in o.surfaces && o'.surfaces[s] == o.surfaces[s])
    && (forall w :: w in o'.workspaces ==> w in o.workspaces && o'.workspaces[w] == o.workspaces[w])
    && (forall s :: s in o'.memberOf ==> s in o.memberOf && o'.memberOf[s] == o.memberOf[s])
    && o'.nextSeq == o.nextSeq
  }

  lemma EvictionTakesFromDead(o: Occ, d: nat)
    requires d in o.dead
    ensures OnlyDeadLose(o, ReleaseAll(o, d)) && LeftOf(o, ReleaseAll(o, d))
  {
    hide ReleaseAll;
    ReleaseAllExactly(o, d);
  }

  lemma LosesTwice(o: Occ, o1: Occ, o2: Occ)
    requires OnlyDeadLose(o, o1) && LeftOf(o, o1) && OnlyDeadLose(o1, o2) && LeftOf(o1, o2)
    ensures OnlyDeadLose(o, o2) && LeftOf(o, o2)
  {
    forall s | s in o.surfaces && (forall d :: d in o.dead ==> !FreedWith(o, s, d))
      ensures s in o2.surfaces && o2.surfaces[s] == o.surfaces[s]
    {
      assert s in o1.surfaces;
      forall d | d in o1.dead ensures !FreedWith(o1, s, d) { assert !FreedWith(o, s, d); }
    }
  }

  lemma NothingLost(o: Occ)
    ensures OnlyDeadLose(o, o) && LeftOf(o, o)
  {}

  /** Looking through the terminals stops at the first living other holder, and only the dead lose anything. */
  lemma {:induction false} ClearExactly(o: Occ, terminals: seq<nat>, client: nat)
    ensures var (busy, o') := ClearTerminals(o, terminals, client);
      && OnlyDeadLose(o, o') && LeftOf(o, o')
      && (busy.None? ==> forall s :: s in terminals && s in o'.surfaces ==> o'.surfaces[s].holder == client)
      && (busy.Some? ==> exists s :: s in terminals && HeldAgainst(o.surfaces, o.dead, s, client)
                                     && o.surfaces[s].holder == busy.value)
    decreases |terminals|
  {
    hide ReleaseAll, OnlyDeadLose, LeftOf;
    NothingLost(o);
    if terminals != [] {
      var s := terminals[0];
      ClearTerminalsFewer(o, terminals, client);
      var evicts := s in o.surfaces && o.surfaces[s].holder != client && o.surfaces[s].holder in o.dead;
      var o1 := if evicts then ReleaseAll(o, o.surfaces[s].holder) else o;
      if evicts { EvictionTakesFromDead(o, o.surfaces[s].holder); }
      ClearExactly(o1, terminals[1..], client);
      var r := ClearTerminals(o1, terminals[1..], client);
      LosesTwice(o, o1, r.1);
      if r.0.Some? {
        var t :| t in terminals[1..] && HeldAgainst(o1.surfaces, o1.dead, t, client)
          && o1.surfaces[t].holder == r.0.value;
        HeldBefore(o, o1, s, t, client);
        assert t in terminals;
      }
    }
  }

  /** A holder that is living after an eviction was living before, unless it is the one evicted. */
  lemma HeldBefore(o: Occ, o1: Occ, s: nat, t: nat, client: nat)
    requires HeldAgainst(o1.surfaces, o1.dead, t, client) && LeftOf(o, o1)
    requires o1 == o || (s in o.surfaces && o1 == ReleaseAll(o, o.surfaces[s].holder))
    ensures HeldAgainst(o.surfaces, o.dead, t, client) && o.surfaces[t].holder == o1.surfaces[t].holder
  {}

  // ---- which clients are given up on the way

  predicate ListedUnderAny(o: Occ, s: nat, gone: set<nat>) {
    s in o.memberOf && o.memberOf[s] in o.workspaces && o.workspaces[o.memberOf[s]].holder in gone
  }

  predicate FreedWithAny(o: Occ, s: nat, gone: set<nat>) {
    s in o.surfaces && (o.surfaces[s].holder in gone || ListedUnderAny(o, s, gone))
  }

  /** What is left of o once these clients have been given up. */
  ghost predicate Evicts(o: Occ, o': Occ, gone: set<nat>) {
    && gone <= o.dead && o'.dead == o.dead - gone
    && (forall s :: if FreedWithAny(o, s, gone) then s !in o'.surfaces else SameAt(o.surfaces, o'.surfaces, s))
    && (forall w :: if w in o.workspaces && o.workspaces[w].holder in gone then w !in o'.workspaces
                    else SameAt(o.workspaces, o'.workspaces, w))
    && (forall s :: if ListedUnderAny(o, s, gone) then s !in o'.memberOf else SameAt(o.memberOf, o'.memberOf, s))
  }

  lemma GoneOrOne(o: Occ, gone: set<nat>, d: nat)
    ensures forall s :: ListedUnderAny(o, s, gone + {d}) <==> ListedUnderAny(o, s, gone) || ListedUnder(o, s, d)
    ensures forall s :: FreedWithAny(o, s, gone + {d}) <==> FreedWithAny(o, s, gone) || FreedWith(o, s, d)
  {}

  lemma LostNow(o: Occ, o1: Occ, gone: set<nat>, d: nat, s: nat)
    requires Evicts(o, o1, gone) && d !in gone
    ensures ListedUnder(o1, s, d) <==> ListedUnder(o, s, d)
    ensures FreedWith(o1, s, d) <==> FreedWith(o, s, d) && !FreedWithAny(o, s, gone)
  {
    assert ListedUnderAny(o, s, gone) || SameAt(o.memberOf, o1.memberOf, s);
    assert FreedWithAny(o, s, gone) || SameAt(o.surfaces, o1.surfaces, s);
    if s in o.memberOf {
      var w := o.memberOf[s];
      assert (w in o.workspaces && o.workspaces[w].holder in gone) || SameAt(o.workspaces, o1.workspaces, w);
    }
  }

  lemma OneMoreEvicted(o: Occ, o1: Occ, gone: set<nat>, d: nat)
    requires Evicts(o, o1, gone) && d in o1.dead
    ensures Evicts(o, ReleaseAll(o1, d), gone + {d})
  {
    var o2 := ReleaseAll(o1, d);
    ReleaseAllExactly(o1, d);
    GoneOrOne(o, gone, d);
    forall s ensures (ListedUnder(o1, s, d) <==> ListedUnder(o, s, d))
                     && (FreedWith(o1, s, d) <==> FreedWith(o, s, d) && !FreedWithAny(o, s, gone)) {
      LostNow(o, o1, gone, d, s);
    }
    hide ReleaseAll, ListedUnder, FreedWith, ListedUnderAny, FreedWithAny;
    forall s ensures if FreedWithAny(o, s, gone + {d}) then s !in o2.surfaces
                     else SameAt(o.surfaces, o2.surfaces, s) {
      assert FreedWithAny(o, s, gone) || SameAt(o.surfaces, o1.surfaces, s);
    }
    forall s ensures if ListedUnderAny(o, s, gone + {d}) then s !in o2.memberOf
                     else SameAt(o.memberOf, o2.memberOf, s) {
      assert ListedUnderAny(o, s, gone) || SameAt(o.memberOf, o1.memberOf, s);
    }
    forall w ensures if w in o.workspaces && o.workspaces[w].holder in gone + {d} then w !in o2.workspaces
                     else SameAt(o.workspaces, o2.workspaces, w) {
      assert (w in o.workspaces && o.workspaces[w].holder in gone) || SameAt(o.workspaces, o1.workspaces, w);
    }
  }

  /** Who has been given up before terminal i is looked at: the gone holders of the terminals before it, but for
      those whose terminal had been freed with somebody else by then. */
  function Evicted(o: Occ, gone: set<nat>, terminals: seq<nat>, client: nat, i: nat): set<nat>
    requires i <= |terminals|
  {
    if i == 0 then gone
    else WithHolder(o, Evicted(o, gone, terminals, client, i - 1), terminals[i - 1], client)
  }

  function WithHolder(o: Occ, gone: set<nat>, s: nat, client: nat): set<nat> {
    if s in o.surfaces && o.surfaces[s].holder in o.dead - {client} && !FreedWithAny(o, s, gone)
    then gone + {o.surfaces[s].holder}
    else gone
  }

  lemma {:induction false} EvictedFromNext(o: Occ, gone: set<nat>, terminals: seq<nat>, client: nat, i: nat)
    requires i < |terminals|
    ensures Evicted(o, gone, terminals, client, i + 1)
      == Evicted(o, WithHolder(o, gone, terminals[0], client), terminals[1..], client, i)
  {
    hide WithHolder;
    if i > 0 {
      EvictedFromNext(o, gone, terminals, client, i - 1);
    } else {
      assert Evicted(o, gone, terminals, client, 0) == gone;
    }
  }

  /** A living other client has the terminal, and it has not been freed with a client that is gone. */
  predicate StandsAgainst(o: Occ, s: nat, gone: set<nat>, client: nat) {
    HeldAgainst(o.surfaces, o.dead, s, client) && !ListedUnderAny(o, s, gone)
  }

  /** At its turn no terminal stands against the client. */
  ghost predicate NoneStands(o: Occ, gone: set<nat>, terminals: seq<nat>, client: nat) {
    forall i: nat :: i < |terminals| ==> FreeAt(o, gone, terminals, client, i)
  }

  ghost predicate FreeAt(o: Occ, gone: set<nat>, terminals: seq<nat>, client: nat, i: nat)
    requires i < |terminals|
  {
    !StandsAgainst(o, terminals[i], Evicted(o, gone, terminals, client, i), client)
  }

  lemma NoneStandsLater(o: Occ, gone: set<nat>, terminals: seq<nat>, client: nat)
    requires terminals != []
    ensures NoneStands(o, gone, terminals, client) <==>
              !StandsAgainst(o, terminals[0], gone, client)
              && NoneStands(o, WithHolder(o, gone, terminals[0], client), terminals[1..], client)
  {
    hide StandsAgainst, WithHolder;
    var next := WithHolder(o, gone, terminals[0], client);
    assert Evicted(o, gone, terminals, client, 0) == gone;
    forall i: nat | i < |terminals| - 1
      ensures FreeAt(o, gone, terminals, client, i + 1) <==> FreeAt(o, next, terminals[1..], client, i)
    {
      EvictedFromNext(o, gone, terminals, client, i);
    }
    if NoneStands(o, gone, terminals, client) {
      assert FreeAt(o, gone, terminals, client, 0);
      forall i: nat | i < |terminals| - 1 ensures FreeAt(o, next, terminals[1..], client, i) {
        assert FreeAt(o, gone, terminals, client, i + 1);
      }
    }
    if !StandsAgainst(o, terminals[0], gone, client) && NoneStands(o, next, terminals[1..], client) {
      forall i: nat | i < |terminals| ensures FreeAt(o, gone, terminals, client, i) {
        if i > 0 { assert FreeAt(o, next, terminals[1..], client, i - 1); }
      }
    }
  }

  /** The way is clear exactly if no terminal stands against the client at its turn. */
  lemma {:induction false} ClearInTurn(o: Occ, o1: Occ, gone: set<nat>, terminals: seq<nat>, client: nat)
    requires Evicts(o, o1, gone)
    ensures ClearTerminals(o1, terminals, client).0.None? <==> NoneStands(o, gone, terminals, client)
    decreases |terminals|
  {
    hide ReleaseAll, FreedWithAny, ListedUnderAny, NoneStands;
    if terminals == [] {
      NothingStands(o, gone, client);
    } else {
      var s := terminals[0];
      NoneStandsLater(o, gone, terminals, client);
      assert FreedWithAny(o, s, gone) || SameAt(o.surfaces, o1.surfaces, s);
      SameTurn(o, s, gone, client);
      var evicts := s in o1.surfaces && o1.surfaces[s].holder != client && o1.surfaces[s].holder in o1.dead;
      if evicts {
        OneMoreEvicted(o, o1, gone, o1.surfaces[s].holder);
        ClearInTurn(o, ReleaseAll(o1, o1.surfaces[s].holder), gone + {o1.surfaces[s].holder}, terminals[1..], client);
      } else {
        ClearInTurn(o, o1, gone, terminals[1..], client);
      }
    }
  }

  lemma NothingStands(o: Occ, gone: set<nat>, client: nat)
    ensures NoneStands(o, gone, [], client)
  {}

  lemma SameTurn(o: Occ, s: nat, gone: set<nat>, client: nat)
    requires gone <= o.dead
    ensures StandsAgainst(o, s, gone, client) <==>
              !FreedWithAny(o, s, gone) && HeldAgainst(o.surfaces, o.dead, s, client)
    ensures s in o.surfaces && !FreedWithAny(o, s, gone) ==> o.surfaces[s].holder !in gone
  {}

  /** A workspace is granted exactly if the client has it, or no living other client has it and no terminal stands
      against the client at its turn; a refusal names a living other holder. A grant covers the workspace and
      every terminal, lists every member, and takes nothing from anybody but with a client that is gone. */
  lemma AcquireWorkspaceExactly(o: Occ, w: nat, terminals: seq<nat>, members: seq<nat>, client: nat)
    ensures var (answer, o') := AcquireWorkspace(o, w, terminals, members, client);
      var mine := w in o.workspaces && o.workspaces[w].holder == client;
      var o1 := Without(o, o.workspaces, w);
      && (mine ==> answer == Granted(o.workspaces[w]) && o' == o)
      && (HeldAgainst(o.workspaces, o.dead, w, client) ==>
            answer == AlreadyAttached(o.workspaces[w].holder) && o' == o)
      && (!mine && answer.AlreadyAttached? && !HeldAgainst(o.workspaces, o.dead, w, client) ==>
            exists s :: s in terminals && HeldAgainst(o1.surfaces, o1.dead, s, client)
                        && o1.surfaces[s].holder == answer.holder)
      && (answer.Granted? <==>
            mine || (!HeldAgainst(o.workspaces, o.dead, w, client) && NoneStands(o1, {}, terminals, client)))
      && (!mine && answer.Granted? ==>
            && answer.lock == Lock(true, client, o.nextSeq + 1) && o'.nextSeq == o.nextSeq + 1
            && Covers(o', w, terminals, members, answer.lock) && OthersAsBefore(o, o', w, terminals, members, client))
  {
    hide ReleaseAll, ClearTerminals, OnlyDeadLose, LeftOf, GrantWorkspace, NoneStands, Evicts;
    var mine := w in o.workspaces && o.workspaces[w].holder == client;
    if !mine && !HeldAgainst(o.workspaces, o.dead, w, client) {
      var o1 := Without(o, o.workspaces, w);
      NothingLost(o);
      if w in o.workspaces { EvictionTakesFromDead(o, o.workspaces[w].holder); }
      ClearExactly(o1, terminals, client);
      var (busy, o2) := ClearTerminals(o1, terminals, client);
      LosesTwice(o, o1, o2);
      NothingEvicted(o1);
      ClearInTurn(o1, o1, {}, terminals, client);
      if busy.None? { GrantedExactly(o, o2, w, terminals, members, client); }
    }
  }

  lemma NothingEvicted(o: Occ)
    ensures Evicts(o, o, {})
  {}

  ghost predicate Covers(o: Occ, w: nat, terminals: seq<nat>, members: seq<nat>, lock: Lock) {
    && w in o.workspaces && o.workspaces[w] == lock
    && (forall s :: s in terminals ==> s in o.surfaces && o.surfaces[s].holder == lock.holder)
    && (forall s :: s in members ==> s in o.memberOf && o.memberOf[s] == w)
  }

  /** Apart from what the dead lose, only the workspace, its free terminals and its listings are new. */
  ghost predicate OthersAsBefore(o: Occ, o': Occ, w: nat, terminals: seq<nat>, members: seq<nat>, client: nat) {
    && (forall s :: s in o.surfaces && (forall d :: d in o.dead ==> !FreedWith(o, s, d)) ==>
          s in o'.surfaces && o'.surfaces[s] == o.surfaces[s])
    && w in o'.workspaces
    && (forall s :: s in o'.surfaces && !(s in o.surfaces && o'.surfaces[s] == o.surfaces[s]) ==>
          s in terminals && o'.surfaces[s] == o'.workspaces[w])
    && (forall v :: v in o.workspaces && v != w && o.workspaces[v].holder !in o.dead ==>
          v in o'.workspaces && o'.workspaces[v] == o.workspaces[v])
    && (forall v :: v in o'.workspaces && v != w ==> v in o.workspaces && o'.workspaces[v] == o.workspaces[v])
    && (forall s :: s in o'.memberOf && s !in members ==> s in o.memberOf && o'.memberOf[s] == o.memberOf[s])
  }

  lemma GrantedExactly(o: Occ, o2: Occ, w: nat, terminals: seq<nat>, members: seq<nat>, client: nat)
    requires OnlyDeadLose(o, o2) && LeftOf(o, o2)
    requires forall s :: s in terminals && s in o2.surfaces ==> o2.surfaces[s].holder == client
    ensures var o' := GrantWorkspace(o2, w, terminals, members, client);
      var lock := FreshLock(o2, client);
      && o'.nextSeq == o2.nextSeq + 1 && w in o'.workspaces
      && Covers(o', w, terminals, members, lock) && OthersAsBefore(o, o', w, terminals, members, client)
  {
    var o' := GrantWorkspace(o2, w, terminals, members, client);
    var lock := FreshLock(o2, client);
    assert o'.workspaces == o2.workspaces[w := lock];
    assert forall s :: s in o'.surfaces <==> s in o2.surfaces || s in terminals;
    assert forall s :: s in o2.surfaces ==> o'.surfaces[s] == o2.surfaces[s];
    assert forall s :: s in terminals && s !in o2.surfaces ==> o'.surfaces[s] == lock;
    assert forall s :: s in members ==> s in o'.memberOf && o'.memberOf[s] == w;
  }

  // ---------------------------------------------------------------- members

  /** A surface that joins a workspace somebody holds is listed there from now on; a terminal nobody has locked
      takes over the lock of the workspace, and no lock is ever replaced. */
  lemma AddMemberExactly(o: Occ, w: nat, s: nat, terminal: bool)
    ensures var o' := AddMember(o, w, s, terminal);
      && (w !in o.workspaces ==> o' == o)
      && (w in o.workspaces ==>
            && s in o'.memberOf && o'.memberOf[s] == w && (forall t :: t != s ==> SameAt(o.memberOf, o'.memberOf, t))
            && (forall t :: t in o.surfaces || t != s || !terminal ==> SameAt(o.surfaces, o'.surfaces, t))
            && (terminal && s !in o.surfaces ==> s in o'.surfaces && o'.surfaces[s] == o.workspaces[w])
            && o'.workspaces == o.workspaces && o'.nextSeq == o.nextSeq && o'.dead == o.dead)
  {}

  /** Exactly the locks of that client and that grant change their readiness, and nothing else about them. */
  lemma SetReadyExactly(o: Occ, client: nat, grant: nat, ready: bool)
    ensures var o' := SetReady(o, client, grant, ready);
      && (forall s :: s in o.surfaces && o.surfaces[s].holder == client && o.surfaces[s].grant == grant ==>
            s in o'.surfaces && o'.surfaces[s] == Lock(ready, client, grant))
      && (forall w :: w in o.workspaces && o.workspaces[w].holder == client && o.workspaces[w].grant == grant ==>
            w in o'.workspaces && o'.workspaces[w] == Lock(ready, client, grant))
      && (forall s :: !(s in o.surfaces && o.surfaces[s].holder == client && o.surfaces[s].grant == grant) ==>
            SameAt(o.surfaces, o'.surfaces, s))
      && (forall w :: !(w in o.workspaces && o.workspaces[w].holder == client && o.workspaces[w].grant == grant) ==>
            SameAt(o.workspaces, o'.workspaces, w))
      && o'.memberOf == o.memberOf && o'.nextSeq == o.nextSeq && o'.dead == o.dead
  {}

  // ---------------------------------------------------------------- giving one thing up

  /** A surface is released only by its holder; detaching and closing ask nobody. Only closing ends its listing. */
  lemma SurfaceGivenUp(o: Occ, s: nat, client: nat)
    ensures var released, detached, closed := Release(o, s, client), ForceDetach(o, s), ForgetClosedSurface(o, s);
      && (s in released.surfaces <==> s in o.surfaces && o.surfaces[s].holder != client)
      && (s in released.surfaces ==> released.surfaces[s] == o.surfaces[s])
      && s !in detached.surfaces && s !in closed.surfaces && s !in closed.memberOf
      && released.memberOf == o.memberOf && detached.memberOf == o.memberOf
      && (forall t :: t != s ==> SameAt(o.memberOf, closed.memberOf, t))
      && (forall o' :: o' in {released, detached, closed} ==>
            && o'.workspaces == o.workspaces && o'.nextSeq == o.nextSeq && o'.dead == o.dead
            && forall t :: t != s ==> SameAt(o.surfaces, o'.surfaces, t))
  {}

  /** Once clients are known to be gone, whoever asks gets what they held, and still not what others hold. */
  lemma GoneMakeWay(o: Occ, clients: set<nat>, s: nat, client: nat)
    ensures Acquire(MarkDead(o, clients), s, client).0.Granted? <==>
              s !in o.surfaces || o.surfaces[s].holder == client || o.surfaces[s].holder in o.dead + clients
  {
    hide ReleaseAll;
    AcquireExactly(MarkDead(o, clients), s, client);
  }

  /** A living client's lock on s. */
  predicate LivingLock(o: Occ, s: nat) { s in o.surfaces && o.surfaces[s].holder !in o.dead }

  ghost predicate LosesLivingLock(o: Occ, o': Occ) { exists s :: LivingLock(o, s) && s !in o'.surfaces }

  /** Giving up a client that is gone takes a living client's lock away exactly if that is on a surface listed in a
      workspace of the client that is gone. */
  lemma GoneTakesLivingLock(o: Occ, d: nat)
    requires d in o.dead
    ensures LosesLivingLock(o, ReleaseAll(o, d)) <==> exists s :: LivingLock(o, s) && ListedUnder(o, s, d)
  {
    hide ReleaseAll, ListedUnder;
    ReleaseAllExactly(o, d);
    if s :| LivingLock(o, s) && ListedUnder(o, s, d) { assert FreedWith(o, s, d); }
  }

  /** Displaying takes a number too, so the next lock skips it; it locks nothing. */
  lemma DisplayTakesANumber(o: Occ, s: nat, client: nat)
    ensures var soft := AcquireSoft(o);
      && soft.surfaces == o.surfaces && soft.workspaces == o.workspaces && soft.memberOf == o.memberOf
      && (s !in o.surfaces ==> Acquire(soft, s, client).0 == Granted(Lock(true, client, o.nextSeq + 2)))
  {
    hide ReleaseAll;
    AcquireExactly(AcquireSoft(o), s, client);
  }
}
