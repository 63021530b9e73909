/** The one table of engines, and the relation each of them is in: shown in a window, parked, waiting
    for a window, or retiring. */
module Engines {
  import opened Wrappers

  datatype Retiring = Discard | Releasing | Preserve(navigation: int, checkpoint: Option<nat>)

  /** A parked engine with the view to restore. stamp counts the parks before it and orders them. */
  datatype Parked = Parked(engine: nat, view: int, stamp: nat)

  datatype Registry = Registry(
    sessions: set<nat>, byWindow: map<nat, nat>, parked: seq<Parked>, pending: Option<nat>,
    retiring: map<nat, Retiring>, parks: nat)

  const EMPTY := Registry({}, map[], [], None, map[], 0)

  // ---------------------------------------------------------------- transitions

  function InsertPending(r: Registry, id: nat): Registry {
    if r.pending.Some? then r else r.(sessions := r.sessions + {id}, pending := Some(id))
  }

  function BeginRetiringPending(r: Registry, id: nat): Registry {
    if r.pending != Some(id) then r else r.(pending := None, retiring := r.retiring[id := Discard])
  }

  function Without(ps: seq<Parked>, id: nat): (q: seq<Parked>) {
    if ps == [] then []
    else Without(ps[..|ps| - 1], id) + if ps[|ps| - 1].engine == id then [] else [ps[|ps| - 1]]
  }

  function AttachWindow(r: Registry, w: nat, id: nat): Registry {
    r.(pending := if r.pending == Some(id) then None else r.pending,
       parked := Without(r.parked, id), byWindow := r.byWindow[w := id])
  }

  function Park(r: Registry, w: nat, view: int): Registry {
    if w !in r.byWindow then r
    else r.(byWindow := r.byWindow - {w}, parked := r.parked + [Parked(r.byWindow[w], view, r.parks)],
      parks := r.parks + 1)
  }

  function UnparkFirst(r: Registry): Registry {
    if r.pending.Some? || r.parked == [] then r
    else r.(parked := r.parked[1..], pending := Some(r.parked[0].engine))
  }

  function RetireWindow(r: Registry, w: nat, how: Retiring): Registry {
    if w !in r.byWindow then r
    else r.(byWindow := r.byWindow - {w}, retiring := r.retiring[r.byWindow[w] := how])
  }

  function MarkRelease(r: Registry, id: nat): Registry {
    if id in r.retiring then r.(retiring := r.retiring[id := Releasing]) else r
  }

  function MarkCheckpoint(r: Registry, id: nat, sequence: nat): Registry {
    if id in r.retiring && r.retiring[id].Preserve?
    then r.(retiring := r.retiring[id := r.retiring[id].(checkpoint := Some(sequence))]) else r
  }

  function FinishRetiring(r: Registry, id: nat): Registry {
    if id in r.retiring then r.(retiring := r.retiring - {id}, sessions := r.sessions - {id}) else r
  }

  // ---------------------------------------------------------------- the partition

  ghost function Windowed(r: Registry): set<nat> { r.byWindow.Values }
  ghost function ParkedIds(ps: seq<Parked>): set<nat> { set i | 0 <= i < |ps| :: ps[i].engine }
  ghost function PendingIds(r: Registry): set<nat> { if r.pending.Some? then {r.pending.value} else {} }

  ghost predicate InOrder(ps: seq<Parked>) { forall i, j :: 0 <= i < j < |ps| ==> ps[i].stamp < ps[j].stamp }

  /** Every session is in exactly one relation, once. */
  ghost predicate Partition(r: Registry) {
    && (forall v, w :: v in r.byWindow && w in r.byWindow && r.byWindow[v] == r.byWindow[w] ==> v == w)
    && DistinctEngines(r.parked)
    && Windowed(r) !! ParkedIds(r.parked) !! PendingIds(r) !! r.retiring.Keys
    && r.sessions == Windowed(r) + ParkedIds(r.parked) + PendingIds(r) + r.retiring.Keys
  }

  /** Parked views wait in the order they were parked. */
  ghost predicate Fifo(r: Registry) {
    InOrder(r.parked) && forall i :: 0 <= i < |r.parked| ==> r.parked[i].stamp < r.parks
  }

  lemma ParkedMore(ps: seq<Parked>, p: Parked)
    ensures ParkedIds(ps + [p]) == ParkedIds(ps) + {p.engine}
  {
    var all := ps + [p];
    assert all[|ps|] == p;
    forall x | x in ParkedIds(ps) ensures x in ParkedIds(all) {
      var i :| 0 <= i < |ps| && ps[i].engine == x;
      assert all[i].engine == x;
    }
  }

  ghost predicate DistinctEngines(ps: seq<Parked>) { forall i, j :: 0 <= i < j < |ps| ==> ps[i].engine != ps[j].engine }

  lemma WithoutIds(ps: seq<Parked>, id: nat)
    requires DistinctEngines(ps)
    ensures var q := Without(ps, id);
      ParkedIds(q) == ParkedIds(ps) - {id} && DistinctEngines(q) && (id !in ParkedIds(ps) ==> q == ps)
  {
    hide ParkedIds, DistinctEngines;
    WithoutSet(ps, id);
    WithoutDistinct(ps, id);
    WithoutNone(ps, id);
  }

  lemma {:induction false} WithoutSet(ps: seq<Parked>, id: nat)
    ensures ParkedIds(Without(ps, id)) == ParkedIds(ps) - {id}
  {
    if ps == [] {
      assert ParkedIds(ps) == {};
    } else {
      hide ParkedIds;
      var init, last := ps[..|ps| - 1], ps[|ps| - 1];
      WithoutSet(init, id);
      assert ps == init + [last];
      ParkedMore(init, last);
      if last.engine != id {
        ParkedMore(Without(init, id), last);
      } else {
        assert Without(init, id) + [] == Without(init, id);
      }
    }
  }

  lemma {:induction false} WithoutDistinct(ps: seq<Parked>, id: nat)
    requires DistinctEngines(ps)
    ensures DistinctEngines(Without(ps, id)) && forall p :: p in Without(ps, id) ==> p in ps
  {
    if ps != [] {
      var init, last := ps[..|ps| - 1], ps[|ps| - 1];
      WithoutDistinct(init, id);
      var q := Without(init, id);
      forall i | 0 <= i < |q| ensures q[i].engine != last.engine {
        assert q[i] in q && q[i] in init;
        var j :| 0 <= j < |init| && init[j] == q[i];
        assert ps[j] == init[j];
      }
    }
  }

  lemma {:induction false} WithoutNone(ps: seq<Parked>, id: nat)
    ensures id !in ParkedIds(ps) ==> Without(ps, id) == ps
  {
    if ps != [] {
      hide ParkedIds;
      var init, last := ps[..|ps| - 1], ps[|ps| - 1];
      WithoutNone(init, id);
      assert ps == init + [last];
      ParkedMore(init, last);
    }
  }

  lemma {:induction false} WithoutInOrder(ps: seq<Parked>, id: nat)
    requires InOrder(ps)
    ensures InOrder(Without(ps, id)) && forall i :: 0 <= i < |Without(ps, id)| ==> Without(ps, id)[i] in ps
  {
    if ps != [] { WithoutInOrder(ps[..|ps| - 1], id); }
  }

  lemma RemoveWindow(m: map<nat, nat>, w: nat)
    requires w in m && forall v, u :: v in m && u in m && m[v] == m[u] ==> v == u
    ensures (m - {w}).Values == m.Values - {m[w]}
  {
    forall x | x in m.Values - {m[w]} ensures x in (m - {w}).Values {
      var v :| v in m && m[v] == x;
      assert v in m - {w};
    }
  }

  lemma SetWindow(m: map<nat, nat>, w: nat, id: nat)
    requires w !in m
    ensures m[w := id].Values == m.Values + {id}
  {
    assert w in m[w := id];
    forall x | x in m.Values ensures x in m[w := id].Values {
      var v :| v in m && m[v] == x;
      assert v in m[w := id] && m[w := id][v] == x;
    }
  }

  /** A new engine keeps the partition exactly when its id is new. */
  lemma InsertPendingExact(r: Registry, id: nat)
    requires Partition(r) && r.pending.None?
    ensures Partition(InsertPending(r, id)) <==> id !in r.sessions
  {
    var r' := InsertPending(r, id);
    assert Windowed(r') == Windowed(r);
    if id in r.sessions { assert id in PendingIds(r'); }
  }

  /** Attaching an engine to a window keeps the partition exactly when the engine was waiting or parked
      and the window was free, or when the window shows that engine already. */
  lemma AttachWindowExact(r: Registry, w: nat, id: nat)
    requires Partition(r)
    ensures Partition(AttachWindow(r, w, id)) <==>
              (w !in r.byWindow && (r.pending == Some(id) || id in ParkedIds(r.parked)))
                || (w in r.byWindow && r.byWindow[w] == id)
  {
    var r' := AttachWindow(r, w, id);
    WithoutIds(r.parked, id);
    if w !in r.byWindow {
      SetWindow(r.byWindow, w, id);
      if r.pending == Some(id) || id in ParkedIds(r.parked) { Attached(r, w, id); }
      else if id in Windowed(r) {
        var v :| v in r.byWindow && r.byWindow[v] == id;
        assert v in r'.byWindow && v != w && r'.byWindow[v] == r'.byWindow[w];
      } else {
        assert id in Windowed(r') && r'.retiring == r.retiring && r'.sessions == r.sessions;
      }
    } else if r.byWindow[w] == id {
      assert r'.byWindow == r.byWindow;
      assert id in Windowed(r);
    } else {
      LostFromWindow(r, w, id);
    }
  }

  lemma LostFromWindow(r: Registry, w: nat, id: nat)
    requires Partition(r) && w in r.byWindow && r.byWindow[w] != id
    ensures !Partition(AttachWindow(r, w, id))
  {
    var r', lost := AttachWindow(r, w, id), r.byWindow[w];
    WithoutIds(r.parked, id);
    assert lost in Windowed(r) && lost in r'.sessions;
    forall v | v in r'.byWindow ensures r'.byWindow[v] != lost {
      if v != w { assert v in r.byWindow && r.byWindow[v] != r.byWindow[w]; }
    }
    assert lost !in Windowed(r') && lost !in ParkedIds(r'.parked) && lost !in PendingIds(r')
      && lost !in r'.retiring.Keys;
  }

  lemma Attached(r: Registry, w: nat, id: nat)
    requires Partition(r) && w !in r.byWindow && (r.pending == Some(id) || id in ParkedIds(r.parked))
    ensures Partition(AttachWindow(r, w, id))
  {
    var r' := AttachWindow(r, w, id);
    WithoutIds(r.parked, id);
    SetWindow(r.byWindow, w, id);
    assert Windowed(r') == Windowed(r) + {id};
    assert PendingIds(r') == PendingIds(r) - {id};
    assert id !in Windowed(r);
    forall v | v in r.byWindow ensures r.byWindow[v] != id { assert r.byWindow[v] in Windowed(r); }
  }

  lemma ParkKeeps(r: Registry, w: nat, view: int)
    requires Partition(r)
    ensures Partition(Park(r, w, view)) && Park(r, w, view).sessions == r.sessions
  {
    if w in r.byWindow {
      var r' := Park(r, w, view);
      RemoveWindow(r.byWindow, w);
      assert r.byWindow[w] in Windowed(r);
      ParkedMore(r.parked, Parked(r.byWindow[w], view, r.parks));
    }
  }

  lemma UnparkKeeps(r: Registry)
    requires Partition(r)
    ensures Partition(UnparkFirst(r)) && UnparkFirst(r).sessions == r.sessions
  {
    if r.pending.None? && r.parked != [] {
      var r' := UnparkFirst(r);
      assert r.parked == [r.parked[0]] + r.parked[1..];
      forall x | x in ParkedIds(r.parked) ensures x == r.parked[0].engine || x in ParkedIds(r.parked[1..]) {
        var i :| 0 <= i < |r.parked| && r.parked[i].engine == x;
        if i > 0 { assert r.parked[1..][i - 1].engine == x; }
      }
      assert ParkedIds(r.parked) == {r.parked[0].engine} + ParkedIds(r.parked[1..]);
      assert r.parked[0].engine !in ParkedIds(r.parked[1..]);
      assert Windowed(r') == Windowed(r);
    }
  }

  lemma RetireWindowKeeps(r: Registry, w: nat, how: Retiring)
    requires Partition(r)
    ensures Partition(RetireWindow(r, w, how)) && RetireWindow(r, w, how).sessions == r.sessions
  {
    if w in r.byWindow {
      RemoveWindow(r.byWindow, w);
      assert r.byWindow[w] in Windowed(r);
    }
  }

  lemma RetirementKeeps(r: Registry, id: nat, sequence: nat)
    requires Partition(r)
    ensures Partition(BeginRetiringPending(r, id)) && Partition(MarkRelease(r, id))
    ensures Partition(MarkCheckpoint(r, id, sequence)) && Partition(FinishRetiring(r, id))
    ensures FinishRetiring(r, id).sessions == r.sessions - (if id in r.retiring then {id} else {})
  {
    assert MarkRelease(r, id).retiring.Keys == r.retiring.Keys;
    assert MarkCheckpoint(r, id, sequence).retiring.Keys == r.retiring.Keys;
    assert Windowed(BeginRetiringPending(r, id)) == Windowed(r);
    assert FinishRetiring(r, id).retiring.Keys == r.retiring.Keys - {id};
  }

  // ---------------------------------------------------------------- whole runs

  datatype Event =
    | DoInsert(id: nat)
    | DoRetirePending(id: nat)
    | DoAttach(w: nat, id: nat)
    | DoPark(w: nat, view: int)
    | DoUnpark
    | DoRetireWindow(w: nat, how: Retiring)
    | DoMarkRelease(id: nat)
    | DoMarkCheckpoint(id: nat, sequence: nat)
    | DoFinish(id: nat)

  /** What callers keep to: ids are new, windows are free, and a window receives an engine that waits or
      is parked. */
  ghost predicate Allowed(r: Registry, e: Event) {
    match e
    case DoInsert(id) => id !in r.sessions
    case DoAttach(w, id) => w !in r.byWindow && (r.pending == Some(id) || id in ParkedIds(r.parked))
    case _ => true
  }

  function Step(r: Registry, e: Event): Registry {
    match e
    case DoInsert(id) => InsertPending(r, id)
    case DoRetirePending(id) => BeginRetiringPending(r, id)
    case DoAttach(w, id) => AttachWindow(r, w, id)
    case DoPark(w, view) => Park(r, w, view)
    case DoUnpark => UnparkFirst(r)
    case DoRetireWindow(w, how) => RetireWindow(r, w, how)
    case DoMarkRelease(id) => MarkRelease(r, id)
    case DoMarkCheckpoint(id, sequence) => MarkCheckpoint(r, id, sequence)
    case DoFinish(id) => FinishRetiring(r, id)
  }

  function Run(es: seq<Event>): Registry {
    if es == [] then EMPTY else Step(Run(es[..|es| - 1]), es[|es| - 1])
  }

  ghost predicate AllowedRun(es: seq<Event>) { forall i :: 0 <= i < |es| ==> Allowed(Run(es[..i]), es[i]) }

  lemma StepKeeps(r: Registry, e: Event)
    requires Partition(r) && Allowed(r, e)
    ensures Partition(Step(r, e))
  {
    hide Partition, ParkedIds;
    match e
    case DoInsert(id) => if r.pending.None? { InsertPendingExact(r, id); }
    case DoAttach(w, id) => AttachWindowExact(r, w, id);
    case DoPark(w, view) => ParkKeeps(r, w, view);
    case DoUnpark => UnparkKeeps(r);
    case DoRetireWindow(w, how) => RetireWindowKeeps(r, w, how);
    case DoRetirePending(id) => RetirementKeeps(r, id, 0);
    case DoMarkRelease(id) => RetirementKeeps(r, id, 0);
    case DoMarkCheckpoint(id, sequence) => RetirementKeeps(r, id, sequence);
    case DoFinish(id) => RetirementKeeps(r, id, 0);
  }

  lemma StepFifo(r: Registry, e: Event)
    requires Fifo(r)
    ensures Fifo(Step(r, e))
  {
    match e
    case DoAttach(w, id) =>
      WithoutInOrder(r.parked, id);
      var q := Without(r.parked, id);
      forall i | 0 <= i < |q| ensures q[i].stamp < r.parks {
        var j :| 0 <= j < |r.parked| && r.parked[j] == q[i];
      }
    case _ =>
  }

  /** Every reachable registry holds each session in exactly one relation, parked ones in park order. */
  lemma {:induction false} EveryRunPartitions(es: seq<Event>)
    requires AllowedRun(es)
    ensures Partition(Run(es)) && Fifo(Run(es))
  {
    hide Partition, Fifo, Step, Allowed;
    if es == [] {
      EmptyPartitions();
    } else {
      var before := es[..|es| - 1];
      forall i | 0 <= i < |before| ensures Allowed(Run(before[..i]), before[i]) { assert before[..i] == es[..i]; }
      EveryRunPartitions(before);
      assert es[..|es| - 1] == before && Allowed(Run(es[..|es| - 1]), es[|es| - 1]);
      StepKeeps(Run(before), es[|es| - 1]);
      StepFifo(Run(before), es[|es| - 1]);
    }
  }

  lemma EmptyPartitions()
    ensures Partition(EMPTY) && Fifo(EMPTY)
  {
    assert Windowed(EMPTY) == {} && ParkedIds(EMPTY.parked) == {};
  }

  /** The engine brought back first is the one parked longest ago. */
  lemma UnparkIsOldest(r: Registry, i: nat)
    requires Fifo(r) && r.pending.None? && i < |r.parked|
    ensures UnparkFirst(r).pending == Some(r.parked[0].engine) && r.parked[0].stamp <= r.parked[i].stamp
  {}

  // ---------------------------------------------------------------- where an engine is

  datatype Place = InWindow(w: nat) | IsParked(view: int, stamp: nat) | IsPending | IsRetiring(how: Retiring)

  ghost predicate At(r: Registry, id: nat, p: Place) {
    match p
    case InWindow(w) => w in r.byWindow && r.byWindow[w] == id
    case IsParked(view, stamp) => Parked(id, view, stamp) in r.parked
    case IsPending => r.pending == Some(id)
    case IsRetiring(how) => id in r.retiring && r.retiring[id] == how
  }

  /** In a partition an engine of the table is at one place, and any other engine at none. */
  lemma OnePlace(r: Registry, id: nat, p: Place, q: Place)
    requires Partition(r) && At(r, id, p)
    ensures id in r.sessions && (At(r, id, q) ==> p == q)
  {
    assert Related(r, id, p) by { AtRelated(r, id, p); }
    if At(r, id, q) {
      AtRelated(r, id, q);
      if p.IsParked? && q.IsParked? {
        var i :| 0 <= i < |r.parked| && r.parked[i] == Parked(id, p.view, p.stamp);
        var j :| 0 <= j < |r.parked| && r.parked[j] == Parked(id, q.view, q.stamp);
        assert i == j;
      }
    }
  }

  ghost predicate Related(r: Registry, id: nat, p: Place) {
    match p
    case InWindow(_) => id in Windowed(r)
    case IsParked(_, _) => id in ParkedIds(r.parked)
    case IsPending => id in PendingIds(r)
    case IsRetiring(_) => id in r.retiring.Keys
  }

  lemma AtRelated(r: Registry, id: nat, p: Place)
    requires At(r, id, p)
    ensures Related(r, id, p)
  {
    if p.IsParked? {
      var i :| 0 <= i < |r.parked| && r.parked[i] == Parked(id, p.view, p.stamp);
      assert r.parked[i].engine == id;
    }
  }

  /** Being in the table and having a place are the same. */
  lemma TableIsPlaces(r: Registry, id: nat)
    requires Partition(r)
    ensures id in r.sessions <==> exists p: Place :: At(r, id, p)
  {
    if id in Windowed(r) {
      var w :| w in r.byWindow && r.byWindow[w] == id;
      assert At(r, id, InWindow(w));
    } else if id in ParkedIds(r.parked) {
      var i :| 0 <= i < |r.parked| && r.parked[i].engine == id;
      assert At(r, id, IsParked(r.parked[i].view, r.parked[i].stamp));
    } else if id in PendingIds(r) {
      assert At(r, id, IsPending);
    } else if id in r.retiring {
      assert At(r, id, IsRetiring(r.retiring[id]));
    }
    if p: Place :| At(r, id, p) { OnePlace(r, id, p, p); }
  }

  /** What one event does to the places of engines. */
  datatype Move = Stay | To(id: nat, p: Place) | Gone(id: nat)

  function MoveOf(r: Registry, e: Event): Move {
    match e
    case DoInsert(id) => if r.pending.None? then To(id, IsPending) else Stay
    case DoRetirePending(id) => if r.pending == Some(id) then To(id, IsRetiring(Discard)) else Stay
    case DoAttach(w, id) => To(id, InWindow(w))
    case DoPark(w, view) => if w in r.byWindow then To(r.byWindow[w], IsParked(view, r.parks)) else Stay
    case DoUnpark => if r.pending.None? && r.parked != [] then To(r.parked[0].engine, IsPending) else Stay
    case DoRetireWindow(w, how) => if w in r.byWindow then To(r.byWindow[w], IsRetiring(how)) else Stay
    case DoMarkRelease(id) => if id in r.retiring then To(id, IsRetiring(Releasing)) else Stay
    case DoMarkCheckpoint(id, n) =>
      if id in r.retiring && r.retiring[id].Preserve? then To(id, IsRetiring(r.retiring[id].(checkpoint := Some(n))))
        else Stay
    case DoFinish(id) => if id in r.retiring then Gone(id) else Stay
  }

  ghost predicate OthersStay(r: Registry, r': Registry, id: nat) {
    forall x: nat, q: Place :: x != id ==> (At(r', x, q) <==> At(r, x, q))
  }

  /** One engine moves, or appears, or leaves the table; every other engine stays where it is. */
  ghost predicate Moved(r: Registry, m: Move, r': Registry) {
    match m
    case Stay => r' == r
    case To(id, p) => At(r', id, p) && r'.sessions == r.sessions + {id} && OthersStay(r, r', id)
    case Gone(id) => (forall q: Place :: !At(r', id, q)) && r'.sessions == r.sessions - {id} && OthersStay(r, r', id)
  }

  /** Every event moves the one engine that it names, to the place that it names, and no other. */
  lemma StepMoves(r: Registry, e: Event)
    requires Partition(r) && Allowed(r, e)
    ensures Moved(r, MoveOf(r, e), Step(r, e)) && Partition(Step(r, e))
  {
    hide Partition, ParkedIds, Moved;
    StepKeeps(r, e);
    match e
    case DoInsert(id) => InsertMoves(r, id);
    case DoAttach(w, id) => AttachMoves(r, w, id);
    case DoPark(w, view) => ParkMoves(r, w, view);
    case DoUnpark => UnparkMoves(r);
    case DoRetireWindow(w, how) => RetireMoves(r, w, how);
    case DoRetirePending(id) => RetirePendingMoves(r, id);
    case DoMarkRelease(id) => RetiringMoves(r, e, id);
    case DoMarkCheckpoint(id, sequence) => RetiringMoves(r, e, id);
    case DoFinish(id) => FinishMoves(r, id);
  }

  lemma InsertMoves(r: Registry, id: nat)
    requires Partition(r)
    ensures Moved(r, MoveOf(r, DoInsert(id)), InsertPending(r, id))
  {}

  /** Whoever has a place is in the table. */
  lemma Known(r: Registry)
    requires Partition(r)
    ensures forall w :: w in r.byWindow ==> r.byWindow[w] in r.sessions
    ensures forall p :: p in r.parked ==> p.engine in r.sessions
    ensures r.pending.Some? ==> r.pending.value in r.sessions
  {
    forall w | w in r.byWindow ensures r.byWindow[w] in r.sessions {
      OnePlace(r, r.byWindow[w], InWindow(w), IsPending);
    }
    forall p | p in r.parked ensures p.engine in r.sessions {
      OnePlace(r, p.engine, IsParked(p.view, p.stamp), IsPending);
    }
  }

  lemma {:induction false} WithoutMembers(ps: seq<Parked>, id: nat, p: Parked)
    ensures p in Without(ps, id) <==> p in ps && p.engine != id
  {
    if ps != [] {
      WithoutMembers(ps[..|ps| - 1], id, p);
      assert ps == ps[..|ps| - 1] + [ps[|ps| - 1]];
    }
  }

  lemma AttachMoves(r: Registry, w: nat, id: nat)
    requires Partition(r) && Allowed(r, DoAttach(w, id))
    ensures Moved(r, MoveOf(r, DoAttach(w, id)), AttachWindow(r, w, id))
  {
    hide Partition;
    var r' := AttachWindow(r, w, id);
    assert id in r.sessions by { AttachKnown(r, w, id); }
    assert r'.sessions == r.sessions + {id};
    forall x: nat, q: Place | x != id ensures At(r', x, q) <==> At(r, x, q) {
      if q.IsParked? { WithoutMembers(r.parked, id, Parked(x, q.view, q.stamp)); }
    }
  }

  lemma AttachKnown(r: Registry, w: nat, id: nat)
    requires Partition(r) && Allowed(r, DoAttach(w, id))
    ensures id in r.sessions
  {}

  lemma ParkMoves(r: Registry, w: nat, view: int)
    requires Partition(r)
    ensures Moved(r, MoveOf(r, DoPark(w, view)), Park(r, w, view))
  {
    hide Partition;
    Known(r);
    if w in r.byWindow {
      var r', id := Park(r, w, view), r.byWindow[w];
      assert r'.parked[|r.parked|] == Parked(id, view, r.parks);
      assert r'.sessions == r.sessions + {id};
    }
  }

  lemma UnparkMoves(r: Registry)
    requires Partition(r)
    ensures Moved(r, MoveOf(r, DoUnpark), UnparkFirst(r))
  {
    hide Partition;
    Known(r);
    if r.pending.None? && r.parked != [] {
      var r', id := UnparkFirst(r), r.parked[0].engine;
      assert r.parked == [r.parked[0]] + r.parked[1..];
      assert r'.sessions == r.sessions + {id};
    }
  }

  lemma RetireMoves(r: Registry, w: nat, how: Retiring)
    requires Partition(r)
    ensures Moved(r, MoveOf(r, DoRetireWindow(w, how)), RetireWindow(r, w, how))
  {
    hide Partition;
    Known(r);
    if w in r.byWindow {
      var r', id := RetireWindow(r, w, how), r.byWindow[w];
      assert r'.sessions == r.sessions + {id};
    }
  }

  lemma RetirePendingMoves(r: Registry, id: nat)
    requires Partition(r)
    ensures Moved(r, MoveOf(r, DoRetirePending(id)), BeginRetiringPending(r, id))
  {
    hide Partition;
    Known(r);
    if r.pending == Some(id) { assert BeginRetiringPending(r, id).sessions == r.sessions + {id}; }
  }

  lemma RetiringMoves(r: Registry, e: Event, id: nat)
    requires Partition(r) && (e == DoMarkRelease(id) || (e.DoMarkCheckpoint? && e.id == id))
    ensures Moved(r, MoveOf(r, e), Step(r, e))
  {
    if id in r.retiring {
      assert id in r.sessions;
      assert Step(r, e).sessions == r.sessions + {id};
    }
  }

  lemma FinishMoves(r: Registry, id: nat)
    requires Partition(r)
    ensures Moved(r, MoveOf(r, DoFinish(id)), FinishRetiring(r, id))
  {
    if id in r.retiring {
      forall q: Place ensures !At(FinishRetiring(r, id), id, q) {
        if At(r, id, q) { OnePlace(r, id, IsRetiring(r.retiring[id]), q); }
      }
    }
  }

  // ---------------------------------------------------------------- parking and reopening windows

  function ParkAll(r: Registry, ws: seq<nat>, views: nat -> int): Registry
    decreases |ws|
  {
    if ws == [] then r else ParkAll(Park(r, ws[0], views(ws[0])), ws[1..], views)
  }

  /** A new window takes the waiting engine, or else the one parked longest. */
  function Reopen(r: Registry, w: nat): Registry {
    var u := UnparkFirst(r);
    if u.pending.Some? then AttachWindow(u, w, u.pending.value) else u
  }

  function ReopenAll(r: Registry, ws: seq<nat>): Registry
    decreases |ws|
  {
    if ws == [] then r else ReopenAll(Reopen(r, ws[0]), ws[1..])
  }

  ghost predicate Distinct(ws: seq<nat>) { forall i, j :: 0 <= i < j < |ws| ==> ws[i] != ws[j] }
  ghost predicate Shown(r: Registry, ws: seq<nat>) { forall i :: 0 <= i < |ws| ==> ws[i] in r.byWindow }
  ghost predicate Free(r: Registry, ws: seq<nat>) { forall i :: 0 <= i < |ws| ==> ws[i] !in r.byWindow }

  ghost function Windows(ws: seq<nat>): set<nat> { set i | 0 <= i < |ws| :: ws[i] }

  /** The engines of the windows ws, queued behind what is parked already. */
  ghost function Queue(r: Registry, ws: seq<nat>, views: nat -> int): seq<Parked>
    requires Shown(r, ws)
  {
    r.parked + seq(|ws|, i requires 0 <= i < |ws| => Parked(r.byWindow[ws[i]], views(ws[i]), r.parks + i))
  }

  lemma {:induction false} ParkAllIs(r: Registry, ws: seq<nat>, views: nat -> int)
    requires Partition(r) && Distinct(ws) && Shown(r, ws)
    ensures Partition(ParkAll(r, ws, views))
    ensures ParkAll(r, ws, views)
      == r.(byWindow := r.byWindow - Windows(ws), parked := Queue(r, ws, views), parks := r.parks + |ws|)
    decreases |ws|
  {
    hide Partition, Distinct, Shown, Queue, Windows;
    if ws == [] {
      NothingToPark(r, ws, views);
    } else {
      ParkKeeps(r, ws[0], views(ws[0]));
      FirstShown(r, ws, views);
      ParkAllIs(Park(r, ws[0], views(ws[0])), ws[1..], views);
      WindowsFrom(ws);
      assert r.byWindow - Windows(ws) == r.byWindow - {ws[0]} - Windows(ws[1..]);
    }
  }

  lemma NothingToPark(r: Registry, ws: seq<nat>, views: nat -> int)
    requires ws == []
    ensures Shown(r, ws) && Queue(r, ws, views) == r.parked && r.byWindow - Windows(ws) == r.byWindow
  {
    assert Windows(ws) == {};
  }

  lemma FirstShown(r: Registry, ws: seq<nat>, views: nat -> int)
    requires Distinct(ws) && Shown(r, ws) && ws != []
    ensures ws[0] in r.byWindow && Distinct(ws[1..]) && Shown(Park(r, ws[0], views(ws[0])), ws[1..])
    ensures Queue(Park(r, ws[0], views(ws[0])), ws[1..], views) == Queue(r, ws, views)
  {
    var r1 := Park(r, ws[0], views(ws[0]));
    forall i | 0 <= i < |ws[1..]| ensures ws[1..][i] in r1.byWindow { assert ws[1..][i] == ws[i + 1]; }
    var q, q1 := Queue(r, ws, views), Queue(r1, ws[1..], views);
    assert |q| == |q1|;
    forall k | 0 <= k < |q| ensures q[k] == q1[k] {
      if k > |r.parked| { assert ws[1..][k - |r.parked| - 1] == ws[k - |r.parked|]; }
    }
  }

  lemma WindowsFrom(ws: seq<nat>)
    requires ws != []
    ensures Windows(ws) == {ws[0]} + Windows(ws[1..])
  {
    forall x | x in Windows(ws) ensures x == ws[0] || x in Windows(ws[1..]) {
      var i :| 0 <= i < |ws| && ws[i] == x;
      if i > 0 { assert ws[1..][i - 1] == x; }
    }
    forall x | x in Windows(ws[1..]) ensures x in Windows(ws) {
      var i :| 0 <= i < |ws[1..]| && ws[1..][i] == x;
      assert ws[i + 1] == x;
    }
  }

  lemma ReopenIs(r: Registry, w: nat)
    requires Partition(r) && w !in r.byWindow && r.pending.None? && r.parked != []
    ensures Reopen(r, w) == r.(byWindow := r.byWindow[w := r.parked[0].engine], parked := r.parked[1..])
    ensures Partition(Reopen(r, w))
  {
    hide Partition, DistinctEngines;
    var u, id := UnparkFirst(r), r.parked[0].engine;
    UnparkKeeps(r);
    assert id !in ParkedIds(u.parked) by { Elsewhere(u, id); }
    WithoutNone(u.parked, id);
    AttachWindowExact(u, w, id);
  }

  lemma Elsewhere(r: Registry, id: nat)
    requires Partition(r) && r.pending == Some(id)
    ensures id !in ParkedIds(r.parked)
  {}

  /** The i-th of the new windows vs shows the i-th parked engine, and nothing else has changed. */
  ghost predicate Reopened(r: Registry, vs: seq<nat>, r': Registry) {
    && |vs| <= |r.parked| && r' == r.(byWindow := r'.byWindow, parked := r.parked[|vs|..])
    && r'.byWindow.Keys == r.byWindow.Keys + Windows(vs)
    && (forall w :: w in r.byWindow ==> r'.byWindow[w] == r.byWindow[w])
    && (forall i :: 0 <= i < |vs| ==> r'.byWindow[vs[i]] == r.parked[i].engine)
  }

  lemma {:induction false} ReopenAllIs(r: Registry, vs: seq<nat>)
    requires Partition(r) && r.pending.None? && Distinct(vs) && Free(r, vs) && |vs| <= |r.parked|
    ensures Partition(ReopenAll(r, vs)) && Reopened(r, vs, ReopenAll(r, vs))
    decreases |vs|
  {
    hide Partition, Distinct, Free, Reopened;
    if vs == [] {
      NoneReopened(r, vs);
    } else {
      FreeFirst(r, vs, r.parked[0].engine, r.parked[1..]);
      ReopenIs(r, vs[0]);
      ReopenAllIs(Reopen(r, vs[0]), vs[1..]);
      ReopenedMore(r, vs, ReopenAll(r, vs));
    }
  }

  lemma NoneReopened(r: Registry, vs: seq<nat>)
    requires vs == []
    ensures Reopened(r, vs, r)
  {
    assert Windows(vs) == {};
  }

  lemma FreeFirst(r: Registry, vs: seq<nat>, id: nat, ps: seq<Parked>)
    requires Distinct(vs) && Free(r, vs) && vs != []
    ensures vs[0] !in r.byWindow && Distinct(vs[1..])
    ensures Free(r.(byWindow := r.byWindow[vs[0] := id], parked := ps), vs[1..])
  {}

  lemma ReopenedMore(r: Registry, vs: seq<nat>, r': Registry)
    requires vs != [] && r.parked != [] && vs[0] !in r.byWindow
    requires Reopened(r.(byWindow := r.byWindow[vs[0] := r.parked[0].engine], parked := r.parked[1..]), vs[1..], r')
    ensures Reopened(r, vs, r')
  {
    WindowsFrom(vs);
    var r1 := r.(byWindow := r.byWindow[vs[0] := r.parked[0].engine], parked := r.parked[1..]);
    assert r1.parked[|vs| - 1..] == r.parked[|vs|..];
    assert vs[0] in r1.byWindow;
    forall i | 0 <= i < |vs| ensures r'.byWindow[vs[i]] == r.parked[i].engine {
      if i > 0 { assert vs[1..][i - 1] == vs[i] && r1.parked[i - 1] == r.parked[i]; }
    }
  }

  /** Park any windows and open as many new ones as are then parked, or fewer: the i-th new window shows
      the i-th engine of the queue, the rest of the queue waits on, and no other window changes. */
  lemma ParkThenReopen(r: Registry, ws: seq<nat>, views: nat -> int, vs: seq<nat>)
    requires Partition(r) && r.pending.None? && Distinct(ws) && Shown(r, ws)
    requires Distinct(vs) && Free(r.(byWindow := r.byWindow - Windows(ws)), vs) && |vs| <= |r.parked| + |ws|
    ensures var queue, r' := Queue(r, ws, views), ReopenAll(ParkAll(r, ws, views), vs);
            && Partition(r') && r'.sessions == r.sessions && r'.pending.None? && r'.retiring == r.retiring
            && r'.parked == queue[|vs|..]
            && r'.byWindow.Keys == r.byWindow.Keys - Windows(ws) + Windows(vs)
            && (forall w :: w in r.byWindow && w !in Windows(ws) ==> r'.byWindow[w] == r.byWindow[w])
            && (forall i :: 0 <= i < |vs| ==> r'.byWindow[vs[i]] == queue[i].engine)
  {
    hide Partition;
    ParkAllIs(r, ws, views);
    ReopenAllIs(ParkAll(r, ws, views), vs);
  }

  /** Parking windows while nothing is parked, and reopening them in the same order, restores the
      registry, apart from the park count. */
  lemma ParkAndReopen(r: Registry, ws: seq<nat>, views: nat -> int)
    requires Partition(r) && r.pending.None? && r.parked == [] && Distinct(ws) && Shown(r, ws)
    ensures ReopenAll(ParkAll(r, ws, views), ws) == r.(parks := r.parks + |ws|)
  {
    hide Partition;
    ParkAllIs(r, ws, views);
    ReopenAllIs(ParkAll(r, ws, views), ws);
    RestoresAll(r, ws, views, ReopenAll(ParkAll(r, ws, views), ws));
  }

  lemma RestoresAll(r: Registry, ws: seq<nat>, views: nat -> int, r': Registry)
    requires r.parked == [] && Shown(r, ws)
    requires Reopened(r.(byWindow := r.byWindow - Windows(ws), parked := Queue(r, ws, views), parks := r.parks + |ws|),
      ws, r')
    ensures r' == r.(parks := r.parks + |ws|)
  {
    assert Windows(ws) <= r.byWindow.Keys;
    assert r'.byWindow.Keys == r.byWindow.Keys;
    forall w | w in r.byWindow ensures w in r'.byWindow && r'.byWindow[w] == r.byWindow[w] {
      if w in Windows(ws) { var i :| 0 <= i < |ws| && ws[i] == w; }
    }
    assert r'.byWindow == r.byWindow;
  }

  // ---------------------------------------------------------------- the object

  class EngineRegistry {
    var sessions: set<nat>
    var byWindow: map<nat, nat>
    var parked: seq<Parked>
    var pending: Option<nat>
    var retiring: map<nat, Retiring>
    /** How many parks there have been; the source keeps only their order. */
    var parks: nat

    ghost function View(): Registry
      reads this
    {
      Registry(sessions, byWindow, parked, pending, retiring, parks)
    }

    /** Every session is in exactly one relation, and parked views stand in park order. */
    ghost predicate Valid()
      reads this
    {
      Partition(View()) && Fifo(View())
    }

    constructor ()
      ensures View() == EMPTY && Valid()
    {
      sessions, byWindow, parked, pending, retiring, parks := {}, map[], [], None, map[], 0;
      new;
      EmptyPartitions();
    }

    /** The engine appears as pending and no other moves; with an id that is in use the table is spoiled. */
    method TryInsertPending(id: nat) returns (ok: bool)
      requires Valid()
      modifies this
      ensures ok == old(pending).None?
      ensures Valid() <==> !ok || id !in old(sessions)
      ensures Moved(old(View()), if ok then To(id, IsPending) else Stay, View())
      ensures View() == InsertPending(old(View()), id)
    {
      hide Partition, Fifo, Moved;
      InsertMoves(View(), id);
      StepFifo(View(), DoInsert(id));
      if pending.Some? { return false; }
      InsertPendingExact(View(), id);
      sessions := sessions + {id};
      pending := Some(id);
      return true;
    }

    method RetirePending(id: nat) returns (ok: bool)
      requires Valid()
      modifies this
      ensures Valid() && ok == (old(pending) == Some(id))
      ensures Moved(old(View()), if ok then To(id, IsRetiring(Discard)) else Stay, View())
      ensures View() == BeginRetiringPending(old(View()), id)
    {
      hide Partition, Fifo, Moved;
      StepMoves(View(), DoRetirePending(id));
      StepFifo(View(), DoRetirePending(id));
      if pending != Some(id) { return false; }
      pending := None;
      retiring := retiring[id := Discard];
      return true;
    }

    /** A waiting or parked engine moves to the free window w. Otherwise the table is sound only if the
        window shows that engine already. */
    method Attach(w: nat, id: nat)
      requires Valid()
      modifies this
      ensures Valid() <==>
                old((w !in byWindow && (pending == Some(id) || id in ParkedIds(parked)))
                  || (w in byWindow && byWindow[w] == id))
      ensures old(Allowed(View(), DoAttach(w, id))) ==> Moved(old(View()), To(id, InWindow(w)), View())
      ensures View() == AttachWindow(old(View()), w, id)
    {
      hide Partition, Fifo, Moved;
      AttachWindowExact(View(), w, id);
      StepFifo(View(), DoAttach(w, id));
      if Allowed(View(), DoAttach(w, id)) { AttachMoves(View(), w, id); }
      if pending == Some(id) { pending := None; }
      var kept := [];
      for i := 0 to |parked|
        invariant kept == Without(parked[..i], id)
      {
        assert parked[..i + 1][..i] == parked[..i];
        if parked[i].engine != id { kept := kept + [parked[i]]; }
      }
      assert parked[..|parked|] == parked;
      parked := kept;
      byWindow := byWindow[w := id];
    }

    /** The engine of the window goes behind everything that is parked. */
    method ParkWindow(w: nat, view: int) returns (id: Option<nat>)
      requires Valid()
      modifies this
      ensures Valid() && id == if w in old(byWindow) then Some(old(byWindow)[w]) else None
      ensures Moved(old(View()), if id.Some? then To(id.value, IsParked(view, old(parks))) else Stay, View())
      ensures w !in byWindow && forall p :: p in old(parked) ==> p.stamp < old(parks)
      ensures View() == Park(old(View()), w, view)
    {
      hide Partition, Moved;
      StepMoves(View(), DoPark(w, view));
      StepFifo(View(), DoPark(w, view));
      if w !in byWindow { return None; }
      id := Some(byWindow[w]);
      byWindow := byWindow - {w};
      parked := parked + [Parked(id.value, view, parks)];
      parks := parks + 1;
    }

    /** The engine parked longest becomes the pending one, unless there is one. */
    method Unpark() returns (first: Option<Parked>)
      requires Valid()
      modifies this
      ensures Valid() && (first.None? <==> old(pending).Some? || old(parked) == [])
      ensures Moved(old(View()), if first.Some? then To(first.value.engine, IsPending) else Stay, View())
      ensures first.Some? ==>
        first.value in old(parked)
          && forall p :: p in old(parked) ==> first.value.stamp <= p.stamp
      ensures View() == UnparkFirst(old(View()))
    {
      hide Partition, Moved;
      StepMoves(View(), DoUnpark);
      StepFifo(View(), DoUnpark);
      if pending.Some? || parked == [] { return None; }
      first := Some(parked[0]);
      parked := parked[1..];
      pending := Some(first.value.engine);
    }

    method RetireWindowOf(w: nat, how: Retiring) returns (id: Option<nat>)
      requires Valid()
      modifies this
      ensures Valid() && id == if w in old(byWindow) then Some(old(byWindow)[w]) else None
      ensures w !in byWindow
      ensures Moved(old(View()), if id.Some? then To(id.value, IsRetiring(how)) else Stay, View())
      ensures View() == RetireWindow(old(View()), w, how)
    {
      hide Partition, Fifo, Moved;
      StepMoves(View(), DoRetireWindow(w, how));
      StepFifo(View(), DoRetireWindow(w, how));
      if w !in byWindow { return None; }
      id := Some(byWindow[w]);
      byWindow := byWindow - {w};
      retiring := retiring[id.value := how];
    }

    /** The one step that takes an engine out of the table: it has no place left, and all others keep theirs. */
    method Finish(id: nat) returns (released: bool)
      requires Valid()
      modifies this
      ensures Valid() && released == (id in old(retiring))
      ensures Moved(old(View()), if released then Gone(id) else Stay, View())
      ensures View() == FinishRetiring(old(View()), id)
    {
      hide Partition, Fifo, Moved;
      StepMoves(View(), DoFinish(id));
      StepFifo(View(), DoFinish(id));
      if id !in retiring { return false; }
      retiring := retiring - {id};
      sessions := sessions - {id};
      return true;
    }
  }
}
