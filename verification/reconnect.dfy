/** Reconnecting the remote workspaces: when to try again, how often, and never twice at a time. Times
    are milliseconds. */
module Reconnect {
  import opened Wrappers

  const MAX_RECONNECT_ATTEMPTS := 20
  const FIRST_DELAY := 500.0
  const LONGEST_DELAY := 30000.0
  const MAX_ATTEMPTS_IN_FLIGHT := 64

  // ---------------------------------------------------------------- the growing delay

  function Advance(delay: real): real { if delay * 2.0 < LONGEST_DELAY then delay * 2.0 else LONGEST_DELAY }

  function AfterFailures(n: nat): real { if n == 0 then FIRST_DELAY else Advance(AfterFailures(n - 1)) }

  function Pow2(n: nat): real { if n == 0 then 1.0 else 2.0 * Pow2(n - 1) }

  /** The delay doubles from half a second and stops at half a minute. */
  lemma {:induction false} DelayDoubles(n: nat)
    ensures AfterFailures(n) == if FIRST_DELAY * Pow2(n) < LONGEST_DELAY then FIRST_DELAY * Pow2(n) else LONGEST_DELAY
    ensures AfterFailures(n) == LONGEST_DELAY <==> n >= 6
  {
    if n > 0 { DelayDoubles(n - 1); }
    assert Pow2(6) == 64.0;
  }

  // ---------------------------------------------------------------- state

  datatype Slot = Slot(backoff: real, nextAttempt: real, attempts: nat, givenUp: bool)

  /** The first attach of a mapping, which is retried without limit. */
  datatype Retry = Retry(backoff: real, nextAttempt: real, mapping: int)

  /** An attempt in flight. reconnects tells a reconnection from a first attach; connecting says that the
      endpoint has been found and the connection itself is being made. */
  datatype Attempt = Attempt(id: nat, anchor: Option<nat>, reconnects: bool, connecting: bool)

  /** A session that lost its connection waits to reconnect. */
  datatype Phase = Live | Reconnecting

  /** sessions: the mirror sessions by the anchor each belongs to. */
  datatype Remote = Remote(
    reconnect: map<nat, Slot>, retries: map<nat, Retry>, active: set<nat>, attempts: seq<Attempt>, nextId: nat,
    sessions: map<nat, Phase>)

  const NEW := Remote(map[], map[], {}, [], 1, map[])

  predicate Waits(r: Remote, a: nat) { a in r.sessions && r.sessions[a] == Reconnecting }

  function SlotOf(r: Remote, a: nat): Option<Slot> { if a in r.reconnect then Some(r.reconnect[a]) else None }

  predicate Due(slot: Option<Slot>, now: real) {
    match slot
    case Some(s) => !s.givenUp && now >= s.nextAttempt
    case None => true
  }

  predicate ResetsGivenUp(slot: Option<Slot>, edge: bool) { edge && slot.Some? && slot.value.givenUp }

  function Forget(r: Remote, a: nat): Remote { r.(reconnect := r.reconnect - {a}, retries := r.retries - {a}) }

  // ---------------------------------------------------------------- attempts in flight

  function Keep(attempts: seq<Attempt>, keeps: Attempt -> bool): seq<Attempt> {
    if attempts == [] then []
    else Keep(attempts[..|attempts| - 1], keeps) + if keeps(attempts[|attempts| - 1]) then [attempts[|attempts| - 1]]
      else []
  }

  function Cancelled(r: Remote, id: nat): Remote { r.(attempts := Keep(r.attempts, (t: Attempt) => t.id != id)) }

  /** refused: the remote shuts down, or too many resources are still being retired. Other attempts of the
      same anchor are cancelled even when there turns out to be no room. */
  function Begin(r: Remote, anchor: Option<nat>, reconnects: bool, connecting: bool,
                 refused: bool): (Remote, Option<nat>) {
    if refused then (r, None)
    else
      var left := if anchor.Some? then Keep(r.attempts, (t: Attempt) => t.anchor != anchor) else r.attempts;
      if |left| >= MAX_ATTEMPTS_IN_FLIGHT then (r.(attempts := left), None)
      else (r.(attempts := left + [Attempt(r.nextId, anchor, reconnects, connecting)], nextId := r.nextId + 1),
        Some(r.nextId))
  }

  datatype Mapping = Missing | NoWorkspace | Mapped

  /** What a try finds on its way. target: there is a window to install into. spawned: the worker started. */
  datatype Way = Way(mapping: Mapping, refused: bool, target: bool, spawned: bool)

  function Launch(r: Remote, a: nat, reconnects: bool, way: Way): Remote {
    var (s, id) := Begin(r, Some(a), reconnects, false, way.refused);
    if id.None? then s
    else if !way.target then Cancelled(s, id.value)
    else if way.spawned then s.(active := s.active + {a})
    else Cancelled(s, id.value).(active := s.active - {a})
  }

  function Trigger(r: Remote, a: nat, now: real, edge: bool, way: Way): Remote {
    if a in r.active || (!edge && !Due(SlotOf(r, a), now)) then r
    else
      var s := if ResetsGivenUp(SlotOf(r, a), edge) then r.(reconnect := r.reconnect - {a}) else r;
      match way.mapping
      case Missing => Forget(s, a)
      case NoWorkspace => s
      case Mapped => Launch(s, a, true, way)
  }

  /** All anchors whose sessions wait to reconnect. edge names the workspace just turned to. */
  function TriggerAll(r: Remote, anchors: seq<nat>, now: real, edge: Option<nat>, ways: nat -> Way): Remote {
    if anchors == [] then r
    else
      var a := anchors[|anchors| - 1];
      Trigger(TriggerAll(r, anchors[..|anchors| - 1], now, edge, ways), a, now, edge == Some(a), ways(a))
  }

  // ---------------------------------------------------------------- failures

  /** conflict: the server says that another client is attached. */
  function Failed(old_: Option<Slot>, now: real, conflict: bool, jitter: real): Slot {
    var s := old_.GetOr(Slot(FIRST_DELAY, now, 0, false));
    var n := s.attempts + 1;
    if n >= MAX_RECONNECT_ATTEMPTS then s.(attempts := n, givenUp := true)
    else
      var base := if conflict then LONGEST_DELAY else s.backoff;
      s.(attempts := n, backoff := Advance(base), nextAttempt := now + base * jitter)
  }

  function Fail(r: Remote, a: nat, now: real, conflict: bool, jitter: real): Remote {
    r.(reconnect := r.reconnect[a := Failed(SlotOf(r, a), now, conflict, jitter)])
  }

  function NextTry(now: real, delay: real, jitter: real): real { now + delay * jitter }

  function RetryFailed(r: Remote, a: nat, mapping: int, now: real, jitter: real): Remote {
    var old_ := if a in r.retries && r.retries[a].mapping == mapping then r.retries[a]
      else Retry(FIRST_DELAY, now, mapping);
    r.(retries := r.retries[a := Retry(Advance(old_.backoff), NextTry(now, old_.backoff, jitter), mapping)])
  }

  // ---------------------------------------------------------------- results

  /** How an attempt that is still wanted ends. Discarded: the window, engine, mapping or session it was for
      is no longer the one it began with. Connecting: the endpoint was found and the connection takes over;
      refused: it could not. */
  datatype Result = Discarded | Broken(conflict: bool) | Connecting(refused: bool) | Installed

  /** Finding the endpoint leads to a connection, and only a connection is installed. */
  predicate Fits(t: Attempt, result: Result) {
    (result.Connecting? ==> !t.connecting) && (result.Installed? ==> t.connecting)
  }

  ghost predicate InFlight(r: Remote, id: nat) { exists t :: t in r.attempts && t.id == id }

  function Find(attempts: seq<Attempt>, id: nat): (t: Option<Attempt>)
    ensures t.Some? ==> t.value in attempts && t.value.id == id
    ensures t.None? ==> forall x :: x in attempts ==> x.id != id
  {
    if attempts == [] then None
    else if attempts[0].id == id then Some(attempts[0])
    else Find(attempts[1..], id)
  }

  function Broke(r: Remote, t: Attempt, now: real, conflict: bool, jitter: real, mapping: int): Remote {
    if t.anchor.None? then r
    else
      var s := r.(active := r.active - {t.anchor.value});
      if t.reconnects then Fail(s, t.anchor.value, now, conflict, jitter)
        else RetryFailed(s, t.anchor.value, mapping, now, jitter)
  }

  /** The connection is there. A reconnection fails after all when its session has gone meanwhile. */
  function Install(r: Remote, t: Attempt, now: real, jitter: real, mapping: int): Remote {
    if t.anchor.None? then r
    else if t.reconnects && !Waits(r, t.anchor.value) then Broke(r, t, now, false, jitter, mapping)
    else Forget(r, t.anchor.value).(sessions := r.sessions[t.anchor.value := Live])
  }

  /** A search for the endpoint that is discarded gives its anchor free; a connection that is discarded
      does not. */
  function Discard(r: Remote, t: Attempt): Remote {
    if t.anchor.Some? && !t.connecting then r.(active := r.active - {t.anchor.value}) else r
  }

  /** The result of attempt id. One that was cancelled or replaced is dropped without effect. */
  function Settle(r: Remote, id: nat, result: Result, now: real, jitter: real, mapping: int): Remote {
    var found := Find(r.attempts, id);
    if found.None? || !Fits(found.value, result) then r
    else
      var t := found.value;
      var s := Cancelled(r, id);
      match result
      case Discarded => Discard(s, t)
      case Broken(conflict) => Broke(s, t, now, conflict, jitter, mapping)
      case Connecting(refused) =>
        var (c, ticket) := Begin(s, t.anchor, t.reconnects, true, refused);
        if ticket.None? then Broke(c, t, now, false, jitter, mapping) else c
      case Installed => Install(s, t, now, jitter, mapping)
  }

  // ---------------------------------------------------------------- every run

  ghost predicate SlotOk(s: Slot) {
    && 1 <= s.attempts <= MAX_RECONNECT_ATTEMPTS
    && (s.givenUp <==> s.attempts == MAX_RECONNECT_ATTEMPTS)
    && FIRST_DELAY <= s.backoff <= LONGEST_DELAY
  }

  ghost predicate Differ(t: Attempt, u: Attempt) { t.id != u.id && (t.anchor.Some? ==> t.anchor != u.anchor) }

  ghost predicate AllDiffer(attempts: seq<Attempt>) {
    forall i, k :: 0 <= i < k < |attempts| ==> Differ(attempts[i], attempts[k])
  }

  ghost predicate AttemptsOk(r: Remote) {
    AllDiffer(r.attempts) && forall t :: t in r.attempts ==> t.id < r.nextId
  }

  /** No reconnection is under way for an anchor that has been given up. */
  ghost predicate NoneGivenUp(r: Remote) {
    forall t :: t in r.attempts && t.reconnects && t.anchor.Some? && t.anchor.value in r.reconnect ==>
      !r.reconnect[t.anchor.value].givenUp
  }

  ghost predicate Inv(r: Remote) {
    && (forall a :: a in r.reconnect ==> SlotOk(r.reconnect[a]))
    && AttemptsOk(r) && NoneGivenUp(r) && |r.attempts| <= MAX_ATTEMPTS_IN_FLIGHT
  }

  datatype Step =
    | Triggers(anchors: seq<nat>, now: real, edge: Option<nat>, ways: nat -> Way)
    | FirstAttach(anchor: nat, way: Way)
    | Unanchored(refused: bool)
    | Settles(id: nat, result: Result, now: real, jitter: real, mapping: int)
    | Disconnects(anchor: nat)
    | Closes(anchor: nat)
    | Prunes(gone: set<nat>)

  predicate AllWait(r: Remote, anchors: seq<nat>) { forall i :: 0 <= i < |anchors| ==> Waits(r, anchors[i]) }

  /** Sessions look for a connection while they wait for one; a first attach has none to take over. */
  function Do(r: Remote, s: Step): Remote {
    match s
    case Triggers(anchors, now, edge, ways) => if AllWait(r, anchors) then TriggerAll(r, anchors, now, edge, ways)
      else r
    case FirstAttach(a, way) => if a in r.active || Waits(r, a) || way.mapping != Mapped then r
      else Launch(r, a, false, way)
    case Unanchored(refused) => Begin(r, None, false, false, refused).0
    case Settles(id, result, now, jitter, mapping) => Settle(r, id, result, now, jitter, mapping)
    case Disconnects(a) =>
      if a in r.sessions && r.sessions[a] == Live
        then r.(active := r.active - {a}, sessions := r.sessions[a := Reconnecting]) else r
    case Closes(a) => if a in r.sessions then Forget(r.(active := r.active - {a}, sessions := r.sessions - {a}), a)
      else r
    case Prunes(gone) => r.(retries := r.retries - gone)
  }

  function After(steps: seq<Step>): Remote {
    if steps == [] then NEW else Do(After(steps[..|steps| - 1]), steps[|steps| - 1])
  }

  lemma {:induction false} KeptAre(attempts: seq<Attempt>, keeps: Attempt -> bool)
    ensures forall t :: t in Keep(attempts, keeps) <==> t in attempts && keeps(t)
    ensures |Keep(attempts, keeps)| <= |attempts|
  {
    if attempts != [] {
      var init, last := attempts[..|attempts| - 1], attempts[|attempts| - 1];
      KeptAre(init, keeps);
      assert attempts == init + [last];
    }
  }

  lemma OneMore(init: seq<Attempt>, t: Attempt)
    ensures AllDiffer(init + [t]) <==> AllDiffer(init) && forall x :: x in init ==> Differ(x, t)
  {
    var all := init + [t];
    assert all[|init|] == t && forall i :: 0 <= i < |init| ==> all[i] == init[i] && init[i] in init;
    if AllDiffer(all) {
      forall x | x in init ensures Differ(x, t) {
        var i :| 0 <= i < |init| && init[i] == x;
        assert Differ(all[i], all[|init|]);
      }
      forall i, k | 0 <= i < k < |init| ensures Differ(init[i], init[k]) { assert Differ(all[i], all[k]); }
    }
  }

  lemma {:induction false} KeptStillDiffer(attempts: seq<Attempt>, keeps: Attempt -> bool)
    requires AllDiffer(attempts)
    ensures AllDiffer(Keep(attempts, keeps))
  {
    if attempts != [] {
      hide AllDiffer, Differ;
      var init, last := attempts[..|attempts| - 1], attempts[|attempts| - 1];
      assert attempts == init + [last];
      OneMore(init, last);
      KeptStillDiffer(init, keeps);
      KeptAre(init, keeps);
      OneMore(Keep(init, keeps), last);
    }
  }

  lemma KeepKeeps(r: Remote, keeps: Attempt -> bool)
    requires Inv(r)
    ensures Inv(r.(attempts := Keep(r.attempts, keeps)))
  {
    hide AllDiffer;
    KeptAre(r.attempts, keeps);
    KeptStillDiffer(r.attempts, keeps);
  }

  lemma BeginKeeps(r: Remote, anchor: Option<nat>, reconnects: bool, connecting: bool, refused: bool)
    requires Inv(r)
    requires reconnects && anchor.Some? && anchor.value in r.reconnect ==> !r.reconnect[anchor.value].givenUp
    ensures Inv(Begin(r, anchor, reconnects, connecting, refused).0)
  {
    if !refused {
      var keeps := (t: Attempt) => t.anchor != anchor;
      var left := if anchor.Some? then Keep(r.attempts, keeps) else r.attempts;
      KeepKeeps(r, keeps);
      KeptAre(r.attempts, keeps);
      if |left| < MAX_ATTEMPTS_IN_FLIGHT {
        AddKeeps(r.(attempts := left), Attempt(r.nextId, anchor, reconnects, connecting));
      }
    }
  }

  lemma AddKeeps(r: Remote, t: Attempt)
    requires Inv(r) && t.id == r.nextId && |r.attempts| < MAX_ATTEMPTS_IN_FLIGHT
    requires forall x :: x in r.attempts && t.anchor.Some? ==> x.anchor != t.anchor
    requires t.reconnects && t.anchor.Some? && t.anchor.value in r.reconnect ==> !r.reconnect[t.anchor.value].givenUp
    ensures Inv(r.(attempts := r.attempts + [t], nextId := r.nextId + 1))
  {
    hide AllDiffer;
    OneMore(r.attempts, t);
    assert forall x :: x in r.attempts + [t] <==> x in r.attempts || x == t;
  }

  lemma LaunchKeeps(r: Remote, a: nat, reconnects: bool, way: Way)
    requires Inv(r) && (reconnects && a in r.reconnect ==> !r.reconnect[a].givenUp)
    ensures Inv(Launch(r, a, reconnects, way))
  {
    BeginKeeps(r, Some(a), reconnects, false, way.refused);
    var (s, id) := Begin(r, Some(a), reconnects, false, way.refused);
    if id.Some? { KeepKeeps(s, (t: Attempt) => t.id != id.value); }
  }

  lemma TriggerKeeps(r: Remote, a: nat, now: real, edge: bool, way: Way)
    requires Inv(r)
    ensures Inv(Trigger(r, a, now, edge, way))
  {
    if a !in r.active && (edge || Due(SlotOf(r, a), now)) {
      var s := if ResetsGivenUp(SlotOf(r, a), edge) then r.(reconnect := r.reconnect - {a}) else r;
      if way.mapping == Mapped { LaunchKeeps(s, a, true, way); }
    }
  }

  lemma {:induction false} TriggerAllKeeps(r: Remote, anchors: seq<nat>, now: real, edge: Option<nat>, ways: nat -> Way)
    requires Inv(r)
    ensures Inv(TriggerAll(r, anchors, now, edge, ways))
  {
    if anchors != [] {
      var a := anchors[|anchors| - 1];
      TriggerAllKeeps(r, anchors[..|anchors| - 1], now, edge, ways);
      TriggerKeeps(TriggerAll(r, anchors[..|anchors| - 1], now, edge, ways), a, now, edge == Some(a), ways(a));
    }
  }

  /** The slot a failure leaves, when the anchor was not given up before. */
  lemma FailedIsOk(old_: Option<Slot>, now: real, conflict: bool, jitter: real)
    requires old_.Some? ==> SlotOk(old_.value) && !old_.value.givenUp
    ensures SlotOk(Failed(old_, now, conflict, jitter))
  {
  }

  lemma BrokeKeeps(r: Remote, t: Attempt, now: real, conflict: bool, jitter: real, mapping: int)
    requires Inv(r)
    requires forall x :: x in r.attempts && x.anchor.Some? ==> x.anchor != t.anchor
    requires t.reconnects && t.anchor.Some? && t.anchor.value in r.reconnect ==> !r.reconnect[t.anchor.value].givenUp
    ensures Inv(Broke(r, t, now, conflict, jitter, mapping))
  {
    if t.anchor.Some? && t.reconnects {
      FailedIsOk(SlotOf(r, t.anchor.value), now, conflict, jitter);
    }
  }

  lemma SettleKeeps(r: Remote, id: nat, result: Result, now: real, jitter: real, mapping: int)
    requires Inv(r)
    ensures Inv(Settle(r, id, result, now, jitter, mapping))
  {
    hide AllDiffer;
    var found := Find(r.attempts, id);
    if found.Some? {
      var t := found.value;
      var keeps := (x: Attempt) => x.id != id;
      KeepKeeps(r, keeps);
      KeptAre(r.attempts, keeps);
      var s := Cancelled(r, id);
      OthersElsewhere(r, t);
      match result
      case Broken(conflict) => BrokeKeeps(s, t, now, conflict, jitter, mapping);
      case Installed => BrokeKeeps(s, t, now, false, jitter, mapping);
      case Connecting(refused) =>
        BeginKeeps(s, t.anchor, t.reconnects, true, refused);
        var (c, ticket) := Begin(s, t.anchor, t.reconnects, true, refused);
        KeptAre(s.attempts, (x: Attempt) => x.anchor != t.anchor);
        if ticket.None? { BrokeKeeps(c, t, now, false, jitter, mapping); }
      case _ =>
    }
  }

  lemma OthersElsewhere(r: Remote, t: Attempt)
    requires AttemptsOk(r) && t in r.attempts
    ensures forall x :: x in r.attempts && x.id != t.id && x.anchor.Some? ==> x.anchor != t.anchor
  {
    var k :| 0 <= k < |r.attempts| && r.attempts[k] == t;
    forall x | x in r.attempts && x.id != t.id && x.anchor.Some? ensures x.anchor != t.anchor {
      var i :| 0 <= i < |r.attempts| && r.attempts[i] == x;
      assert Differ(r.attempts[i], t) || Differ(t, r.attempts[i]);
    }
  }

  /** In every run: an anchor is given up exactly at its twentieth failure and never tried while it is,
      and of each anchor at most one attempt is in flight. */
  lemma {:induction false} EveryRunIsOk(steps: seq<Step>)
    ensures Inv(After(steps))
  {
    if steps != [] {
      var init, s := steps[..|steps| - 1], steps[|steps| - 1];
      EveryRunIsOk(init);
      var r := After(init);
      match s
      case Triggers(anchors, now, edge, ways) => TriggerAllKeeps(r, anchors, now, edge, ways);
      case FirstAttach(a, way) => LaunchKeeps(r, a, false, way);
      case Unanchored(refused) => BeginKeeps(r, None, false, false, refused);
      case Settles(id, result, now, jitter, mapping) => SettleKeeps(r, id, result, now, jitter, mapping);
      case _ =>
    }
  }

  // ---------------------------------------------------------------- what a reader of one step wants to know

  /** When a look at an anchor starts a reconnection: none is under way, its time has come or its user has
      turned to it, and nothing stands in the way. */
  lemma TriggerStarts(r: Remote, a: nat, now: real, edge: bool, way: Way)
    requires Inv(r)
    ensures var s := Trigger(r, a, now, edge, way);
      a !in r.active ==>
      (a in s.active <==> (edge || Due(SlotOf(r, a), now)) && way == Way(Mapped, false, true, true) && HasRoom(r, a))
    ensures a in Trigger(r, a, now, edge, way).active && a !in r.active && a in r.reconnect && r.reconnect[a].givenUp
      ==> edge && a !in Trigger(r, a, now, edge, way).reconnect
  {
  }

  ghost predicate HasRoom(r: Remote, a: nat) {
    |Keep(r.attempts, (t: Attempt) => t.anchor != Some(a))| < MAX_ATTEMPTS_IN_FLIGHT
  }

  /** An anchor that has been given up stays so, and is left alone, until its user turns to it. */
  lemma {:induction false} GivenUpWaitsForUser(r: Remote, anchors: seq<nat>, now: real, edge: Option<nat>,
                                               ways: nat -> Way, a: nat)
    requires a in r.reconnect && r.reconnect[a].givenUp && a !in r.active && edge != Some(a)
    ensures var s := TriggerAll(r, anchors, now, edge, ways);
      a in s.reconnect && s.reconnect[a] == r.reconnect[a] && a !in s.active
  {
    if anchors != [] {
      GivenUpWaitsForUser(r, anchors[..|anchors| - 1], now, edge, ways, a);
    }
  }

  /** The result of an attempt that was cancelled or replaced changes nothing. */
  lemma LateResultIgnored(r: Remote, id: nat, result: Result, now: real, jitter: real, mapping: int)
    requires !InFlight(r, id)
    ensures Settle(r, id, result, now, jitter, mapping) == r
  {
    assert forall x :: x in r.attempts ==> x.id != id;
  }

  predicate Jitter(jitter: real) { 0.8 <= jitter < 1.2 }

  /** How long the next try waits: half a minute after a conflict, else the grown delay, within a fifth. */
  lemma DelayAfterFailure(old_: Option<Slot>, now: real, conflict: bool, jitter: real)
    requires Jitter(jitter) && (old_.Some? ==> SlotOk(old_.value) && old_.value.attempts < MAX_RECONNECT_ATTEMPTS - 1)
    ensures var s := Failed(old_, now, conflict, jitter);
      var base := if conflict then LONGEST_DELAY else old_.GetOr(Slot(FIRST_DELAY, now, 0, false)).backoff;
      && !s.givenUp && 0.8 * base <= s.nextAttempt - now < 1.2 * base
      && (conflict ==> 24000.0 <= s.nextAttempt - now < 36000.0)
  {
    var base := if conflict then LONGEST_DELAY else old_.GetOr(Slot(FIRST_DELAY, now, 0, false)).backoff;
    Scaled(now, base, jitter, Failed(old_, now, conflict, jitter).nextAttempt);
  }

  lemma Scaled(now: real, base: real, jitter: real, next: real)
    requires base > 0.0 && Jitter(jitter) && next == now + base * jitter
    ensures 0.8 * base <= next - now < 1.2 * base
  {
    assert base * jitter - 0.8 * base == base * (jitter - 0.8);
    assert 1.2 * base - base * jitter == base * (1.2 - jitter);
  }

  /** The failures in a row of one anchor; the newest last. */
  datatype Failure = Failure(now: real, conflict: bool, jitter: real)

  function AfterAll(fs: seq<Failure>): Option<Slot> {
    if fs == [] then None
    else
      var f := fs[|fs| - 1];
      Some(Failed(AfterAll(fs[..|fs| - 1]), f.now, f.conflict, f.jitter))
  }

  predicate AnyConflict(fs: seq<Failure>) { fs != [] && (fs[|fs| - 1].conflict || AnyConflict(fs[..|fs| - 1])) }

  /** Failures count up to twenty, and the delay after them is that of as many doublings, or the longest
      one for good once there has been a conflict. */
  lemma {:induction false} FailuresInARow(fs: seq<Failure>)
    requires 0 < |fs| <= MAX_RECONNECT_ATTEMPTS
    ensures var s := AfterAll(fs);
      && s.Some? && s.value.attempts == |fs| && (s.value.givenUp <==> |fs| == MAX_RECONNECT_ATTEMPTS)
      && (|fs| < MAX_RECONNECT_ATTEMPTS ==>
        s.value.backoff == if AnyConflict(fs) then LONGEST_DELAY else AfterFailures(|fs|))
  {
    var init, f := fs[..|fs| - 1], fs[|fs| - 1];
    if init != [] { FailuresInARow(init); }
  }

  // ---------------------------------------------------------------- the timers

  function Earlier(a: Option<real>, b: Option<real>): Option<real> {
    if a.Some? && b.Some? then (if b.value < a.value then b else a) else if a.Some? then a else b
  }

  function SlotWakeup(slot: Option<Slot>): Option<real> {
    if slot.Some? && !slot.value.givenUp then Some(slot.value.nextAttempt) else None
  }

  /** A time that has passed is not armed again: it would keep waking the loop. */
  function RetryWakeup(r: Remote, a: nat, now: real): Option<real> {
    if a in r.retries && r.retries[a].nextAttempt > now then Some(r.retries[a].nextAttempt) else None
  }

  /** When the loop is woken for an anchor. waiting: the anchors of the sessions that wait to reconnect. */
  function WakeAt(r: Remote, waiting: seq<nat>, a: nat, now: real): Option<real> {
    if a in r.active then None
    else Earlier(if a in waiting then SlotWakeup(SlotOf(r, a)) else None, RetryWakeup(r, a, now))
  }

  // ---------------------------------------------------------------- who is attended to

  ghost predicate Flies(r: Remote, a: nat) { exists t :: t in r.attempts && t.anchor == Some(a) }

  predicate IsLive(r: Remote, a: nat) { a in r.sessions && r.sessions[a] == Live }

  /** An attempt in flight belongs to an active anchor: a reconnection to a session that waits, a first attach
      to an anchor without one. Only when its session was closed meanwhile does it belong to nobody. */
  ghost predicate Owned(r: Remote, t: Attempt) {
    t.anchor.Some? ==>
      var a := t.anchor.value;
      || (a in r.active && (if t.reconnects then Waits(r, a) else a !in r.sessions))
      || (a !in r.active && t.reconnects && a !in r.sessions)
  }

  ghost predicate SessionsOk(r: Remote) {
    && (forall t :: t in r.attempts ==> Owned(r, t))
    && (forall a :: IsLive(r, a) ==> a in r.active)
  }

  /** The anchor counts as active, and there is neither an attempt nor a connection. */
  ghost predicate Idle(r: Remote, a: nat) { a in r.active && !Flies(r, a) && !IsLive(r, a) }

  /** The anchor whose connection, still being made, this step discards. */
  function Dropped(r: Remote, s: Step): set<nat> {
    if !s.Settles? || !s.result.Discarded? then {}
    else
      var t := Find(r.attempts, s.id);
      if t.Some? && t.value.connecting && t.value.anchor.Some? then {t.value.anchor.value} else {}
  }

  /** The connection made for anchor a was discarded, and a has counted as active ever since. */
  predicate Stranded(steps: seq<Step>, a: nat) {
    && steps != [] && a in After(steps).active
    && var init := steps[..|steps| - 1];
       a in Dropped(After(init), steps[|steps| - 1]) || Stranded(init, a)
  }

  /** What one step does to an anchor: sessions stay sound, and it turns idle only by a discarded connection. */
  ghost predicate Follows(r: Remote, dropped: set<nat>, s: Remote) {
    SessionsOk(s) && forall a :: Idle(s, a) <==> a in s.active && (a in dropped || Idle(r, a))
  }

  lemma WithoutOne(r: Remote, t: Attempt)
    requires Inv(r) && t in r.attempts
    ensures var s := Cancelled(r, t.id);
      && s.active == r.active && s.sessions == r.sessions
      && (forall x :: x in s.attempts ==> x in r.attempts)
      && (forall x :: x in r.attempts && x != t ==> x in s.attempts)
      && (t.anchor.Some? ==> !Flies(s, t.anchor.value))
  {
    hide AllDiffer;
    KeptAre(r.attempts, (x: Attempt) => x.id != t.id);
    OthersElsewhere(r, t);
    forall x | x in r.attempts && x != t ensures x.id != t.id { if x.id == t.id { SameIdSame(r, x, t); } }
  }

  lemma SameIdSame(r: Remote, x: Attempt, t: Attempt)
    requires AttemptsOk(r) && x in r.attempts && t in r.attempts && x.id == t.id
    ensures x == t
  {
    var i :| 0 <= i < |r.attempts| && r.attempts[i] == x;
    var k :| 0 <= k < |r.attempts| && r.attempts[k] == t;
    assert i < k ==> Differ(r.attempts[i], r.attempts[k]);
    assert k < i ==> Differ(r.attempts[k], r.attempts[i]);
  }

  /** A new attempt for an anchor without one in flight, or with none that counts. */
  lemma BeginAdds(r: Remote, anchor: Option<nat>, reconnects: bool, connecting: bool, refused: bool)
    ensures var (s, id) := Begin(r, anchor, reconnects, connecting, refused);
      && s.active == r.active && s.sessions == r.sessions
      && (forall t :: t in s.attempts ==>
        t in r.attempts || (id.Some? && t == Attempt(id.value, anchor, reconnects, connecting)))
      && (forall t :: t in r.attempts && (anchor.None? || t.anchor != anchor) ==> t in s.attempts)
      && (id.Some? ==> Attempt(id.value, anchor, reconnects, connecting) in s.attempts && id.value == r.nextId)
      && (id.Some? && anchor.Some? ==>
        forall t :: t in s.attempts && t.anchor == anchor ==> t == Attempt(id.value, anchor, reconnects, connecting))
  {
    if !refused {
      KeptAre(r.attempts, (t: Attempt) => t.anchor != anchor);
    }
  }

  /** A new attempt replaces all of its anchor and leaves the others alone. It is turned away if the remote refuses,
      and then nothing happens, or if 64 others are in flight; then its anchor has none at all. */
  lemma AttemptBegins(r: Remote, anchor: Option<nat>, reconnects: bool, connecting: bool, refused: bool)
    ensures var (s, id) := Begin(r, anchor, reconnects, connecting, refused);
      && (refused ==> s == r && id.None?)
      && s == r.(attempts := s.attempts, nextId := if id.Some? then r.nextId + 1 else r.nextId)
      && (!refused ==>
            && (id.Some? ==> |s.attempts| <= MAX_ATTEMPTS_IN_FLIGHT && id.value == r.nextId
                             && s.attempts[|s.attempts| - 1] == Attempt(id.value, anchor, reconnects, connecting))
            && (id.None? ==> |s.attempts| >= MAX_ATTEMPTS_IN_FLIGHT)
            && (forall t :: t in s.attempts && anchor.Some? && t.anchor == anchor ==> id == Some(t.id))
            && (forall t :: t in s.attempts ==> t in r.attempts || id == Some(t.id))
            && (forall t :: t in r.attempts && (anchor.None? || t.anchor != anchor) ==> t in s.attempts))
  {
    if !refused { KeptAre(r.attempts, (t: Attempt) => t.anchor != anchor); }
  }

  lemma LaunchFollows(r: Remote, a: nat, reconnects: bool, way: Way)
    requires Inv(r) && SessionsOk(r) && a !in r.active && (if reconnects then Waits(r, a) else a !in r.sessions)
    ensures Follows(r, {}, Launch(r, a, reconnects, way))
  {
    hide Inv, Begin;
    BeginAdds(r, Some(a), reconnects, false, way.refused);
    var (s, id) := Begin(r, Some(a), reconnects, false, way.refused);
    if id.Some? {
      IdsBelow(r);
      KeptAre(s.attempts, (t: Attempt) => t.id != id.value);
      assert s.active - {a} == r.active;
      OnlyThisAnchor(r, a, s, Launch(r, a, reconnects, way));
    } else {
      OnlyThisAnchor(r, a, s, s);
    }
  }

  lemma IdsBelow(r: Remote)
    requires Inv(r)
    ensures forall t :: t in r.attempts ==> t.id < r.nextId
  {}

  /** Anchors other than a keep their attempts, and a is either not active or has one. */
  lemma OnlyThisAnchor(r: Remote, a: nat, s: Remote, l: Remote)
    requires SessionsOk(r) && a !in r.active && !IsLive(r, a)
    requires l.sessions == r.sessions && l.active in {r.active, r.active + {a}}
    requires forall t :: t in r.attempts && t.anchor != Some(a) ==> t in l.attempts
    requires forall t :: t in l.attempts ==> t in r.attempts || (t.anchor == Some(a) && Owned(l, t))
    requires forall t :: t in l.attempts && t in r.attempts && t.anchor == Some(a) ==> a !in l.active
    requires a in l.active ==> Flies(l, a)
    ensures Follows(r, {}, l)
  {
    forall t | t in l.attempts ensures Owned(l, t) { if t in r.attempts { assert Owned(r, t); } }
    forall b | b != a ensures Flies(l, b) <==> Flies(r, b) {
      if Flies(r, b) { var t :| t in r.attempts && t.anchor == Some(b); assert t in l.attempts; }
    }
  }

  lemma SameOwners(r: Remote, s: Remote)
    requires SessionsOk(r) && s.active == r.active && s.attempts == r.attempts && s.sessions == r.sessions
    ensures Follows(r, {}, s)
  {
    forall t | t in s.attempts ensures Owned(s, t) { assert Owned(r, t); }
    assert forall a :: Flies(s, a) <==> Flies(r, a);
  }

  lemma TriggerFollows(r: Remote, a: nat, now: real, edge: bool, way: Way)
    requires Inv(r) && SessionsOk(r) && Waits(r, a)
    ensures var s := Trigger(r, a, now, edge, way);
      Follows(r, {}, s) && r.active <= s.active && s.sessions == r.sessions
  {
    var s := if ResetsGivenUp(SlotOf(r, a), edge) then r.(reconnect := r.reconnect - {a}) else r;
    var l := Trigger(r, a, now, edge, way);
    SameOwners(r, s);
    assert Inv(s);
    hide SessionsOk, Inv, Follows;
    assert r.active <= l.active && l.sessions == r.sessions;
    if l.attempts == r.attempts && l.active == r.active {
      SameOwners(r, l);
    } else {
      assert SessionsOk(s) by { FollowsOk(r, {}, s); }
      LaunchFollows(s, a, true, way);
      assert l == Launch(s, a, true, way);
      FollowsTwice(r, s, l);
    }
  }

  lemma FollowsOk(r: Remote, dropped: set<nat>, s: Remote)
    requires Follows(r, dropped, s)
    ensures SessionsOk(s)
  {}

  lemma FollowsTwice(r: Remote, m: Remote, s: Remote)
    requires Follows(r, {}, m) && Follows(m, {}, s) && r.active <= m.active
    ensures Follows(r, {}, s)
  {
    hide SessionsOk;
    assert forall a :: Idle(r, a) ==> a in r.active;
    hide Idle;
  }

  lemma {:induction false} TriggerAllFollows(r: Remote, anchors: seq<nat>, now: real, edge: Option<nat>,
                                             ways: nat -> Way)
    requires Inv(r) && SessionsOk(r) && AllWait(r, anchors)
    ensures var s := TriggerAll(r, anchors, now, edge, ways);
      Follows(r, {}, s) && r.active <= s.active && s.sessions == r.sessions
  {
    if anchors == [] {
      SameOwners(r, r);
    } else {
      hide Inv, SessionsOk, Follows, Trigger;
      var init, a := anchors[..|anchors| - 1], anchors[|anchors| - 1];
      TriggerAllFollows(r, init, now, edge, ways);
      TriggerAllKeeps(r, init, now, edge, ways);
      var m := TriggerAll(r, init, now, edge, ways);
      FollowsOk(r, {}, m);
      TriggerFollows(m, a, now, edge == Some(a), ways(a));
      FollowsTwice(r, m, TriggerAll(r, anchors, now, edge, ways));
    }
  }

  /** Whatever happens to one anchor leaves the others as they were. */
  lemma OneAnchor(r: Remote, a: nat, dropped: set<nat>, l: Remote)
    requires SessionsOk(r) && dropped <= {a}
    requires l.active - {a} == r.active - {a} && l.sessions - {a} == r.sessions - {a}
    requires forall t :: t in r.attempts && t.anchor != Some(a) ==> t in l.attempts
    requires forall t :: t in l.attempts ==> if t.anchor == Some(a) then Owned(l, t) else t in r.attempts
    requires IsLive(l, a) ==> a in l.active
    requires Idle(l, a) <==> a in l.active && (a in dropped || Idle(r, a))
    ensures Follows(r, dropped, l)
  {
    assert forall b :: b != a ==> (b in l.active <==> b in l.active - {a}) && (b in r.active <==> b in r.active - {a});
    forall b | b != a
      ensures (b in l.sessions <==> b in r.sessions) && (b in l.sessions ==> l.sessions[b] == r.sessions[b]) {
      assert b in l.sessions <==> b in l.sessions - {a};
      assert b in r.sessions <==> b in r.sessions - {a};
      assert b in r.sessions ==> (r.sessions - {a})[b] == (l.sessions - {a})[b];
    }
    forall t | t in l.attempts ensures Owned(l, t) { if t.anchor != Some(a) { assert Owned(r, t); } }
    forall b | b != a ensures Flies(l, b) <==> Flies(r, b) {
      if Flies(r, b) { var t :| t in r.attempts && t.anchor == Some(b); assert t in l.attempts; }
    }
  }

  /** Attempts without an anchor concern no anchor. */
  lemma NoAnchor(r: Remote, l: Remote)
    requires SessionsOk(r) && l.active == r.active && l.sessions == r.sessions
    requires forall t: Attempt :: t.anchor.Some? ==> (t in l.attempts <==> t in r.attempts)
    ensures Follows(r, {}, l)
  {
    forall t | t in l.attempts ensures Owned(l, t) { if t.anchor.Some? { assert Owned(r, t); } }
    forall b: nat ensures Flies(l, b) <==> Flies(r, b) {}
  }

  /** Attempt t is gone and no other is. */
  ghost predicate Removes(r: Remote, t: Attempt, l: Remote) {
    forall x :: x in l.attempts <==> x in r.attempts && x != t
  }

  lemma NoneLeft(r: Remote, t: Attempt, a: nat)
    requires Inv(r) && t in r.attempts && t.anchor == Some(a)
    ensures forall x :: x in r.attempts && x != t ==> x.anchor != Some(a)
    ensures Flies(r, a)
  {
    OthersElsewhere(r, t);
    forall x | x in r.attempts && x != t ensures x.anchor != Some(a) { if x.id == t.id { SameIdSame(r, x, t); } }
  }

  /** The attempt of an anchor is over. */
  lemma OverFollows(r: Remote, t: Attempt, a: nat, dropped: set<nat>, l: Remote)
    requires Inv(r) && SessionsOk(r) && t in r.attempts && t.anchor == Some(a) && Removes(r, t, l)
      && l.sessions == r.sessions
    requires (l.active == r.active - {a} && dropped == {}) || (l.active == r.active && dropped == {a})
    ensures Follows(r, dropped, l)
  {
    assert Owned(r, t);
    NoneLeft(r, t, a);
    hide Inv;
    assert l.active - {a} == r.active - {a} && l.sessions - {a} == r.sessions - {a};
    OneAnchor(r, a, dropped, l);
  }

  /** Another attempt of the same anchor takes over. */
  lemma HandoverFollows(r: Remote, t: Attempt, a: nat, u: Attempt, l: Remote)
    requires Inv(r) && SessionsOk(r) && t in r.attempts && t.anchor == u.anchor == Some(a)
      && t.reconnects == u.reconnects
    requires forall x :: x in l.attempts <==> (x in r.attempts && x != t) || x == u
    requires l.sessions == r.sessions && l.active == r.active
    ensures Follows(r, {}, l)
  {
    assert Owned(r, t);
    NoneLeft(r, t, a);
    assert u in l.attempts;
    hide Inv;
    OneAnchor(r, a, {}, l);
  }

  lemma InstallFollows(r: Remote, t: Attempt, a: nat, l: Remote)
    requires Inv(r) && SessionsOk(r) && t in r.attempts && t.anchor == Some(a) && Removes(r, t, l)
    requires l.active == r.active && l.sessions == r.sessions[a := Live] && (t.reconnects ==> Waits(r, a))
    ensures Follows(r, {}, l)
  {
    assert Owned(r, t);
    NoneLeft(r, t, a);
    hide Inv;
    assert l.active - {a} == r.active - {a} && l.sessions - {a} == r.sessions - {a};
    OneAnchor(r, a, {}, l);
  }

  lemma SettleFollows(r: Remote, id: nat, result: Result, now: real, jitter: real, mapping: int)
    requires Inv(r) && SessionsOk(r)
    ensures Follows(r, Dropped(r, Settles(id, result, now, jitter, mapping)),
      Settle(r, id, result, now, jitter, mapping))
  {
    var found := Find(r.attempts, id);
    var l := Settle(r, id, result, now, jitter, mapping);
    if found.None? || !Fits(found.value, result) {
      SameOwners(r, r);
    } else {
      var t := found.value;
      WithoutOne(r, t);
      var s := Cancelled(r, id);
      hide Inv, SessionsOk, Cancelled, Flies, Follows;
      if result.Connecting? {
        ConnectingFollows(r, t, result.refused, now, jitter, mapping);
      } else if t.anchor.None? {
        NoAnchor(r, l);
      } else if result.Installed? && !(t.reconnects && !Waits(r, t.anchor.value)) {
        InstallFollows(r, t, t.anchor.value, l);
      } else {
        OverFollows(r, t, t.anchor.value, Dropped(r, Settles(id, result, now, jitter, mapping)), l);
      }
    }
  }

  lemma BrokeOnlyEnds(r: Remote, t: Attempt, now: real, jitter: real, mapping: int)
    requires t.anchor.Some?
    ensures var s := Broke(r, t, now, false, jitter, mapping);
      s.attempts == r.attempts && s.sessions == r.sessions && s.active == r.active - {t.anchor.value}
  {
    hide NextTry, Failed;
  }

  lemma ConnectingFollows(r: Remote, t: Attempt, refused: bool, now: real, jitter: real, mapping: int)
    requires Inv(r) && SessionsOk(r) && t in r.attempts
    ensures var (c, ticket) := Begin(Cancelled(r, t.id), t.anchor, t.reconnects, true, refused);
      Follows(r, {}, if ticket.None? then Broke(c, t, now, false, jitter, mapping) else c)
  {
    WithoutOne(r, t);
    var s := Cancelled(r, t.id);
    BeginAdds(s, t.anchor, t.reconnects, true, refused);
    var (c, ticket) := Begin(s, t.anchor, t.reconnects, true, refused);
    if t.anchor.Some? { NoneLeft(r, t, t.anchor.value); }
    hide Inv, SessionsOk, Cancelled, Flies, Follows, Begin, Broke;
    if t.anchor.None? {
      UnanchoredBroke(c, t, now, jitter, mapping);
      NoAnchor(r, c);
    } else if ticket.None? {
      BrokeOnlyEnds(c, t, now, jitter, mapping);
      OverFollows(r, t, t.anchor.value, {}, Broke(c, t, now, false, jitter, mapping));
    } else {
      HandoverFollows(r, t, t.anchor.value, Attempt(ticket.value, t.anchor, t.reconnects, true), c);
    }
  }

  lemma UnanchoredBroke(r: Remote, t: Attempt, now: real, jitter: real, mapping: int)
    requires t.anchor.None?
    ensures Broke(r, t, now, false, jitter, mapping) == r
  {}

  lemma DoFollows(r: Remote, step: Step)
    requires Inv(r) && SessionsOk(r)
    ensures Follows(r, Dropped(r, step), Do(r, step))
  {
    hide Inv, Begin, TriggerAll, Settle, Launch;
    match step
    case Triggers(anchors, now, edge, ways) =>
      if AllWait(r, anchors) {
        TriggerAllFollows(r, anchors, now, edge, ways);
      } else {
        SameOwners(r, r);
      }
    case FirstAttach(a, way) =>
      if a in r.active || Waits(r, a) || way.mapping != Mapped {
        SameOwners(r, r);
      } else {
        LaunchFollows(r, a, false, way);
      }
    case Unanchored(refused) =>
      BeginAdds(r, None, false, false, refused);
      NoAnchor(r, Do(r, step));
    case Settles(id, result, now, jitter, mapping) => SettleFollows(r, id, result, now, jitter, mapping);
    case Prunes(gone) => SameOwners(r, Do(r, step));
    case _ => SessionFollows(r, step);
  }

  lemma SessionFollows(r: Remote, step: Step)
    requires SessionsOk(r) && (step.Disconnects? || step.Closes?)
    ensures Follows(r, {}, Do(r, step))
  {
    var l, a := Do(r, step), step.anchor;
    if l == r {
      SameOwners(r, r);
    } else {
      assert l.active - {a} == r.active - {a} && l.sessions - {a} == r.sessions - {a};
      forall t | t in l.attempts && t.anchor == Some(a) ensures Owned(l, t) { assert Owned(r, t); }
      OneAnchor(r, a, {}, l);
    }
  }

  /** In every run an anchor that counts as active has an attempt in flight or a live connection, except
      exactly the ones whose connection was discarded while it was being made. */
  lemma {:induction false} ActiveIsAttended(steps: seq<Step>, a: nat)
    ensures SessionsOk(After(steps))
    ensures Idle(After(steps), a) <==> Stranded(steps, a)
  {
    if steps != [] {
      hide Inv, SessionsOk, Do, Idle, Dropped;
      var init, step := steps[..|steps| - 1], steps[|steps| - 1];
      ActiveIsAttended(init, a);
      EveryRunIsOk(init);
      DoFollows(After(init), step);
    }
  }

  /** Somebody will see to anchor a: it is looked at now, or woken by its next time, or left to its user, or
      an attempt of its own is in flight and will report. */
  ghost predicate Attended(r: Remote, waiting: seq<nat>, a: nat, now: real) {
    var slot, at := SlotOf(r, a), WakeAt(r, waiting, a, now);
    || Flies(r, a)
    || (a !in r.active &&
        (Due(slot, now) || (slot.Some? && slot.value.givenUp)
          || (slot.Some? && at.Some? && now < at.value <= slot.value.nextAttempt)))
  }

  /** No reconnection is forgotten: in every run a session that waits is due, or armed, or given up, or tried
      at the moment, if and only if its last connection was not discarded while it was being made. */
  lemma WaitingIsDueOrArmed(steps: seq<Step>, waiting: seq<nat>, a: nat, now: real)
    requires forall x :: x in waiting <==> Waits(After(steps), x)
    requires a in waiting
    ensures Attended(After(steps), waiting, a, now) <==> !Stranded(steps, a)
  {
    ActiveIsAttended(steps, a);
    hide Stranded;
    assert Idle(After(steps), a) <==> a in After(steps).active && !Flies(After(steps), a);
  }

  /** A session left behind like that is never tried again, whatever happens, until it is closed. */
  lemma StrandedStays(steps: seq<Step>, step: Step, a: nat)
    requires Stranded(steps, a) && Waits(After(steps), a) && step != Closes(a)
    ensures Stranded(steps + [step], a) && Waits(After(steps + [step]), a)
  {
    var more := steps + [step];
    assert more[..|more| - 1] == steps && more[|more| - 1] == step;
    ActiveIsAttended(steps, a);
    EveryRunIsOk(steps);
    IdleStaysActive(After(steps), step, a);
  }

  lemma {:induction false} TriggerOnlyAdds(r: Remote, anchors: seq<nat>, now: real, edge: Option<nat>, ways: nat -> Way)
    ensures var s := TriggerAll(r, anchors, now, edge, ways); r.active <= s.active && s.sessions == r.sessions
  {
    if anchors != [] { TriggerOnlyAdds(r, anchors[..|anchors| - 1], now, edge, ways); }
  }

  lemma IdleStaysActive(r: Remote, step: Step, a: nat)
    requires Idle(r, a) && Waits(r, a) && step != Closes(a)
    ensures a in Do(r, step).active && Waits(Do(r, step), a)
  {
    match step
    case Triggers(anchors, now, edge, ways) => TriggerOnlyAdds(r, anchors, now, edge, ways);
    case Settles(id, result, now, jitter, mapping) => OthersSettle(r, a, id, result, now, jitter, mapping);
    case FirstAttach(b, way) => LaunchOnlyAdds(r, b, way);
    case _ =>
  }

  lemma LaunchOnlyAdds(r: Remote, b: nat, way: Way)
    ensures b !in r.active ==> r.active <= Launch(r, b, false, way).active
    ensures Launch(r, b, false, way).sessions == r.sessions
  {}

  lemma OthersSettle(r: Remote, a: nat, id: nat, result: Result, now: real, jitter: real, mapping: int)
    requires Idle(r, a) && Waits(r, a)
    ensures var s := Settle(r, id, result, now, jitter, mapping); a in s.active && Waits(s, a)
  {
    hide Cancelled;
    var t := Find(r.attempts, id);
    assert t.Some? ==> t.value.anchor != Some(a);
    if t.Some? {
      var s := Cancelled(r, id);
      CancelledElsewhere(r, id);
      if result.Connecting? { BeginAdds(s, t.value.anchor, t.value.reconnects, true, result.refused); }
    }
  }

  lemma CancelledElsewhere(r: Remote, id: nat)
    ensures Cancelled(r, id).active == r.active && Cancelled(r, id).sessions == r.sessions
  {}

  lemma OnlyOne(r: Remote, t: Attempt)
    requires r.attempts == [t]
    ensures Find(r.attempts, t.id) == Some(t) && Cancelled(r, t.id) == r.(attempts := [])
  {
    assert [t][..0] == [];
    assert Keep([t], (x: Attempt) => x.id != t.id) == Keep([], (x: Attempt) => x.id != t.id) + [];
  }

  lemma TakesOver(r: Remote, t: Attempt, now: real)
    requires r.attempts == [t] && t.anchor.Some? && !t.connecting
    ensures Settle(r, t.id, Connecting(false), now, 1.0, 0)
      == r.(attempts := [Attempt(r.nextId, t.anchor, t.reconnects, true)], nextId := r.nextId + 1)
  {
    OnlyOne(r, t);
  }

  lemma OneMoreStep(steps: seq<Step>, step: Step)
    ensures After(steps + [step]) == Do(After(steps), step)
  {
    assert (steps + [step])[..|steps|] == steps;
  }

  const OPEN_WAY := Way(Mapped, false, true, true)

  lemma Start()
    ensures After([]) == NEW
  {}

  lemma FirstAttaches(a: nat)
    ensures Do(NEW, FirstAttach(a, OPEN_WAY))
      == Remote(map[], map[], {a}, [Attempt(1, Some(a), false, false)], 2, map[])
  {}

  /** A first attach goes through, and later the connection is lost. */
  lemma SessionLost(a: nat, now: real) returns (steps: seq<Step>)
    ensures |steps| == 4 && After(steps) == Remote(map[], map[], {}, [], 3, map[a := Reconnecting])
  {
    hide After, Settle, Find, Cancelled, Launch;
    var s1 := [FirstAttach(a, OPEN_WAY)];
    assert After([]) == NEW by { Start(); }
    OneMoreStep([], FirstAttach(a, OPEN_WAY));
    assert [] + s1 == s1;
    FirstAttaches(a);
    assert After(s1) == Remote(map[], map[], {a}, [Attempt(1, Some(a), false, false)], 2, map[]);
    var s2 := s1 + [Settles(1, Connecting(false), now, 1.0, 0)];
    OneMoreStep(s1, Settles(1, Connecting(false), now, 1.0, 0));
    TakesOver(After(s1), Attempt(1, Some(a), false, false), now);
    assert After(s2) == Remote(map[], map[], {a}, [Attempt(2, Some(a), false, true)], 3, map[]);
    var s3 := s2 + [Settles(2, Installed, now, 1.0, 0)];
    OneMoreStep(s2, Settles(2, Installed, now, 1.0, 0));
    assert After(s3) == Remote(map[], map[], {a}, [], 3, map[a := Live]) by {
      Installs(After(s2), Attempt(2, Some(a), false, true), now);
    }
    steps := s3 + [Disconnects(a)];
    OneMoreStep(s3, Disconnects(a));
    assert {a} - {a} == {};
  }

  lemma Installs(r: Remote, t: Attempt, now: real)
    requires r.attempts == [t] && t.connecting && !t.reconnects && t.anchor.Some?
    ensures Settle(r, t.id, Installed, now, 1.0, 0)
      == Forget(r, t.anchor.value).(attempts := [], sessions := r.sessions[t.anchor.value := Live])
  {
    OnlyOne(r, t);
  }

  lemma Retries(r: Remote, a: nat, now: real)
    requires r.attempts == [] && r.active == {} && r.reconnect == map[] && Waits(r, a)
    ensures Do(r, Triggers([a], now, None, (x: nat) => OPEN_WAY)) ==
      r.(active := {a}, attempts := [Attempt(r.nextId, Some(a), true, false)], nextId := r.nextId + 1)
  {
    var ways := (x: nat) => OPEN_WAY;
    assert [a][..0] == [];
    assert TriggerAll(r, [], now, None, ways) == r;
    assert TriggerAll(r, [a], now, None, ways) == Trigger(r, a, now, false, OPEN_WAY);
  }

  lemma Discards(r: Remote, t: Attempt, now: real)
    requires r.attempts == [t] && t.connecting && t.anchor.Some?
    ensures Settle(r, t.id, Discarded, now, 1.0, 0) == r.(attempts := [])
    ensures Dropped(r, Settles(t.id, Discarded, now, 1.0, 0)) == {t.anchor.value}
  {
    OnlyOne(r, t);
  }

  /** It does happen: the connection of a session is lost, its endpoint is found again, and while the new
      connection is being made the mapping of its workspace is set anew. */
  lemma SessionCanBeStranded(a: nat, now: real) returns (steps: seq<Step>)
    ensures |steps| == 7 && steps[6] == Settles(4, Discarded, now, 1.0, 0)
    ensures Waits(After(steps), a) && Stranded(steps, a)
  {
    var s4 := SessionLost(a, now);
    var again := Triggers([a], now, None, (x: nat) => OPEN_WAY);
    var s5 := s4 + [again];
    OneMoreStep(s4, again);
    Retries(After(s4), a, now);
    hide After, Settle, Find, Cancelled, TriggerAll, Dropped;
    var s6 := s5 + [Settles(3, Connecting(false), now, 1.0, 0)];
    OneMoreStep(s5, Settles(3, Connecting(false), now, 1.0, 0));
    TakesOver(After(s5), Attempt(3, Some(a), true, false), now);
    steps := s6 + [Settles(4, Discarded, now, 1.0, 0)];
    OneMoreStep(s6, Settles(4, Discarded, now, 1.0, 0));
    Discards(After(s6), Attempt(4, Some(a), true, true), now);
    assert steps[..6] == s6;
  }

  // ---------------------------------------------------------------- the owner's own loops

  /** After a conflict the delay is wound up, from the first to the longest, before it is used. */
  method WoundUp() returns (delay: real)
    ensures delay == LONGEST_DELAY
  {
    delay := FIRST_DELAY;
    ghost var n := 0;
    while delay < LONGEST_DELAY
      invariant n <= 6 && delay == AfterFailures(n) <= LONGEST_DELAY
      decreases 6 - n
    {
      DelayDoubles(n);
      delay := Advance(delay);
      n := n + 1;
    }
  }

  /** This would be a reconnection for an anchor that has been given up. */
  predicate GivenUpReconnects(r: Remote, anchor: Option<nat>, reconnects: bool) {
    reconnects && anchor.Some? && anchor.value in r.reconnect && r.reconnect[anchor.value].givenUp
  }

  lemma BeginExact(r: Remote, anchor: Option<nat>, reconnects: bool, connecting: bool, refused: bool)
    requires Inv(r)
    ensures var (s, id) := Begin(r, anchor, reconnects, connecting, refused);
      Inv(s) <==> !(id.Some? && GivenUpReconnects(r, anchor, reconnects))
  {
    var (s, id) := Begin(r, anchor, reconnects, connecting, refused);
    if !GivenUpReconnects(r, anchor, reconnects) {
      BeginKeeps(r, anchor, reconnects, connecting, refused);
    } else if id.Some? {
      var t := Attempt(r.nextId, anchor, reconnects, connecting);
      assert s.attempts[|s.attempts| - 1] == t;
      assert t in s.attempts;
    } else if !refused {
      KeepKeeps(r, (t: Attempt) => t.anchor != anchor);
    }
  }

  lemma Aside(r: Remote, active: set<nat>)
    requires Inv(r)
    ensures Inv(r.(active := active))
  {}

  lemma ForgetKeeps(r: Remote, a: nat)
    requires Inv(r)
    ensures Inv(r.(reconnect := r.reconnect - {a}))
  {}

  /** A failure is recorded soundly for an anchor that is not given up and, if this one gives it up, has no
      other reconnection in flight. */
  ghost predicate FailsSoundly(r: Remote, a: nat) {
    && (a in r.reconnect ==> !r.reconnect[a].givenUp)
    && (a in r.reconnect && r.reconnect[a].attempts + 1 == MAX_RECONNECT_ATTEMPTS ==>
          forall t :: t in r.attempts && t.reconnects ==> t.anchor != Some(a))
  }

  lemma FailExact(r: Remote, a: nat, now: real, conflict: bool, jitter: real)
    requires Inv(r)
    ensures Inv(Fail(r, a, now, conflict, jitter)) <==> FailsSoundly(r, a)
  {
    var s := Fail(r, a, now, conflict, jitter);
    assert SlotOf(r, a).Some? ==> SlotOk(r.reconnect[a]);
    if a in r.reconnect && r.reconnect[a].givenUp {
      assert s.reconnect[a].attempts > MAX_RECONNECT_ATTEMPTS;
    } else {
      FailedIsOk(SlotOf(r, a), now, conflict, jitter);
      assert s.reconnect[a].givenUp <==> a in r.reconnect && r.reconnect[a].attempts + 1 == MAX_RECONNECT_ATTEMPTS;
    }
  }

  class Connections {
    var reconnect: map<nat, Slot>
    var retries: map<nat, Retry>
    var active: set<nat>
    var attempts: seq<Attempt>
    var nextId: nat
    var sessions: map<nat, Phase>

    ghost function Now(): Remote reads this { Remote(reconnect, retries, active, attempts, nextId, sessions) }

    /** Given up exactly at twenty failures, no reconnection in flight for a given-up anchor, at most one
        attempt for each anchor, at most 64 in all. */
    ghost predicate Valid() reads this { Inv(Now()) }

    constructor ()
      ensures Now() == NEW && Valid()
    {
      reconnect, retries, active, attempts, nextId, sessions := map[], map[], {}, [], 1, map[];
    }

    method CancelAttempt(id: nat)
      requires Valid()
      modifies this`attempts
      ensures Valid()
      ensures Now() == Cancelled(old(Now()), id)
    {
      hide Inv;
      ghost var keeps := (t: Attempt) => t.id != id;
      KeepKeeps(Now(), keeps);
      var left: seq<Attempt> := [];
      for i := 0 to |attempts|
        invariant left == Keep(attempts[..i], keeps)
      {
        assert attempts[..i + 1][..i] == attempts[..i];
        if attempts[i].id != id { left := left + [attempts[i]]; }
      }
      assert attempts[..|attempts|] == attempts;
      attempts := left;
    }

    /** A reconnection for an anchor that is given up is the one thing that spoils the table. */
    method BeginAttempt(anchor: Option<nat>, reconnects: bool, connecting: bool, refused: bool)
      returns (id: Option<nat>)
      requires Valid()
      modifies this`attempts, this`nextId
      ensures Valid() <==> !(id.Some? && GivenUpReconnects(old(Now()), anchor, reconnects))
      ensures (Now(), id) == Begin(old(Now()), anchor, reconnects, connecting, refused)
    {
      hide Inv;
      BeginExact(Now(), anchor, reconnects, connecting, refused);
      if refused { return None; }
      if anchor.Some? {
        ghost var keeps := (t: Attempt) => t.anchor != anchor;
        var left: seq<Attempt> := [];
        for i := 0 to |attempts|
          invariant left == Keep(attempts[..i], keeps)
        {
          assert attempts[..i + 1][..i] == attempts[..i];
          if attempts[i].anchor != anchor { left := left + [attempts[i]]; }
        }
        assert attempts[..|attempts|] == attempts;
        attempts := left;
      }
      if |attempts| >= MAX_ATTEMPTS_IN_FLIGHT { return None; }
      id := Some(nextId);
      attempts := attempts + [Attempt(nextId, anchor, reconnects, connecting)];
      nextId := nextId + 1;
    }

    /** The last part of TriggerReconnectAnchor: an attempt is begun, and cancelled again when it has no target
        or no thread. */
    method LaunchAnchor(a: nat, way: Way)
      requires Valid() && a !in active && (a in reconnect ==> !reconnect[a].givenUp)
      modifies this
      ensures Valid() && Now() == Launch(old(Now()), a, true, way)
    {
      hide Inv;
      LaunchKeeps(Now(), a, true, way);
      var id := BeginAttempt(Some(a), true, false, way.refused);
      if id.None? { return; }
      if !way.target {
        CancelAttempt(id.value);
        return;
      }
      Aside(Now(), active + {a});
      active := active + {a};
      if !way.spawned {
        CancelAttempt(id.value);
        assert active - {a} == old(active) == old(active) - {a};
        Aside(Now(), active - {a});
        active := active - {a};
      }
    }

    method TriggerReconnectAnchor(a: nat, now: real, edge: bool, way: Way)
      requires Valid()
      modifies this
      ensures Valid()
      ensures Now() == Trigger(old(Now()), a, now, edge, way)
    {
      hide Inv, Launch;
      TriggerKeeps(Now(), a, now, edge, way);
      if a in active { return; }
      var slot := if a in reconnect then Some(reconnect[a]) else None;
      if !edge && !Due(slot, now) { return; }
      ForgetKeeps(Now(), a);
      if ResetsGivenUp(slot, edge) { reconnect := reconnect - {a}; }
      if way.mapping == Missing {
        reconnect := reconnect - {a};
        retries := retries - {a};
        return;
      }
      if way.mapping == NoWorkspace { return; }
      LaunchAnchor(a, way);
    }

    method MaybeTriggerReconnect(anchors: seq<nat>, now: real, edge: Option<nat>, ways: nat -> Way)
      requires Valid()
      modifies this
      ensures Valid()
      ensures Now() == TriggerAll(old(Now()), anchors, now, edge, ways)
    {
      for i := 0 to |anchors|
        invariant Valid()
        invariant Now() == TriggerAll(old(Now()), anchors[..i], now, edge, ways)
      {
        hide Trigger, Inv;
        assert anchors[..i + 1][..i] == anchors[..i];
        TriggerReconnectAnchor(anchors[i], now, edge == Some(anchors[i]), ways(anchors[i]));
      }
      assert anchors[..|anchors|] == anchors;
    }

    method OnReconnectAttemptFailed(a: nat, now: real, conflict: bool, jitter: real)
      requires Valid()
      modifies this`reconnect
      ensures Valid() <==> FailsSoundly(old(Now()), a)
      ensures Now() == Fail(old(Now()), a, now, conflict, jitter)
    {
      hide Inv;
      FailExact(Now(), a, now, conflict, jitter);
      var slot := if a in reconnect then reconnect[a] else Slot(FIRST_DELAY, now, 0, false);
      slot := slot.(attempts := slot.attempts + 1);
      if slot.attempts >= MAX_RECONNECT_ATTEMPTS {
        reconnect := reconnect[a := slot.(givenUp := true)];
        return;
      }
      var delay := slot.backoff;
      if conflict { delay := WoundUp(); }
      slot := slot.(backoff := Advance(delay), nextAttempt := now + delay * jitter);
      assert slot == Failed(SlotOf(Now(), a), now, conflict, jitter);
      reconnect := reconnect[a := slot];
    }

    method SlotTimers(waiting: seq<nat>, now: real) returns (wakeups: seq<Wakeup>)
      requires NoneTwice(waiting)
      ensures Timers(wakeups, TableSoFar(Now(), waiting, [], now))
    {
      wakeups := [];
      for i := 0 to |waiting|
        invariant Timers(wakeups, TableSoFar(Now(), waiting[..i], [], now))
      {
        hide Timers, TableSoFar;
        var a := waiting[i];
        SlotTimerAdded(wakeups, Now(), waiting, i, now);
        if a !in active && a in reconnect && !reconnect[a].givenUp {
          wakeups := wakeups + [Wakeup(a, reconnect[a].nextAttempt)];
        }
      }
      assert waiting[..|waiting|] == waiting;
    }

    /** waiting: the anchors of the sessions that wait to reconnect; order: the anchors with a first-attach
        retry, in the order of the table. Each anchor is woken once, at the earlier of its times. */
    method SyncReconnectTimers(waiting: seq<nat>, order: seq<nat>, now: real) returns (wakeups: seq<Wakeup>)
      requires NoneTwice(waiting) && NoneTwice(order) && forall a :: a in order <==> a in retries
      ensures Timers(wakeups, WakeTable(Now(), waiting, now))
    {
      wakeups := SlotTimers(waiting, now);
      for i := 0 to |order|
        invariant Timers(wakeups, TableSoFar(Now(), waiting, order[..i], now))
      {
        hide Timers, TableSoFar;
        var a := order[i];
        assert a in retries;
        RetryTimerAdded(wakeups, Now(), waiting, order, i, now);
        if a !in active && retries[a].nextAttempt > now {
          var at := retries[a].nextAttempt;
          var k := FindTimer(wakeups, a);
          if k.Some? {
            wakeups := wakeups[k.value := Wakeup(a, if at < wakeups[k.value].at then at else wakeups[k.value].at)];
          } else {
            wakeups := wakeups + [Wakeup(a, at)];
          }
        }
      }
      assert order[..|order|] == order;
      SameTimers(wakeups, TableSoFar(Now(), waiting, order, now), WakeTable(Now(), waiting, now));
    }
  }

  lemma SlotTimerAdded(ws: seq<Wakeup>, r: Remote, waiting: seq<nat>, i: nat, now: real)
    requires NoneTwice(waiting) && i < |waiting| && Timers(ws, TableSoFar(r, waiting[..i], [], now))
    ensures var a := waiting[i];
      var added := if a !in r.active && a in r.reconnect && !r.reconnect[a].givenUp
        then ws + [Wakeup(a, r.reconnect[a].nextAttempt)] else ws;
      Timers(added, TableSoFar(r, waiting[..i + 1], [], now))
  {
    var a := waiting[i];
    var f, g := TableSoFar(r, waiting[..i], [], now), TableSoFar(r, waiting[..i + 1], [], now);
    OnlyTheNext(waiting, i);
    assert f(a).None? && g(a) == if a in r.active then None else SlotWakeup(SlotOf(r, a));
    assert forall x :: x != a ==> g(x) == f(x);
    hide Timers, TableSoFar;
    TimerChanges(ws, f, g, a);
  }

  lemma RetryTimerAdded(ws: seq<Wakeup>, r: Remote, waiting: seq<nat>, order: seq<nat>, i: nat, now: real)
    requires NoneTwice(order) && i < |order| && order[i] in r.retries
      && Timers(ws, TableSoFar(r, waiting, order[..i], now))
    ensures var a := order[i];
      var at := r.retries[a].nextAttempt;
      var k := FindTimer(ws, a);
      var added := if a in r.active || at <= now then ws
        else if k.Some? then ws[k.value := Wakeup(a, if at < ws[k.value].at then at else ws[k.value].at)]
        else ws + [Wakeup(a, at)];
      Timers(added, TableSoFar(r, waiting, order[..i + 1], now))
  {
    var a := order[i];
    var f, g := TableSoFar(r, waiting, order[..i], now), TableSoFar(r, waiting, order[..i + 1], now);
    OnlyTheNext(order, i);
    assert forall x :: x != a ==> g(x) == f(x);
    assert a in r.active || r.retries[a].nextAttempt <= now ==> g(a) == f(a);
    assert a !in r.active && r.retries[a].nextAttempt > now ==> g(a) == Earlier(f(a), Some(r.retries[a].nextAttempt));
    hide Timers, TableSoFar;
    TimerChanges(ws, f, g, a);
  }

  datatype Wakeup = Wakeup(anchor: nat, at: real)

  ghost predicate NoneTwice(s: seq<nat>) { forall i, k :: 0 <= i < k < |s| ==> s[i] != s[k] }

  ghost function Anchors(ws: seq<Wakeup>): set<nat> { set w | w in ws :: w.anchor }

  /** The wakeups say what f says: one for each anchor that has a time, and none for the others. */
  ghost predicate Timers(ws: seq<Wakeup>, f: nat -> Option<real>) {
    && (forall i, k :: 0 <= i < k < |ws| ==> ws[i].anchor != ws[k].anchor)
    && (forall w :: w in ws ==> f(w.anchor) == Some(w.at))
    && (forall a :: f(a).Some? ==> a in Anchors(ws))
  }

  ghost function WakeSoFar(r: Remote, waiting: seq<nat>, order: seq<nat>, a: nat, now: real): Option<real> {
    if a in r.active then None
    else Earlier(if a in waiting then SlotWakeup(SlotOf(r, a)) else None,
      if a in order then RetryWakeup(r, a, now) else None)
  }

  ghost function TableSoFar(r: Remote, waiting: seq<nat>, order: seq<nat>, now: real): nat -> Option<real> {
    (a: nat) => WakeSoFar(r, waiting, order, a, now)
  }

  ghost function WakeTable(r: Remote, waiting: seq<nat>, now: real): nat -> Option<real> {
    (a: nat) => WakeAt(r, waiting, a, now)
  }

  lemma SameTimers(ws: seq<Wakeup>, f: nat -> Option<real>, g: nat -> Option<real>)
    requires Timers(ws, f) && forall a :: f(a) == g(a)
    ensures Timers(ws, g)
  {
  }

  lemma OnlyTheNext(s: seq<nat>, i: nat)
    requires NoneTwice(s) && i < |s|
    ensures s[i] !in s[..i] && forall x :: x in s[..i + 1] <==> x in s[..i] || x == s[i]
  {
    assert s[..i + 1] == s[..i] + [s[i]];
  }

  function FindTimer(ws: seq<Wakeup>, a: nat): (k: Option<nat>)
    ensures k.Some? ==> k.value < |ws| && ws[k.value].anchor == a
    ensures k.None? ==> forall w :: w in ws ==> w.anchor != a
  {
    if ws == [] then None
    else if ws[|ws| - 1].anchor == a then Some(|ws| - 1)
    else FindTimer(ws[..|ws| - 1], a)
  }

  /** What to do with the list when the time of one anchor changes. */
  lemma TimerChanges(ws: seq<Wakeup>, f: nat -> Option<real>, g: nat -> Option<real>, a: nat)
    requires Timers(ws, f) && forall x :: x != a ==> g(x) == f(x)
    ensures f(a).Some? <==> FindTimer(ws, a).Some?
    ensures f(a) == g(a) ==> Timers(ws, g)
    ensures f(a).None? && g(a).Some? ==> Timers(ws + [Wakeup(a, g(a).value)], g)
    ensures var k := FindTimer(ws, a); k.Some? && g(a).Some? ==>
      f(a) == Some(ws[k.value].at) && Timers(ws[k.value := Wakeup(a, g(a).value)], g)
  {
    var k := FindTimer(ws, a);
    if g(a).Some? {
      var w := Wakeup(a, g(a).value);
      if k.Some? {
        assert ws[k.value] in ws;
        TimerReplaced(ws, f, g, a, k.value, w);
      } else if f(a).None? {
        assert forall i :: 0 <= i < |ws| ==> ws[i] in ws;
        assert forall x :: x in ws + [w] <==> x in ws || x == w;
        assert Anchors(ws + [w]) == Anchors(ws) + {a};
      }
    }
  }

  lemma TimerReplaced(ws: seq<Wakeup>, f: nat -> Option<real>, g: nat -> Option<real>, a: nat, k: nat, w: Wakeup)
    requires Timers(ws, f) && (forall x :: x != a ==> g(x) == f(x)) && k < |ws| && ws[k].anchor == a
    requires w.anchor == a && g(a) == Some(w.at)
    ensures Timers(ws[k := w], g)
  {
    var vs := ws[k := w];
    forall v | v in vs ensures g(v.anchor) == Some(v.at) {
      var i :| 0 <= i < |vs| && vs[i] == v;
      if i != k { assert ws[i] in ws; }
    }
    forall x | g(x).Some? ensures x in Anchors(vs) {
      if x == a {
        assert vs[k] in vs;
      } else {
        var u :| u in ws && u.anchor == x;
        var i :| 0 <= i < |ws| && ws[i] == u;
        assert vs[i] == u;
      }
    }
  }
}
