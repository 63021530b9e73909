/** What the records of failed connections say, in terms of the events alone. */
module ReconnectRecords {
  import opened Wrappers
  import opened Reconnect

  // ---------------------------------------------------------------- what an event means for an anchor

  /** The attempt that the result is for was made for this anchor. */
  ghost predicate ResultFor(r: Remote, s: Step, a: nat, reconnects: bool, connecting: bool) {
    s.Settles? && Attempt(s.id, Some(a), reconnects, connecting) in r.attempts
  }

  /** The anchor gets its connection, and if it waits for one, its session takes it over. */
  ghost predicate Installs(r: Remote, s: Step, a: nat) {
    && s.Settles? && s.result.Installed?
    && (ResultFor(r, s, a, false, true) || (ResultFor(r, s, a, true, true) && Waits(r, a)))
  }

  /** The attempt comes to nothing. Nothing is lost when a result is discarded, or when the endpoint has been
      found and the connection can be begun. */
  ghost predicate Breaks(r: Remote, s: Step, a: nat, reconnects: bool) {
    && s.Settles?
    && match s.result
       case Broken(_) => ResultFor(r, s, a, reconnects, false) || ResultFor(r, s, a, reconnects, true)
       case Connecting(refused) => refused && ResultFor(r, s, a, reconnects, false)
       case Installed => reconnects && ResultFor(r, s, a, true, true) && !Waits(r, a)
       case Discarded => false
  }

  /** The anchor is looked at: it has nothing in flight, and it is due or its user turned to it. */
  ghost predicate LookedAt(r: Remote, s: Step, a: nat) {
    && s.Triggers? && AllWait(r, s.anchors) && a in s.anchors && a !in r.active
    && (s.edge == Some(a) || Due(SlotOf(r, a), s.now))
  }

  /** The mapping of the anchor is gone, or its session is closed. */
  ghost predicate Abandons(r: Remote, s: Step, a: nat) {
    || (LookedAt(r, s, a) && s.ways(a).mapping == Missing)
    || (s == Closes(a) && a in r.sessions)
  }

  /** The user turns to an anchor that was given up. */
  ghost predicate StartsOver(r: Remote, s: Step, a: nat) {
    LookedAt(r, s, a) && s.edge == Some(a) && a in r.reconnect && r.reconnect[a].givenUp
  }

  ghost predicate Clears(r: Remote, s: Step, a: nat) { Installs(r, s, a) || Abandons(r, s, a) || StartsOver(r, s, a) }

  ghost function FailureOf(s: Step): Failure
    requires s.Settles?
  {
    Failure(s.now, s.result.Broken? && s.result.conflict, s.jitter)
  }

  /** The failed reconnections of an anchor since it was last connected, abandoned or started over. */
  ghost function FailuresSince(steps: seq<Step>, a: nat): seq<Failure> {
    if steps == [] then []
    else
      var init, s := steps[..|steps| - 1], steps[|steps| - 1];
      var r := After(init);
      if Clears(r, s, a) then []
      else FailuresSince(init, a) + if Breaks(r, s, a, true) then [FailureOf(s)] else []
  }

  datatype FirstFailure = FirstFailure(now: real, jitter: real, mapping: int)

  /** The failed first attaches of an anchor since it was last connected, abandoned or pruned. */
  ghost function FirstFailuresSince(steps: seq<Step>, a: nat): seq<FirstFailure> {
    if steps == [] then []
    else
      var init, s := steps[..|steps| - 1], steps[|steps| - 1];
      var r := After(init);
      if Installs(r, s, a) || Abandons(r, s, a) || (s.Prunes? && a in s.gone) then []
      else
        FirstFailuresSince(init, a)
        + if Breaks(r, s, a, false) then [FirstFailure(s.now, s.jitter, s.mapping)] else []
  }

  // ---------------------------------------------------------------- one event

  ghost function RetryOf(r: Remote, a: nat): Option<Retry> { if a in r.retries then Some(r.retries[a]) else None }

  /** A record of a first attach that failed once more. Another mapping starts anew. */
  function FailedFirst(old_: Option<Retry>, f: FirstFailure): Retry {
    var last := if old_.Some? && old_.value.mapping == f.mapping then old_.value
      else Retry(FIRST_DELAY, f.now, f.mapping);
    Retry(Advance(last.backoff), NextTry(f.now, last.backoff, f.jitter), f.mapping)
  }

  ghost predicate SlotFollows(r: Remote, s: Step, a: nat, after: Option<Slot>) {
    after ==
    if Clears(r, s, a) then None
    else if Breaks(r, s, a, true)
    then Some(Failed(SlotOf(r, a), s.now, s.result.Broken? && s.result.conflict, s.jitter))
    else SlotOf(r, a)
  }

  ghost predicate RetryFollows(r: Remote, s: Step, a: nat, after: Option<Retry>) {
    after ==
    if Installs(r, s, a) || Abandons(r, s, a) || (s.Prunes? && a in s.gone) then None
    else if Breaks(r, s, a, false) then Some(FailedFirst(RetryOf(r, a), FirstFailure(s.now, s.jitter, s.mapping)))
    else RetryOf(r, a)
  }

  lemma LaunchRecords(r: Remote, a: nat, reconnects: bool, way: Way)
    ensures var l := Launch(r, a, reconnects, way); l.reconnect == r.reconnect && l.retries == r.retries
    ensures forall b :: b != a ==> (b in Launch(r, a, reconnects, way).active <==> b in r.active)
  {}

  /** What a look at anchor b does to the records of anchor a. */
  lemma TriggerRecords(r: Remote, b: nat, now: real, edge: bool, way: Way, a: nat)
    ensures var s := Trigger(r, b, now, edge, way);
      var looked := a == b && a !in r.active && (edge || Due(SlotOf(r, a), now));
      var gone := looked && way.mapping == Missing;
      && (a != b ==> (a in s.active <==> a in r.active)) && (a in r.active ==> a in s.active)
      && SlotOf(s, a) == (if gone || (looked && ResetsGivenUp(SlotOf(r, a), edge)) then None else SlotOf(r, a))
      && RetryOf(s, a) == (if gone then None else RetryOf(r, a))
  {
    hide Launch;
    var cleared := if ResetsGivenUp(SlotOf(r, b), edge) then r.(reconnect := r.reconnect - {b}) else r;
    LaunchRecords(cleared, b, true, way);
  }

  ghost predicate Looked(r: Remote, anchors: seq<nat>, now: real, edge: Option<nat>, a: nat) {
    a in anchors && a !in r.active && (edge == Some(a) || Due(SlotOf(r, a), now))
  }

  /** What a poll does to the records of one anchor, whatever stands before it in the list. */
  lemma {:induction false} TriggerAllRecords(r: Remote, anchors: seq<nat>, now: real, edge: Option<nat>,
                                             ways: nat -> Way, a: nat)
    ensures var s := TriggerAll(r, anchors, now, edge, ways);
      var looked := Looked(r, anchors, now, edge, a);
      var gone := looked && ways(a).mapping == Missing;
      && (a !in anchors ==> (a in s.active <==> a in r.active)) && (a in r.active ==> a in s.active)
      && SlotOf(s, a) == (if gone || (looked && ResetsGivenUp(SlotOf(r, a), edge == Some(a))) then None
                          else SlotOf(r, a))
      && RetryOf(s, a) == (if gone then None else RetryOf(r, a))
  {
    if anchors != [] {
      hide Trigger, SlotOf, RetryOf;
      var init, b := anchors[..|anchors| - 1], anchors[|anchors| - 1];
      TriggerAllRecords(r, init, now, edge, ways, a);
      TriggerRecords(TriggerAll(r, init, now, edge, ways), b, now, edge == Some(b), ways(b), a);
      assert a in anchors <==> a in init || a == b by { assert anchors == init + [b]; }
    }
  }

  lemma BeginRecords(r: Remote, anchor: Option<nat>, reconnects: bool, connecting: bool, refused: bool)
    ensures var s := Begin(r, anchor, reconnects, connecting, refused).0;
      s.reconnect == r.reconnect && s.retries == r.retries && s.sessions == r.sessions
  {}

  /** The attempt with this number, if there is one, is the only one with it. */
  lemma TheAttempt(r: Remote, id: nat)
    requires AttemptsOk(r)
    ensures var t := Find(r.attempts, id);
      forall x :: x in r.attempts && x.id == id ==> t == Some(x)
  {
    var t := Find(r.attempts, id);
    forall x | x in r.attempts && x.id == id ensures t == Some(x) { SameIdSame(r, x, t.value); }
  }

  /** Without the attempt itself there is always room for the connection that follows it. */
  lemma RoomForConnection(r: Remote, id: nat, t: Attempt, refused: bool)
    requires Inv(r) && t in r.attempts && t.id == id
    ensures Begin(Cancelled(r, id), t.anchor, t.reconnects, true, refused).1.None? <==> refused
  {
    hide AllDiffer;
    var keeps := (x: Attempt) => x.id != id;
    FewerKept(r.attempts, keeps, t);
    KeptAre(Cancelled(r, id).attempts, (x: Attempt) => x.anchor != t.anchor);
  }

  lemma {:induction false} FewerKept(attempts: seq<Attempt>, keeps: Attempt -> bool, t: Attempt)
    requires t in attempts && !keeps(t)
    ensures |Keep(attempts, keeps)| < |attempts|
  {
    var init, last := attempts[..|attempts| - 1], attempts[|attempts| - 1];
    KeptAre(init, keeps);
    assert attempts == init + [last];
    if t != last { FewerKept(init, keeps, t); }
  }

  lemma SettleRecords(r: Remote, s: Step, a: nat)
    requires Inv(r) && s.Settles?
    ensures SlotFollows(r, s, a, SlotOf(Do(r, s), a)) && RetryFollows(r, s, a, RetryOf(Do(r, s), a))
  {
    hide Inv, Begin, Cancelled, SlotFollows, RetryFollows;
    assert AttemptsOk(r) by { InvAttempts(r); }
    TheAttempt(r, s.id);
    if Find(r.attempts, s.id).None? || !Fits(Find(r.attempts, s.id).value, s.result) {
      NothingSettled(r, s, a);
    } else {
      var t := Find(r.attempts, s.id).value;
      CancelledRecords(r, s.id);
      if s.result.Connecting? {
        RoomForConnection(r, s.id, t, s.result.refused);
        ConnectingRecords(r, s, a, t);
      } else {
        ResultRecords(r, s, a, t);
      }
    }
  }

  /** The record of a first attach that has failed, and no other. */
  lemma RetryFails(r: Remote, a: nat, s: Step)
    requires s.Settles?
    ensures var f := RetryFailed(r, a, s.mapping, s.now, s.jitter);
      && f == r.(retries := f.retries)
      && RetryOf(f, a) == Some(FailedFirst(RetryOf(r, a), FirstFailure(s.now, s.jitter, s.mapping)))
      && forall b :: b != a ==> RetryOf(f, b) == RetryOf(r, b)
  {
    var last := if a in r.retries && r.retries[a].mapping == s.mapping then r.retries[a]
      else Retry(FIRST_DELAY, s.now, s.mapping);
    var record := Retry(Advance(last.backoff), NextTry(s.now, last.backoff, s.jitter), s.mapping);
    hide NextTry;
    assert RetryFailed(r, a, s.mapping, s.now, s.jitter) == r.(retries := r.retries[a := record]);
  }

  lemma NothingSettled(r: Remote, s: Step, a: nat)
    requires s.Settles? && (Find(r.attempts, s.id).None? || !Fits(Find(r.attempts, s.id).value, s.result))
    requires forall x :: x in r.attempts && x.id == s.id ==> Find(r.attempts, s.id) == Some(x)
    ensures SlotFollows(r, s, a, SlotOf(Do(r, s), a)) && RetryFollows(r, s, a, RetryOf(Do(r, s), a))
  {}

  lemma ResultRecords(r: Remote, s: Step, a: nat, t: Attempt)
    requires s.Settles? && Find(r.attempts, s.id) == Some(t) && Fits(t, s.result) && !s.result.Connecting?
    requires forall x :: x in r.attempts && x.id == s.id ==> t == x
    requires Cancelled(r, s.id) == r.(attempts := Cancelled(r, s.id).attempts)
    ensures SlotFollows(r, s, a, SlotOf(Do(r, s), a)) && RetryFollows(r, s, a, RetryOf(Do(r, s), a))
  {
    hide Cancelled, Failed, RetryFailed, FailedFirst, NextTry;
    if t.anchor.Some? { RetryFails(Cancelled(r, s.id).(active := r.active - {t.anchor.value}), t.anchor.value, s); }
    assert t == Attempt(s.id, t.anchor, t.reconnects, t.connecting);
  }

  lemma ConnectingRecords(r: Remote, s: Step, a: nat, t: Attempt)
    requires s.Settles? && Find(r.attempts, s.id) == Some(t) && Fits(t, s.result) && s.result.Connecting?
    requires forall x :: x in r.attempts && x.id == s.id ==> t == x
    requires Cancelled(r, s.id) == r.(attempts := Cancelled(r, s.id).attempts)
    requires Begin(Cancelled(r, s.id), t.anchor, t.reconnects, true, s.result.refused).1.None? <==> s.result.refused
    ensures SlotFollows(r, s, a, SlotOf(Do(r, s), a)) && RetryFollows(r, s, a, RetryOf(Do(r, s), a))
  {
    hide Cancelled, Begin, Failed, RetryFailed, FailedFirst, NextTry;
    var c := Begin(Cancelled(r, s.id), t.anchor, t.reconnects, true, s.result.refused).0;
    if t.anchor.Some? { RetryFails(c.(active := c.active - {t.anchor.value}), t.anchor.value, s); }
    BeginRecords(Cancelled(r, s.id), t.anchor, t.reconnects, true, s.result.refused);
    assert t == Attempt(s.id, t.anchor, t.reconnects, t.connecting);
  }

  lemma InvAttempts(r: Remote)
    requires Inv(r)
    ensures AttemptsOk(r)
  {}

  lemma CancelledRecords(r: Remote, id: nat)
    ensures Cancelled(r, id) == r.(attempts := Cancelled(r, id).attempts)
  {}

  /** Every event changes the records of an anchor as it says, and those of no other anchor. */
  lemma StepRecords(r: Remote, s: Step, a: nat)
    requires Inv(r)
    ensures SlotFollows(r, s, a, SlotOf(Do(r, s), a)) && RetryFollows(r, s, a, RetryOf(Do(r, s), a))
  {
    hide Inv, Begin, Launch, TriggerAll, Settle;
    match s
    case Triggers(anchors, now, edge, ways) => TriggerAllRecords(r, anchors, now, edge, ways, a);
    case FirstAttach(b, way) => LaunchRecords(r, b, false, way);
    case Unanchored(refused) => BeginRecords(r, None, false, false, refused);
    case Settles(id, result, now, jitter, mapping) => SettleRecords(r, s, a);
    case _ =>
  }

  // ---------------------------------------------------------------- every run

  /** In every run the reconnection record of an anchor is that of its failures since it was last connected,
      abandoned or started over, and there is none without such a failure. */
  lemma {:induction false} RecordIsOfFailures(steps: seq<Step>, a: nat)
    ensures SlotOf(After(steps), a) == AfterAll(FailuresSince(steps, a))
    ensures a in After(steps).reconnect <==> FailuresSince(steps, a) != []
  {
    if steps != [] {
      hide Do, Clears, Breaks, Inv;
      var init, s := steps[..|steps| - 1], steps[|steps| - 1];
      RecordIsOfFailures(init, a);
      EveryRunIsOk(init);
      StepRecords(After(init), s, a);
      var fs := FailuresSince(init, a);
      assert fs + [] == fs;
      if Breaks(After(init), s, a, true) {
        assert s.Settles? by { OnlyResultsBreak(After(init), s, a, true); }
        OneMoreFailure(fs, FailureOf(s));
      }
    }
  }

  lemma OneMoreFailure(fs: seq<Failure>, f: Failure)
    ensures AfterAll(fs + [f]) == Some(Failed(AfterAll(fs), f.now, f.conflict, f.jitter))
  {
    assert (fs + [f])[..|fs|] == fs;
  }

  lemma OnlyResultsBreak(r: Remote, s: Step, a: nat, reconnects: bool)
    requires Breaks(r, s, a, reconnects)
    ensures s.Settles?
  {}

  /** So the record counts exactly those failures, and gives up at the twentieth. */
  lemma RecordCounts(steps: seq<Step>, a: nat)
    requires a in After(steps).reconnect
    ensures var n, slot := |FailuresSince(steps, a)|, After(steps).reconnect[a];
      0 < n <= MAX_RECONNECT_ATTEMPTS && slot.attempts == n && (slot.givenUp <==> n == MAX_RECONNECT_ATTEMPTS)
  {
    hide After, FailuresSince;
    RecordIsOfFailures(steps, a);
    EveryRunIsOk(steps);
    CountsAll(FailuresSince(steps, a));
    FailuresInARow(FailuresSince(steps, a));
  }

  lemma {:induction false} CountsAll(fs: seq<Failure>)
    ensures fs != [] ==> AfterAll(fs).value.attempts == |fs|
  {
    if fs != [] { CountsAll(fs[..|fs| - 1]); }
  }

  ghost function AfterFirst(fs: seq<FirstFailure>): Option<Retry> {
    if fs == [] then None else Some(FailedFirst(AfterFirst(fs[..|fs| - 1]), fs[|fs| - 1]))
  }

  lemma OneMoreFirst(fs: seq<FirstFailure>, f: FirstFailure)
    ensures AfterFirst(fs + [f]) == Some(FailedFirst(AfterFirst(fs), f))
  {
    assert (fs + [f])[..|fs|] == fs;
  }

  /** How many of the last failures were of the last mapping, in a row. */
  ghost function InARow(fs: seq<FirstFailure>): nat {
    if fs == [] then 0
    else if |fs| > 1 && fs[|fs| - 2].mapping == fs[|fs| - 1].mapping then InARow(fs[..|fs| - 1]) + 1
    else 1
  }

  /** The delay before the next first attach has doubled with each failure of the same mapping. */
  lemma {:induction false} FirstDelayDoubles(fs: seq<FirstFailure>)
    requires fs != []
    ensures var record, last, n := AfterFirst(fs), fs[|fs| - 1], InARow(fs);
      n > 0
      && record == Some(Retry(AfterFailures(n), NextTry(last.now, AfterFailures(n - 1), last.jitter), last.mapping))
  {
    hide NextTry;
    var init, last := fs[..|fs| - 1], fs[|fs| - 1];
    assert AfterFailures(0) == FIRST_DELAY && AfterFailures(1) == Advance(FIRST_DELAY);
    var delay := AfterFailures(InARow(fs) - 1);
    if init != [] {
      FirstDelayDoubles(init);
      assert init[|init| - 1] == fs[|fs| - 2];
      assert InARow(fs) == if init[|init| - 1].mapping == last.mapping then InARow(init) + 1 else 1;
      assert AfterFirst(init).value.backoff == AfterFailures(InARow(init));
    }
    FailsAfter(AfterFirst(init), last, delay);
    assert InARow(fs) > 0 && AfterFailures(InARow(fs)) == Advance(delay);
    assert AfterFirst(fs) == Some(FailedFirst(AfterFirst(init), last));
  }

  lemma FailsAfter(old_: Option<Retry>, f: FirstFailure, delay: real)
    requires delay == if old_.Some? && old_.value.mapping == f.mapping then old_.value.backoff else FIRST_DELAY
    ensures FailedFirst(old_, f) == Retry(Advance(delay), NextTry(f.now, delay, f.jitter), f.mapping)
  {
    hide NextTry;
  }

  /** In every run the retry record of an anchor is that of its failed first attaches since it was last
      connected, abandoned or pruned. */
  lemma {:induction false} RetryIsOfFailures(steps: seq<Step>, a: nat)
    ensures RetryOf(After(steps), a) == AfterFirst(FirstFailuresSince(steps, a))
  {
    if steps != [] {
      hide Do, Abandons, Installs, Breaks, Inv;
      var init, s := steps[..|steps| - 1], steps[|steps| - 1];
      RetryIsOfFailures(init, a);
      EveryRunIsOk(init);
      StepRecords(After(init), s, a);
      var fs := FirstFailuresSince(init, a);
      assert fs + [] == fs;
      if Breaks(After(init), s, a, false) {
        assert s.Settles? by { OnlyResultsBreak(After(init), s, a, false); }
        OneMoreFirst(fs, FirstFailure(s.now, s.jitter, s.mapping));
      }
    }
  }

  // ---------------------------------------------------------------- live sessions

  ghost predicate Unrecorded(r: Remote) {
    forall a :: IsLive(r, a) ==> a !in r.reconnect && a !in r.retries
  }

  /** A session comes alive only when its anchor is connected. */
  lemma ComesAlive(r: Remote, s: Step, a: nat)
    requires Inv(r)
    ensures IsLive(Do(r, s), a) ==> IsLive(r, a) || Installs(r, s, a)
  {
    hide Inv, Begin;
    match s
    case Triggers(anchors, now, edge, ways) => TriggerOnlyAdds(r, anchors, now, edge, ways);
    case Settles(id, result, now, jitter, mapping) =>
      var t := Find(r.attempts, id);
      if t.Some? {
        assert t.value == Attempt(id, t.value.anchor, t.value.reconnects, t.value.connecting);
        if result.Connecting? {
          BeginRecords(Cancelled(r, id), t.value.anchor, t.value.reconnects, true, result.refused);
        }
      }
    case FirstAttach(b, way) => BeginRecords(r, Some(b), false, false, way.refused);
    case Unanchored(refused) => BeginRecords(r, None, false, false, refused);
    case _ =>
  }

  /** No attempt of a live session's anchor is in flight, so none of them can fail. */
  lemma NoneBreaksLive(r: Remote, s: Step, a: nat, reconnects: bool)
    requires SessionsOk(r) && IsLive(r, a)
    ensures !Breaks(r, s, a, reconnects)
  {
    forall t | t in r.attempts ensures t.anchor != Some(a) { assert Owned(r, t); }
  }

  /** In every run the anchor of a live session has neither a reconnection record nor a retry record. */
  lemma {:induction false} LiveHasNoRecord(steps: seq<Step>)
    ensures Unrecorded(After(steps))
  {
    if steps != [] {
      hide Do, Inv, SessionsOk, Abandons, StartsOver, Breaks, IsLive;
      var init, s := steps[..|steps| - 1], steps[|steps| - 1];
      LiveHasNoRecord(init);
      EveryRunIsOk(init);
      ActiveIsAttended(init, 0);
      forall a | IsLive(After(steps), a) ensures a !in After(steps).reconnect && a !in After(steps).retries {
        ComesAlive(After(init), s, a);
        StepRecords(After(init), s, a);
        if IsLive(After(init), a) {
          NoneBreaksLive(After(init), s, a, true);
          NoneBreaksLive(After(init), s, a, false);
        }
      }
    }
  }
}
