/** Notices from work the user did not start: the same one is taken once in ten seconds, and only the last
    few are kept until they are fetched. Times are milliseconds. */
module SystemNotices {
  const REPEAT_WINDOW := 10000
  const PENDING_LIMIT := 32

  /** Two notices are the same when all five fields are. */
  datatype Notice = Notice(level: int, title: string, body: string, surface: nat, source: string)
  datatype Entry = Entry(notice: Notice, at: int)
  datatype Inbox = Inbox(pending: seq<Notice>, recent: seq<Entry>)

  const EMPTY := Inbox([], [])

  /** A clock that has gone back counts as no time at all. */
  predicate Fresh(e: Entry, now: int) { now - e.at < REPEAT_WINDOW }

  function Kept(recent: seq<Entry>, now: int): seq<Entry> {
    if recent == [] then []
    else Kept(recent[..|recent| - 1], now) + if Fresh(recent[|recent| - 1], now) then [recent[|recent| - 1]] else []
  }

  ghost predicate Seen(entries: seq<Entry>, n: Notice) { exists e :: e in entries && e.notice == n }

  function IsSeen(entries: seq<Entry>, n: Notice): (r: bool)
    ensures r <==> Seen(entries, n)
  {
    entries != [] && (entries[|entries| - 1].notice == n || IsSeen(entries[..|entries| - 1], n))
  }

  function Queued(pending: seq<Notice>, n: Notice): seq<Notice> {
    if |pending| >= PENDING_LIMIT then pending[1..] + [n] else pending + [n]
  }

  function Offer(i: Inbox, n: Notice, now: int): Inbox {
    var kept := Kept(i.recent, now);
    if IsSeen(kept, n) then i.(recent := kept) else Inbox(Queued(i.pending, n), kept + [Entry(n, now)])
  }

  function Take(i: Inbox): Inbox { i.(pending := []) }

  // ---------------------------------------------------------------- the box against its whole history

  datatype Op = Offers(notice: Notice, now: int) | Takes

  function Run(ops: seq<Op>): Inbox {
    if ops == [] then EMPTY
    else
      var i := Run(ops[..|ops| - 1]);
      match ops[|ops| - 1]
      case Offers(n, now) => Offer(i, n, now)
      case Takes => Take(i)
  }

  /** Whether the last of these operations is an offer that the box accepts. */
  predicate Accepts(ops: seq<Op>)
    requires ops != []
  {
    var last := ops[|ops| - 1];
    last.Offers? && !IsSeen(Kept(Run(ops[..|ops| - 1]).recent, last.now), last.notice)
  }

  /** What has been accepted since the last fetch. */
  function SinceTake(ops: seq<Op>): seq<Notice> {
    if ops == [] || ops[|ops| - 1].Takes? then []
    else SinceTake(ops[..|ops| - 1]) + if Accepts(ops) then [ops[|ops| - 1].notice] else []
  }

  function Newest(all: seq<Notice>): seq<Notice> {
    if |all| <= PENDING_LIMIT then all else all[|all| - PENDING_LIMIT..]
  }

  lemma NewestMore(all: seq<Notice>, n: Notice)
    ensures Queued(Newest(all), n) == Newest(all + [n])
  {
    var more := all + [n];
    if |all| >= PENDING_LIMIT {
      assert Newest(all) == all[|all| - PENDING_LIMIT..];
      assert more[|more| - PENDING_LIMIT..] == all[|all| - PENDING_LIMIT..][1..] + [n];
    }
  }

  /** What waits is always the last thirty-two notices accepted since the last fetch, or all of them. */
  lemma {:induction false} PendingIsNewest(ops: seq<Op>)
    ensures Run(ops).pending == Newest(SinceTake(ops))
  {
    if ops != [] {
      hide Newest, Queued;
      PendingIsNewest(ops[..|ops| - 1]);
      NewestMore(SinceTake(ops[..|ops| - 1]),
        if ops[|ops| - 1].Offers? then ops[|ops| - 1].notice else Notice(0, "", "", 0, ""));
      assert Newest([]) == [] by { EmptyIsNewest(); }
    } else {
      EmptyIsNewest();
    }
  }

  lemma EmptyIsNewest()
    ensures Newest([]) == []
  {
  }

  /** Whether an entry has been within the window at every offer from the given one on. */
  ghost predicate FreshSince(e: Entry, ops: seq<Op>, from: nat) {
    forall k :: from <= k < |ops| && ops[k].Offers? ==> Fresh(e, ops[k].now)
  }

  /** Entry e was accepted by operation k. */
  ghost predicate AcceptedAt(ops: seq<Op>, k: nat, e: Entry) {
    k < |ops| && Accepts(ops[..k + 1]) && e == Entry(ops[k].notice, ops[k].now)
  }

  lemma Earlier(ops: seq<Op>, k: nat, e: Entry)
    requires ops != []
    ensures AcceptedAt(ops, k, e) <==>
      AcceptedAt(ops[..|ops| - 1], k, e) || (k == |ops| - 1 && Accepts(ops) && e == Entry(ops[k].notice, ops[k].now))
  {
    var init := ops[..|ops| - 1];
    if k < |init| {
      assert init[..k + 1] == ops[..k + 1] && init[k] == ops[k];
    } else if k == |init| {
      assert ops[..k + 1] == ops;
    }
  }

  lemma {:induction false} KeptAre(recent: seq<Entry>, now: int)
    ensures forall e :: e in Kept(recent, now) <==> e in recent && Fresh(e, now)
  {
    if recent != [] {
      KeptAre(recent[..|recent| - 1], now);
      assert recent == recent[..|recent| - 1] + [recent[|recent| - 1]];
    }
  }

  ghost predicate Remembered(ops: seq<Op>, e: Entry) {
    exists k: nat :: AcceptedAt(ops, k, e) && FreshSince(e, ops, k + 1)
  }

  lemma StillFresh(e: Entry, ops: seq<Op>, from: nat)
    requires ops != []
    ensures FreshSince(e, ops, from) <==>
      FreshSince(e, ops[..|ops| - 1], from)
        && (from <= |ops| - 1 && ops[|ops| - 1].Offers? ==> Fresh(e, ops[|ops| - 1].now))
  {
    var init := ops[..|ops| - 1];
    assert forall k :: 0 <= k < |init| ==> init[k] == ops[k];
  }

  lemma RememberedMore(ops: seq<Op>, e: Entry)
    requires ops != []
    ensures var last := ops[|ops| - 1];
      Remembered(ops, e) <==>
        || (Remembered(ops[..|ops| - 1], e) && (last.Offers? ==> Fresh(e, last.now)))
        || (Accepts(ops) && e == Entry(last.notice, last.now))
  {
    hide FreshSince, AcceptedAt, Fresh;
    var init, last := ops[..|ops| - 1], ops[|ops| - 1];
    if Remembered(ops, e) {
      var k: nat :| AcceptedAt(ops, k, e) && FreshSince(e, ops, k + 1);
      Earlier(ops, k, e);
      if AcceptedAt(init, k, e) { AcceptedAmong(init, k, e); }
      StillFresh(e, ops, k + 1);
    }
    if Remembered(init, e) && (last.Offers? ==> Fresh(e, last.now)) {
      var k: nat :| AcceptedAt(init, k, e) && FreshSince(e, init, k + 1);
      Earlier(ops, k, e);
      StillFresh(e, ops, k + 1);
    }
    if Accepts(ops) && e == Entry(last.notice, last.now) {
      Earlier(ops, |ops| - 1, e);
      NothingSince(e, ops);
      assert AcceptedAt(ops, |ops| - 1, e) && FreshSince(e, ops, |ops| - 1 + 1);
    }
  }

  lemma NothingSince(e: Entry, ops: seq<Op>)
    ensures FreshSince(e, ops, |ops|)
  {
  }

  lemma AcceptedAmong(ops: seq<Op>, k: nat, e: Entry)
    requires AcceptedAt(ops, k, e)
    ensures k < |ops|
  {
  }

  /** The short list holds exactly what was accepted and has been within the window at every offer since,
      whatever the clock does. */
  lemma {:induction false} RecentIsFresh(ops: seq<Op>, e: Entry)
    ensures e in Run(ops).recent <==> Remembered(ops, e)
  {
    hide Remembered, Fresh;
    if ops == [] {
      NothingYet(e);
    } else {
      var init, last := ops[..|ops| - 1], ops[|ops| - 1];
      RecentIsFresh(init, e);
      RememberedMore(ops, e);
      if last.Offers? { KeptAre(Run(init).recent, last.now); }
    }
  }

  lemma NothingYet(e: Entry)
    ensures !Remembered([], e)
  {
  }

  // ---------------------------------------------------------------- the rule over the whole history

  /** The rule over the whole history: refused if the same notice was accepted less than a window ago. */
  ghost predicate RepeatsRecent(ops: seq<Op>, n: Notice, now: int) {
    exists k: nat, e :: AcceptedAt(ops, k, e) && e.notice == n && Fresh(e, now)
  }

  /** The last operation is an offer, and the box decides it by that rule. */
  ghost predicate ByHistory(ops: seq<Op>) {
    && ops != [] && ops[|ops| - 1].Offers?
    && (Accepts(ops) <==> !RepeatsRecent(ops[..|ops| - 1], ops[|ops| - 1].notice, ops[|ops| - 1].now))
  }

  /** The window of offer i has passed at offer j, and at the last offer it has not. */
  ghost predicate Reopens(ops: seq<Op>, i: nat, j: nat) {
    && i < j < |ops| - 1 && ops[i].Offers? && ops[j].Offers? && ops[|ops| - 1].Offers?
    && ops[j].now - ops[i].now >= REPEAT_WINDOW > ops[|ops| - 1].now - ops[i].now
  }

  /** A window that has passed is open again at the last offer. */
  ghost predicate WindowReopens(ops: seq<Op>) { exists i: nat, j: nat :: Reopens(ops, i, j) }

  ghost predicate SameTimes(ops: seq<Op>, other: seq<Op>) {
    && |other| == |ops|
    && forall k :: 0 <= k < |ops| ==>
      if ops[k].Offers? then other[k] == ops[k].(notice := Title(other[k])) else other[k] == Takes
  }

  function Title(op: Op): Notice { if op.Offers? then op.notice else BLANK }

  const BLANK := Notice(0, "", "", 0, "")

  /** With these times the box decides the last offer by the rule over the whole history, whatever the notices
      are, exactly if no window that had passed is open again. */
  lemma HistoryRuleExact(ops: seq<Op>)
    requires ops != [] && ops[|ops| - 1].Offers?
    ensures (forall other :: SameTimes(ops, other) ==> ByHistory(other)) <==> !WindowReopens(ops)
  {
    hide ByHistory, WindowReopens, SameTimes;
    if WindowReopens(ops) {
      var other := Forgets(ops);
    } else {
      forall other | SameTimes(ops, other) ensures ByHistory(other) {
        SameWindows(ops, other);
        DecidesByHistory(other);
      }
    }
  }

  lemma SameWindows(ops: seq<Op>, other: seq<Op>)
    requires SameTimes(ops, other) && ops != [] && ops[|ops| - 1].Offers?
    ensures other != [] && other[|other| - 1].Offers? && (WindowReopens(other) ==> WindowReopens(ops))
  {
    if WindowReopens(other) {
      var i: nat, j: nat :| Reopens(other, i, j);
      assert Reopens(ops, i, j);
    }
  }

  lemma DecidesByHistory(ops: seq<Op>)
    requires ops != [] && ops[|ops| - 1].Offers? && !WindowReopens(ops)
    ensures ByHistory(ops)
  {
    hide Remembered, RepeatsRecent, Fresh, Run, WindowReopens;
    var init, last := ops[..|ops| - 1], ops[|ops| - 1];
    var recent := Run(init).recent;
    KeptAre(recent, last.now);
    if IsSeen(Kept(recent, last.now), last.notice) {
      var e :| e in Kept(recent, last.now) && e.notice == last.notice;
      RecentIsFresh(init, e);
      RememberedRepeats(init, e, last.now);
    }
    if RepeatsRecent(init, last.notice, last.now) {
      var e := RepeatedIsRemembered(ops);
      RecentIsFresh(init, e);
    }
  }

  /** Notices that all differ, but for the offer whose window reopens and the last one. */
  ghost function Numbered(ops: seq<Op>, i: nat): (r: seq<Op>)
    ensures |r| == |ops|
  {
    seq(|ops|, k requires 0 <= k < |ops| =>
      if ops[k].Takes? then Takes else Offers(BLANK.(surface := if k == |ops| - 1 then i else k), ops[k].now))
  }

  lemma Forgets(ops: seq<Op>) returns (other: seq<Op>)
    requires WindowReopens(ops)
    ensures SameTimes(ops, other) && !ByHistory(other)
  {
    var i: nat, j: nat :| Reopens(ops, i, j);
    other := Numbered(ops, i);
    hide Reopens, Accepts, RepeatsRecent;
    BoxHasForgotten(ops, i, j);
    HistoryHasNot(ops, i, j);
  }

  lemma BoxHasForgotten(ops: seq<Op>, i: nat, j: nat)
    requires Reopens(ops, i, j)
    ensures Accepts(Numbered(ops, i))
  {
    var other := Numbered(ops, i);
    var init, last := other[..|other| - 1], other[|other| - 1];
    hide Accepts, Run, Numbered, Remembered;
    forall x | x in Run(init).recent ensures x.notice != last.notice {
      RecentIsFresh(init, x);
      OnlyOnce(ops, i, j, x);
    }
    assert last.Offers? by { LastIsOffer(ops, i); }
    NothingSeen(other);
  }

  lemma LastIsOffer(ops: seq<Op>, i: nat)
    requires ops != [] && ops[|ops| - 1].Offers?
    ensures Numbered(ops, i)[|ops| - 1].Offers?
  {}

  lemma HistoryHasNot(ops: seq<Op>, i: nat, j: nat)
    requires Reopens(ops, i, j)
    ensures var other := Numbered(ops, i);
      var last := other[|other| - 1];
      last.Offers? && RepeatsRecent(other[..|other| - 1], last.notice, last.now)
  {
    var other := Numbered(ops, i);
    var e := Entry(other[i].notice, other[i].now);
    hide AcceptedAt, Accepts, Fresh;
    FirstOfItsKind(other, i);
    Earlier(other, i, e);
    StillOpen(ops, i, j, e);
  }

  /** What the box remembers is unlike the last offer: only offer i is like it, and offer j threw it out. */
  lemma OnlyOnce(ops: seq<Op>, i: nat, j: nat, x: Entry)
    requires Reopens(ops, i, j)
    requires var other := Numbered(ops, i); Remembered(other[..|other| - 1], x)
    ensures x.notice != Numbered(ops, i)[|ops| - 1].notice
  {
    hide Accepts;
    var other := Numbered(ops, i);
    var init := other[..|other| - 1];
    var k: nat :| AcceptedAt(init, k, x) && FreshSince(x, init, k + 1);
    AcceptedIsOffer(init, k, x);
    assert init[k] == other[k] && x.notice.surface == k;
    assert init[i] == other[i] && init[j] == other[j];
    assert !Fresh(Entry(init[i].notice, init[i].now), init[j].now);
    assert k < j ==> Fresh(x, init[j].now);
  }

  lemma NothingSeen(ops: seq<Op>)
    requires ops != [] && ops[|ops| - 1].Offers?
    requires var last := ops[|ops| - 1];
      forall x :: x in Run(ops[..|ops| - 1]).recent ==> x.notice != last.notice || !Fresh(x, last.now)
    ensures Accepts(ops)
  {
    KeptAre(Run(ops[..|ops| - 1]).recent, ops[|ops| - 1].now);
  }

  lemma StillOpen(ops: seq<Op>, i: nat, j: nat, e: Entry)
    requires Reopens(ops, i, j) && e == Entry(Numbered(ops, i)[i].notice, Numbered(ops, i)[i].now)
    ensures Fresh(e, ops[|ops| - 1].now) && e.notice == Numbered(ops, i)[|ops| - 1].notice
  {}

  /** An offer that repeats no earlier one is accepted. */
  lemma FirstOfItsKind(ops: seq<Op>, i: nat)
    requires i < |ops| && ops[i].Offers?
    requires forall k :: 0 <= k < i && ops[k].Offers? ==> ops[k].notice != ops[i].notice
    ensures AcceptedAt(ops, i, Entry(ops[i].notice, ops[i].now))
  {
    hide Run, Fresh;
    var upTo := ops[..i + 1];
    var init := upTo[..i];
    forall x | x in Run(init).recent ensures x.notice != ops[i].notice {
      RecentIsFresh(init, x);
      var k: nat :| AcceptedAt(init, k, x);
      assert init[k] == ops[k];
    }
    KeptAre(Run(init).recent, ops[i].now);
  }

  lemma RememberedRepeats(ops: seq<Op>, e: Entry, now: int)
    requires Remembered(ops, e) && Fresh(e, now)
    ensures RepeatsRecent(ops, e.notice, now)
  {
  }

  lemma RepeatedIsRemembered(ops: seq<Op>) returns (e: Entry)
    requires ops != [] && ops[|ops| - 1].Offers? && !WindowReopens(ops)
    requires RepeatsRecent(ops[..|ops| - 1], ops[|ops| - 1].notice, ops[|ops| - 1].now)
    ensures Remembered(ops[..|ops| - 1], e) && e.notice == ops[|ops| - 1].notice && Fresh(e, ops[|ops| - 1].now)
  {
    hide Accepts;
    var init, last := ops[..|ops| - 1], ops[|ops| - 1];
    var k: nat, x :| AcceptedAt(init, k, x) && x.notice == last.notice && Fresh(x, last.now);
    e := x;
    FreshEver(ops, k, x);
  }

  /** What was accepted and is within the window now has been within it ever since. */
  lemma FreshEver(ops: seq<Op>, k: nat, e: Entry)
    requires ops != [] && ops[|ops| - 1].Offers? && !WindowReopens(ops)
    requires AcceptedAt(ops[..|ops| - 1], k, e) && Fresh(e, ops[|ops| - 1].now)
    ensures FreshSince(e, ops[..|ops| - 1], k + 1)
  {
    hide Accepts;
    var init := ops[..|ops| - 1];
    AcceptedIsOffer(init, k, e);
    forall j: nat | k + 1 <= j < |init| && init[j].Offers? ensures Fresh(e, init[j].now) { assert !Reopens(ops, k, j); }
  }

  lemma AcceptedIsOffer(ops: seq<Op>, k: nat, e: Entry)
    requires AcceptedAt(ops, k, e)
    ensures k < |ops| && ops[k] == Offers(e.notice, e.at)
  {}

  // ---------------------------------------------------------------- a clock that does not go back

  ghost predicate ForwardTimes(ops: seq<Op>) {
    forall i, k :: 0 <= i < k < |ops| && ops[i].Offers? && ops[k].Offers? ==> ops[i].now <= ops[k].now
  }

  /** While the clock does not go back no window reopens, and the box decides by the rule over the whole
      history, although it forgets all that is older than the window. */
  lemma AcceptsByHistory(ops: seq<Op>)
    requires ops != [] && ops[|ops| - 1].Offers? && ForwardTimes(ops)
    ensures ByHistory(ops) && !WindowReopens(ops)
  {
    hide ByHistory;
    DecidesByHistory(ops);
  }

  /** Such times: a window that had passed at the second offer is open again at the third. */
  lemma ForgottenWhenClockGoesBack(n: Notice, other: Notice)
    requires n != other
    ensures var before := [Offers(n, 0), Offers(other, REPEAT_WINDOW)];
      WindowReopens(before + [Offers(n, 1)]) && Accepts(before + [Offers(n, 1)]) && RepeatsRecent(before, n, 1)
  {
    hide Accepts, RepeatsRecent;
    BoxForgets(n, other);
    HistoryRemembers(n, Offers(other, REPEAT_WINDOW));
    assert Reopens([Offers(n, 0), Offers(other, REPEAT_WINDOW)] + [Offers(n, 1)], 0, 1);
  }

  lemma BoxForgets(n: Notice, other: Notice)
    requires n != other
    ensures Accepts([Offers(n, 0), Offers(other, REPEAT_WINDOW)] + [Offers(n, 1)])
  {
    hide Kept, IsSeen;
    var first := [Offers(n, 0)];
    var before := [Offers(n, 0), Offers(other, REPEAT_WINDOW)];
    var all := before + [Offers(n, 1)];
    assert all[..2] == before && before[..1] == first;
    FirstRun(n, 0);
    KeptAre([Entry(n, 0)], REPEAT_WINDOW);
    assert Run(before) == Offer(Run(first), other, REPEAT_WINDOW);
    assert forall e :: e in Run(before).recent ==> e == Entry(other, REPEAT_WINDOW);
    KeptAre(Run(before).recent, 1);
  }

  lemma FirstRun(n: Notice, now: int)
    ensures Run([Offers(n, now)]) == Inbox([n], [Entry(n, now)])
  {
    assert [Offers(n, now)][..0] == [] && Run([]) == EMPTY;
  }

  lemma HistoryRemembers(n: Notice, next: Op)
    ensures RepeatsRecent([Offers(n, 0), next], n, 1)
  {
    hide Kept;
    var before := [Offers(n, 0), next];
    assert before[..1] == [Offers(n, 0)] && before[..1][..0] == [] && Run([]) == EMPTY;
    KeptAre([], 0);
    assert AcceptedAt(before, 0, Entry(n, 0));
  }

  // ---------------------------------------------------------------- the rule of the header

  /** The fields the documented rule compares. */
  predicate SameHeader(a: Notice, b: Notice) {
    a.source == b.source && a.level == b.level && a.title == b.title && a.body == b.body
  }

  ghost predicate WasAccepted(ops: seq<Op>, e: Entry) { exists k: nat :: AcceptedAt(ops, k, e) }

  /** The documented rule: refused if a notice with the same source, level, title and body was accepted less
      than a window ago. */
  ghost predicate RepeatsHeader(ops: seq<Op>, n: Notice, now: int) {
    exists e :: WasAccepted(ops, e) && SameHeader(e.notice, n) && Fresh(e, now)
  }

  /** The box remembers a notice like n for another surface. */
  predicate AlikeElsewhere(recent: seq<Entry>, n: Notice, now: int) {
    exists e :: e in recent && Fresh(e, now) && SameHeader(e.notice, n) && e.notice.surface != n.surface
  }

  /** The box remembers n itself. */
  predicate RepeatedHere(recent: seq<Entry>, n: Notice, now: int) {
    exists e :: e in recent && Fresh(e, now) && e.notice == n
  }

  /** While no window reopens, what is within the window is remembered exactly if it was accepted. */
  lemma RecentIsHistory(ops: seq<Op>, e: Entry)
    requires ops != [] && ops[|ops| - 1].Offers? && !WindowReopens(ops) && Fresh(e, ops[|ops| - 1].now)
    ensures e in Run(ops[..|ops| - 1]).recent <==> WasAccepted(ops[..|ops| - 1], e)
  {
    hide Accepts;
    var init := ops[..|ops| - 1];
    RecentIsFresh(init, e);
    if WasAccepted(init, e) {
      var k: nat :| AcceptedAt(init, k, e);
      FreshEver(ops, k, e);
    }
  }

  /** The box decides as its header says if and only if it does not remember the same notice for another
      surface, or remembers this one too. */
  lemma HeaderRuleAgrees(ops: seq<Op>)
    requires ops != [] && ops[|ops| - 1].Offers? && !WindowReopens(ops)
    ensures var init, n, now := ops[..|ops| - 1], ops[|ops| - 1].notice, ops[|ops| - 1].now;
      (Accepts(ops) <==> !RepeatsHeader(init, n, now)) <==>
      (!AlikeElsewhere(Run(init).recent, n, now) || RepeatedHere(Run(init).recent, n, now))
  {
    hide WasAccepted, Fresh, Run, WindowReopens;
    var init, n, now := ops[..|ops| - 1], ops[|ops| - 1].notice, ops[|ops| - 1].now;
    KeptAre(Run(init).recent, now);
    forall e | Fresh(e, now) ensures e in Run(init).recent <==> WasAccepted(init, e) { RecentIsHistory(ops, e); }
  }

  /** So a notice repeated at once for another surface is taken, which the header rules out. */
  lemma SurfaceTellsApart(n: Notice, surface: nat, now: int)
    requires surface != n.surface
    ensures Accepts([Offers(n, now), Offers(n.(surface := surface), now)])
    ensures RepeatsHeader([Offers(n, now)], n.(surface := surface), now)
  {
    var first, ops := [Offers(n, now)], [Offers(n, now), Offers(n.(surface := surface), now)];
    assert ops[..1] == first && first[..0] == [];
    assert Run([]) == EMPTY;
    assert Run(first) == Inbox([n], [Entry(n, now)]);
    KeptAre(Run(first).recent, now);
    hide RepeatsHeader, WasAccepted;
    FirstIsAccepted(n, now);
    HeaderRepeats(first, Entry(n, now), n.(surface := surface), now);
  }

  lemma FirstIsAccepted(n: Notice, now: int)
    ensures WasAccepted([Offers(n, now)], Entry(n, now))
  {
    var first := [Offers(n, now)];
    assert first[..0 + 1] == first && first[..0] == [];
    assert AcceptedAt(first, 0, Entry(n, now));
  }

  lemma HeaderRepeats(ops: seq<Op>, e: Entry, n: Notice, now: int)
    requires WasAccepted(ops, e) && SameHeader(e.notice, n) && Fresh(e, now)
    ensures RepeatsHeader(ops, n, now)
  {}

  // ---------------------------------------------------------------- the box itself

  lemma LastDecision(ops: seq<Op>)
    requires ByHistory(ops)
    ensures Accepts(ops) <==> !RepeatsRecent(ops[..|ops| - 1], ops[|ops| - 1].notice, ops[|ops| - 1].now)
  {}

  class SystemInbox {
    var pending: seq<Notice>
    var recent: seq<Entry>
    /** The time read last. */
    var clock: int
    /** What has been done with the box so far. */
    ghost var ops: seq<Op>

    ghost predicate Valid() reads this { Inbox(pending, recent) == Run(ops) }

    constructor ()
      ensures Valid() && Posted() && ops == []
    {
      pending, recent, clock, ops := [], [], 0, [];
    }

    /** Every offer so far came from Post. */
    ghost predicate Posted() reads this {
      ForwardTimes(ops) && forall k :: 0 <= k < |ops| && ops[k].Offers? ==> ops[k].now <= clock
    }

    /** Any thread posts: the clock, which never goes back, is read while the box is locked. So the notice is
        taken exactly if no notice with the same five fields was taken less than a window ago. */
    method Post(n: Notice, elapsed: nat) returns (added: bool)
      requires Valid() && Posted()
      modifies this
      ensures Valid() && Posted() && clock == old(clock) + elapsed && ops == old(ops) + [Offers(n, clock)]
      ensures added <==> !RepeatsRecent(old(ops), n, clock)
      ensures (added <==> !RepeatsHeader(old(ops), n, clock)) <==>
                !AlikeElsewhere(old(recent), n, clock) || RepeatedHere(old(recent), n, clock)
    {
      hide ByHistory, RepeatsRecent, Run, WindowReopens, RepeatsHeader, AlikeElsewhere, RepeatedHere, Accepts;
      ghost var was := ops;
      clock := clock + elapsed;
      added := OfferNotice(n, clock);
      AcceptsByHistory(ops);
      assert ops[..|ops| - 1] == was && old(recent) == Run(was).recent;
      LastDecision(ops);
      HeaderRuleAgrees(ops);
    }

    method OfferNotice(n: Notice, now: int) returns (added: bool)
      requires Valid()
      modifies this
      ensures Valid() && ops == old(ops) + [Offers(n, now)] && clock == old(clock)
      ensures added == Accepts(ops)
    {
      ops := ops + [Offers(n, now)];
      assert ops[..|ops| - 1] == old(ops);
      var kept: seq<Entry> := [];
      for i := 0 to |recent|
        invariant kept == Kept(recent[..i], now)
      {
        assert recent[..i + 1][..i] == recent[..i];
        if Fresh(recent[i], now) { kept := kept + [recent[i]]; }
      }
      assert recent[..|recent|] == recent;
      recent := kept;
      if IsSeen(recent, n) { return false; }
      recent := recent + [Entry(n, now)];
      if |pending| >= PENDING_LIMIT { pending := pending[1..]; }
      pending := pending + [n];
      added := true;
    }

    method TakeAll() returns (taken: seq<Notice>)
      requires Valid()
      modifies this
      ensures Valid() && ops == old(ops) + [Takes] && (old(Posted()) ==> Posted())
      ensures taken == Newest(SinceTake(old(ops)))
    {
      PendingIsNewest(ops);
      ops := ops + [Takes];
      assert ops[..|ops| - 1] == old(ops);
      taken := pending;
      pending := [];
    }
  }
}
