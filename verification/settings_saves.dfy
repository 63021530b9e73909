/** Saving the settings file: revisions shown and revisions known to be on disk, over every
    interleaving of submits, writer batches, collections, rejections and the retry at shutdown. */
module SettingsSaves {
  import opened Wrappers
  import opened BatchWriter

  datatype Settings = Settings(text: string)

  /** What config.toml holds. A save that did not report success may leave it in any state. */
  datatype File = Untouched | Holds(settings: Settings) | Unsure

  /** Answers of the surroundings to one enqueue: whether the writer's budget has room, and, with no
      writer, whether the immediate save succeeded and what a failed one left behind. */
  datatype Env = Env(room: bool, ok: bool, leftover: File)

  /** reply names the submit being answered; None is the retry at shutdown, which answers nobody. */
  datatype PendingSave = PendingSave(revision: nat, seq_: nat, reply: Option<nat>)
  datatype SettledSave = SettledSave(reply: Option<nat>, saved: bool)

  datatype State = State(
    hasQueue: bool,
    visible: nat, committed: nat, latest: Option<Settings>,
    pending: seq<PendingSave>, settled: seq<SettledSave>,
    retried: bool, dirtySince: Option<nat>,
    // the writer
    entries: seq<Entry<Settings>>, slots: map<nat, Completion>, nextSeq: nat, admitting: bool,
    // the file, and the history the properties speak of
    file: File, submitted: seq<Settings>, delivered: seq<SettledSave>, written: set<nat>)

  function Init(hasQueue: bool, file: File): State {
    State(hasQueue, 0, 0, None, [], [], false, None, [], map[], 0, true, file, [], [], {})
  }

  // ---------------------------------------------------------------- transitions

  function Confirm(s: State, revision: nat): State {
    var c := if revision > s.committed then revision else s.committed;
    s.(committed := c, dirtySince := if c >= s.visible then None else s.dirtySince)
  }

  function Enqueue(s: State, revision: nat, settings: Settings, reply: Option<nat>, env: Env): State {
    if !s.hasQueue then
      var s1 := s.(file := if env.ok then Holds(settings) else env.leftover,
                   written := if env.ok then s.written + {revision} else s.written,
                   settled := s.settled + [SettledSave(reply, env.ok)]);
      if env.ok then Confirm(s1, revision) else s1
    else if s.admitting && env.room then
      s.(nextSeq := s.nextSeq + 1,
         entries := s.entries + [Entry(s.nextSeq + 1, SaveSettings(revision, settings))],
         pending := s.pending + [PendingSave(revision, s.nextSeq + 1, reply)])
    else s.(settled := s.settled + [SettledSave(reply, false)])
  }

  /** The new settings are applied in memory. */
  function Shown(s: State, settings: Settings, now: nat): State {
    s.(visible := s.visible + 1, latest := Some(settings), submitted := s.submitted + [settings],
       dirtySince := if s.dirtySince.None? then Some(now) else s.dirtySince)
  }

  function Submit(s: State, settings: Settings, now: nat, env: Env): State {
    var s1 := Shown(s, settings, now);
    Enqueue(s1, s1.visible, settings, Some(s1.visible), env)
  }

  function SwapRemove<T>(xs: seq<T>, i: nat): (r: seq<T>)
    requires i < |xs|
    ensures |r| == |xs| - 1
  {
    xs[i := xs[|xs| - 1]][..|xs| - 1]
  }

  /** Answers the request at position i, whose result has arrived. */
  function TakeResult(s: State, i: nat): (r: State)
    requires i < |s.pending| && s.pending[i].seq_ in s.slots
    ensures |r.pending| == |s.pending| - 1
  {
    var p := s.pending[i];
    var c := s.slots[p.seq_];
    var s1 := s.(slots := s.slots - {p.seq_}, pending := SwapRemove(s.pending, i),
                 settled := s.settled + [SettledSave(p.reply, c.Saved())]);
    if c.DoneOk? && c.revision.Some? then Confirm(s1, c.revision.value) else s1
  }

  function Collect(s: State, i: nat): State
    decreases |s.pending| - i
  {
    if i >= |s.pending| then s
    else if s.pending[i].seq_ !in s.slots then Collect(s, i + 1)
    else Collect(TakeResult(s, i), i)
  }

  function Reap(s: State): State {
    var r := Collect(s, 0);
    r.(delivered := r.delivered + r.settled, settled := [])
  }

  predicate Covered(s: State) { exists i :: 0 <= i < |s.pending| && s.pending[i].revision == s.visible }

  function Retry(s: State, env: Env): State {
    if s.retried then s
    else
      var s1 := s.(retried := true);
      if Covered(s) || s.visible <= s.committed || s.latest.None? then s1
      else Enqueue(s1, s.visible, s.latest.value, None, env)
  }

  /** A request of another kind enters the same queue. */
  function SubmitOther(s: State, key: Option<string>, env: Env): State {
    if s.hasQueue && s.admitting && env.room && key != Some(SETTINGS_KEY) then
      s.(nextSeq := s.nextSeq + 1, entries := s.entries + [Entry(s.nextSeq + 1, Other(key))])
    else s
  }

  ghost predicate IsSave(e: Entry<Settings>) { e.work.SaveSettings? }

  /** The save the batch runs, if it holds any: the last one. */
  ghost function LastSave(batch: seq<Entry<Settings>>): (l: Option<nat>)
    ensures l.None? <==> forall i :: 0 <= i < |batch| ==> !IsSave(batch[i])
    ensures l.Some? ==>
      l.value < |batch| && IsSave(batch[l.value])
        && forall i :: l.value < i < |batch| ==> !IsSave(batch[i])
  {
    if batch == [] then None
    else if IsSave(batch[|batch| - 1]) then Some(|batch| - 1)
    else LastSave(batch[..|batch| - 1])
  }

  ghost function BatchSlots(batch: seq<Entry<Settings>>, attempts: seq<Attempt>): map<nat, Completion> {
    map q | q in Seqs(batch) :: ResultAt(batch, attempts, IndexOf(batch, q))
  }

  /** The worker runs the first n entries as one batch. Where a batch ends (time, size, barriers,
      flushes) is not modelled: n is any length. */
  ghost function RunNext(s: State, n: nat, attempts: seq<Attempt>, leftover: File): State {
    if n == 0 || n > |s.entries| then s
    else
      var batch := s.entries[..n];
      var s1 := s.(entries := s.entries[n..], slots := s.slots + BatchSlots(batch, attempts));
      match LastSave(batch)
      case None => s1
      case Some(l) =>
        if Ran(batch, attempts, l).DoneOk? then
          s1.(file := Holds(batch[l].work.settings), written := s.written + {batch[l].work.revision})
        else s1.(file := leftover)
  }

  function Close(s: State): State { s.(admitting := false) }

  /** The worker is gone: everything still queued is lost. */
  ghost function WorkerEnds(s: State): State {
    s.(admitting := false, entries := [], slots := s.slots + map q | q in Seqs(s.entries) :: Lost)
  }

  datatype Event =
    | DoSubmit(settings: Settings, now: nat, env: Env)
    | DoCollect
    | DoReap
    | DoRetry(env: Env)
    | DoOther(key: Option<string>, env: Env)
    | DoBatch(n: nat, attempts: seq<Attempt>, leftover: File)
    | DoClose
    | DoWorkerEnds

  ghost function Step(s: State, e: Event): State {
    match e
    case DoSubmit(x, now, env) => Submit(s, x, now, env)
    case DoCollect => Collect(s, 0)
    case DoReap => Reap(s)
    case DoRetry(env) => Retry(s, env)
    case DoOther(key, env) => SubmitOther(s, key, env)
    case DoBatch(n, attempts, leftover) => RunNext(s, n, attempts, leftover)
    case DoClose => Close(s)
    case DoWorkerEnds => WorkerEnds(s)
  }

  ghost function Run(s: State, events: seq<Event>): State {
    if events == [] then s else Step(Run(s, events[..|events| - 1]), events[|events| - 1])
  }

  // ---------------------------------------------------------------- the invariant

  ghost predicate WrittenSince(s: State, r: nat) { exists w :: w in s.written && w >= r }

  ghost predicate Basic(s: State) {
    && s.committed <= s.visible == |s.submitted|
    && s.latest == (if s.visible == 0 then None else Some(s.submitted[s.visible - 1]))
    && (!s.hasQueue ==> s.entries == [] && s.pending == [])
    && (forall r :: r in s.written ==> 1 <= r <= s.visible)
    && (s.committed == 0 || s.committed in s.written)
    && (s.dirtySince.None? <==> s.committed == s.visible)
  }

  ghost predicate QueueOk(s: State) {
    && (forall i, j :: 0 <= i < j < |s.entries| ==> s.entries[i].seq_ < s.entries[j].seq_)
    && (forall i :: 0 <= i < |s.entries| ==> s.entries[i].seq_ <= s.nextSeq && s.entries[i].seq_ !in s.slots)
    && (forall i :: 0 <= i < |s.entries| ==> EntryOk(s, s.entries[i]))
    && (forall i, j :: 0 <= i < j < |s.entries| && IsSave(s.entries[i]) && IsSave(s.entries[j]) ==>
          s.entries[i].work.revision < s.entries[j].work.revision)
    && (forall q :: q in s.slots ==> q <= s.nextSeq)
  }

  ghost predicate EntryOk(s: State, e: Entry<Settings>) {
    if IsSave(e) then 1 <= e.work.revision <= |s.submitted| && e.work.settings == s.submitted[e.work.revision - 1]
    else e.work.otherKey != Some(SETTINGS_KEY)
  }

  /** A result that has arrived says no more than what was written. */
  ghost predicate ResultOk(s: State, p: PendingSave, c: Completion) {
    match c
    case DoneOk(r) => r == Some(p.revision) && p.revision in s.written
    case Superseded(_, o) => o.Saved() ==> WrittenSince(s, p.revision + 1)
    case _ => true
  }

  ghost predicate Queued(s: State, p: PendingSave) {
    exists i :: 0 <= i < |s.entries| && s.entries[i].seq_ == p.seq_ && IsSave(s.entries[i])
      && s.entries[i].work.revision == p.revision
  }

  ghost predicate PendingOk(s: State) {
    && (forall i, j :: 0 <= i < j < |s.pending| ==> s.pending[i].seq_ != s.pending[j].seq_)
    && (forall i :: 0 <= i < |s.pending| ==> OnePendingOk(s, s.pending[i]))
    && (forall i :: 0 <= i < |s.entries| && IsSave(s.entries[i]) ==> HasPending(s, s.entries[i]))
  }

  ghost predicate OnePendingOk(s: State, p: PendingSave) {
    && 1 <= p.revision <= s.visible && p.seq_ <= s.nextSeq
    && (p.reply.Some? ==> p.reply.value == p.revision)
    && (if p.seq_ in s.slots then ResultOk(s, p, s.slots[p.seq_]) else Queued(s, p))
  }

  ghost predicate HasPending(s: State, e: Entry<Settings>)
    requires IsSave(e)
  {
    exists p :: p in s.pending && p.seq_ == e.seq_ && p.revision == e.work.revision
  }

  ghost predicate RepliesTrue(s: State, xs: seq<SettledSave>) {
    forall i :: 0 <= i < |xs| && xs[i].saved && xs[i].reply.Some? ==> WrittenSince(s, xs[i].reply.value)
  }

  /** The latest revision was written, and that is known or about to be collected. */
  ghost predicate LatestWritten(s: State) {
    s.visible > 0 && (s.committed == s.visible || exists i :: 0 <= i < |s.pending| && Confirms(s, s.pending[i]))
  }

  ghost predicate Confirms(s: State, p: PendingSave) {
    p.seq_ in s.slots && s.slots[p.seq_] == DoneOk(Some(s.visible))
  }

  ghost predicate NoSaves(entries: seq<Entry<Settings>>) { forall i :: 0 <= i < |entries| ==> !IsSave(entries[i]) }

  ghost predicate Durable(s: State) {
    LatestWritten(s) ==> s.latest.Some? && s.file == Holds(s.latest.value) && NoSaves(s.entries)
  }

  // Answers still owed, waiting to be handed over, and handed over.
  ghost function Owed(ps: seq<PendingSave>): multiset<Option<nat>> {
    multiset(seq(|ps|, i requires 0 <= i < |ps| => ps[i].reply))
  }
  ghost function Answered(xs: seq<SettledSave>): multiset<Option<nat>> {
    multiset(seq(|xs|, i requires 0 <= i < |xs| => xs[i].reply))
  }
  ghost function Replies(s: State): multiset<Option<nat>> {
    Owed(s.pending) + Answered(s.settled) + Answered(s.delivered)
  }

  /** Every submit is owed or has been given exactly one answer. */
  ghost predicate OneReplyEach(s: State) {
    forall r :: Replies(s)[Some(r)] == if 1 <= r <= s.visible then 1 else 0
  }

  ghost predicate Inv(s: State) {
    && Basic(s) && QueueOk(s) && PendingOk(s)
    && RepliesTrue(s, s.settled) && RepliesTrue(s, s.delivered)
    && Durable(s) && OneReplyEach(s)
  }

  // ---------------------------------------------------------------- every step keeps it

  ghost predicate Core(s: State) {
    Basic(s) && QueueOk(s) && PendingOk(s) && RepliesTrue(s, s.settled) && RepliesTrue(s, s.delivered)
  }

  lemma InitInv(hasQueue: bool, file: File)
    ensures Inv(Init(hasQueue, file))
  {}

  lemma OwedMore(ps: seq<PendingSave>, p: PendingSave)
    ensures Owed(ps + [p]) == Owed(ps) + multiset{p.reply}
  {
    var a, b := seq(|ps|, i requires 0 <= i < |ps| => ps[i].reply),
      seq(|ps| + 1, i requires 0 <= i < |ps| + 1 => (ps + [p])[i].reply);
    assert b == a + [p.reply];
  }

  lemma AnsweredMore(xs: seq<SettledSave>, x: SettledSave)
    ensures Answered(xs + [x]) == Answered(xs) + multiset{x.reply}
  {
    var a, b := seq(|xs|, i requires 0 <= i < |xs| => xs[i].reply),
      seq(|xs| + 1, i requires 0 <= i < |xs| + 1 => (xs + [x])[i].reply);
    assert b == a + [x.reply];
  }

  lemma AnsweredJoin(xs: seq<SettledSave>, ys: seq<SettledSave>)
    ensures Answered(xs + ys) == Answered(xs) + Answered(ys)
  {
    var a, b := seq(|xs|, i requires 0 <= i < |xs| => xs[i].reply), seq(|ys|, i requires 0 <= i < |ys| => ys[i].reply);
    assert seq(|xs + ys|, i requires 0 <= i < |xs + ys| => (xs + ys)[i].reply) == a + b;
  }

  lemma OwedLess(ps: seq<PendingSave>, i: nat)
    requires i < |ps|
    ensures Owed(ps) == Owed(SwapRemove(ps, i)) + multiset{ps[i].reply}
  {
    var r := SwapRemove(ps, i);
    var a := seq(|ps|, k requires 0 <= k < |ps| => ps[k].reply);
    var b := seq(|r|, k requires 0 <= k < |r| => r[k].reply);
    assert b == SwapRemove(a, i);
    SwapRemoveMultiset(a, i);
  }

  lemma SwapRemoveMultiset<T>(xs: seq<T>, i: nat)
    requires i < |xs|
    ensures multiset(xs) == multiset(SwapRemove(xs, i)) + multiset{xs[i]}
  {
    var last := |xs| - 1;
    assert xs == xs[..last] + [xs[last]];
    if i < last {
      assert SwapRemove(xs, i) == xs[..last][i := xs[last]];
    } else {
      assert SwapRemove(xs, i) == xs[..last];
    }
  }

  /** Putting the latest revision on its way, when nothing for it is on its way yet. */
  lemma EnqueueCore(s: State, reply: Option<nat>, env: Env)
    requires Core(s) && s.visible > s.committed && !Covered(s)
    requires reply.Some? ==> reply.value == s.visible
    ensures var r := Enqueue(s, s.visible, s.submitted[s.visible - 1], reply, env);
            Core(r) && Durable(r) && Replies(r) == Replies(s) + multiset{reply} && r.visible == s.visible
  {
    hide QueueOk, PendingOk, RepliesTrue, LatestWritten, Replies, Durable, Covered, NoSaves;
    NotWrittenYet(s);
    if !s.hasQueue {
      EnqueueNow(s, reply, env);
    } else if s.admitting && env.room {
      EnqueueQueued(s, reply, env);
    } else {
      EnqueueRefused(s, reply, env);
    }
  }

  lemma NotWrittenYet(s: State)
    requires PendingOk(s) && s.visible > s.committed && !Covered(s)
    ensures !LatestWritten(s)
  {
    forall i | 0 <= i < |s.pending| ensures !Confirms(s, s.pending[i]) {
      assert OnePendingOk(s, s.pending[i]);
    }
  }

  lemma EnqueueNow(s: State, reply: Option<nat>, env: Env)
    requires Core(s) && s.visible > s.committed && !LatestWritten(s) && !s.hasQueue
    requires reply.Some? ==> reply.value == s.visible
    ensures var r := Enqueue(s, s.visible, s.submitted[s.visible - 1], reply, env);
            Core(r) && Durable(r) && Replies(r) == Replies(s) + multiset{reply}
  {
    hide Owed, Answered, LatestWritten, RepliesTrue, WrittenSince;
    var r := Enqueue(s, s.visible, s.submitted[s.visible - 1], reply, env);
    AnsweredMore(s.settled, SettledSave(reply, env.ok));
    KeepsReplies(s, r, s.settled);
    KeepsReplies(s, r, s.delivered);
    if env.ok { WrittenNow(r, s.visible); }
    RepliesAdd(r, s.settled, SettledSave(reply, env.ok));
    if !env.ok { SameLatest(s, r); }
    assert forall q :: q in r.slots ==> q in s.slots;
    assert PendingOk(r);
  }

  lemma WrittenNow(s: State, r: nat)
    requires r in s.written
    ensures WrittenSince(s, r)
  {}

  lemma RepliesAdd(s: State, xs: seq<SettledSave>, x: SettledSave)
    requires RepliesTrue(s, xs) && (x.saved && x.reply.Some? ==> WrittenSince(s, x.reply.value))
    ensures RepliesTrue(s, xs + [x])
  {}

  lemma RepliesJoin(s: State, xs: seq<SettledSave>, ys: seq<SettledSave>)
    requires RepliesTrue(s, xs) && RepliesTrue(s, ys)
    ensures RepliesTrue(s, xs + ys)
  {}

  lemma NoReplies(s: State)
    ensures RepliesTrue(s, []) && Answered([]) == multiset{}
  {}

  lemma EnqueueRefused(s: State, reply: Option<nat>, env: Env)
    requires Core(s) && s.visible > s.committed && !LatestWritten(s) && s.hasQueue && !(s.admitting && env.room)
    ensures var r := Enqueue(s, s.visible, s.submitted[s.visible - 1], reply, env);
            Core(r) && Durable(r) && Replies(r) == Replies(s) + multiset{reply}
  {
    hide Owed, Answered, LatestWritten, RepliesTrue, QueueOk, PendingOk;
    var r := Enqueue(s, s.visible, s.submitted[s.visible - 1], reply, env);
    AnsweredMore(s.settled, SettledSave(reply, false));
    KeepsReplies(s, r, s.settled);
    KeepsReplies(s, r, s.delivered);
    RepliesAdd(r, s.settled, SettledSave(reply, false));
    SameLatest(s, r);
    SamePending(s, r);
  }

  lemma EnqueueQueued(s: State, reply: Option<nat>, env: Env)
    requires Core(s) && s.visible > s.committed && !LatestWritten(s) && !Covered(s) && s.hasQueue && s.admitting
      && env.room
    requires reply.Some? ==> reply.value == s.visible
    ensures var r := Enqueue(s, s.visible, s.submitted[s.visible - 1], reply, env);
            Core(r) && Durable(r) && Replies(r) == Replies(s) + multiset{reply}
  {
    hide Owed, Answered, RepliesTrue, QueueOk, PendingOk, Covered;
    var r := Enqueue(s, s.visible, s.submitted[s.visible - 1], reply, env);
    var p := PendingSave(s.visible, s.nextSeq + 1, reply);
    OwedMore(s.pending, p);
    QueueGrows(s, reply, env);
    KeepsReplies(s, r, s.settled);
    KeepsReplies(s, r, s.delivered);
    SlotsInPast(s);
    forall i | 0 <= i < |r.pending| ensures !Confirms(r, r.pending[i]) {
      if i < |s.pending| { assert !Confirms(s, s.pending[i]); }
    }
  }

  lemma SlotsInPast(s: State)
    requires QueueOk(s)
    ensures s.nextSeq + 1 !in s.slots
  {}

  lemma KeepsReplies(s: State, r: State, xs: seq<SettledSave>)
    requires RepliesTrue(s, xs) && s.written <= r.written
    ensures RepliesTrue(r, xs)
  {
    forall i | 0 <= i < |xs| && xs[i].saved && xs[i].reply.Some? ensures WrittenSince(r, xs[i].reply.value) {
      assert WrittenSince(s, xs[i].reply.value);
    }
  }

  /** Nothing PendingOk and QueueOk speak of has changed. */
  lemma SamePending(s: State, r: State)
    requires QueueOk(s) && PendingOk(s)
    requires r.visible == s.visible && r.submitted == s.submitted && r.pending == s.pending && r.entries == s.entries
    requires r.slots == s.slots && r.nextSeq == s.nextSeq && r.written == s.written
    ensures QueueOk(r) && PendingOk(r)
  {
    hide EntryOk, OnePendingOk, HasPending;
    forall i | 0 <= i < |s.entries| ensures EntryOk(r, r.entries[i]) { EntrySame(s, r, s.entries[i]); }
    forall i | 0 <= i < |s.pending| ensures OnePendingOk(r, r.pending[i]) { OnePendingSame(s, r, s.pending[i]); }
    forall i | 0 <= i < |s.entries| && IsSave(s.entries[i]) ensures HasPending(r, r.entries[i]) {
      HasPendingSame(s, r, s.entries[i]);
    }
  }

  lemma EntrySame(s: State, r: State, e: Entry<Settings>)
    requires EntryOk(s, e) && r.visible == s.visible && r.submitted == s.submitted && r.nextSeq == s.nextSeq
      && r.slots == s.slots
    ensures EntryOk(r, e)
  {}

  lemma OnePendingSame(s: State, r: State, p: PendingSave)
    requires OnePendingOk(s, p) && r.visible == s.visible && r.nextSeq == s.nextSeq && r.written == s.written
      && r.slots == s.slots && r.entries == s.entries
    ensures OnePendingOk(r, p)
  {
    OnePendingKept(s, r, p);
  }

  lemma HasPendingSame(s: State, r: State, e: Entry<Settings>)
    requires IsSave(e) && HasPending(s, e) && r.pending == s.pending
    ensures HasPending(r, e)
  {}

  lemma OnePendingKept(s: State, r: State, p: PendingSave)
    requires OnePendingOk(s, p) && s.visible <= r.visible && s.nextSeq <= r.nextSeq && s.written <= r.written
    requires p.seq_ in s.slots ==> p.seq_ in r.slots && r.slots[p.seq_] == s.slots[p.seq_]
    requires p.seq_ !in s.slots ==> p.seq_ !in r.slots && Queued(r, p)
    ensures OnePendingOk(r, p)
  {
    if p.seq_ in s.slots && s.slots[p.seq_].Superseded? && s.slots[p.seq_].outcome.Saved() {
      assert WrittenSince(s, p.revision + 1);
    }
  }

  lemma QueueGrows(s: State, reply: Option<nat>, env: Env)
    requires Core(s) && s.visible > s.committed && !Covered(s) && s.hasQueue && s.admitting && env.room
    requires reply.Some? ==> reply.value == s.visible
    ensures var r := Enqueue(s, s.visible, s.submitted[s.visible - 1], reply, env); QueueOk(r) && PendingOk(r)
  {
    hide RepliesTrue;
    var e, p := Entry(s.nextSeq + 1, SaveSettings(s.visible, s.submitted[s.visible - 1])),
      PendingSave(s.visible, s.nextSeq + 1, reply);
    RevisionsBelow(s);
    EntryAppended(s, e, s.(nextSeq := s.nextSeq + 1, entries := s.entries + [e], pending := s.pending + [p]));
    PendingAppended(s, e, p);
  }

  lemma RevisionsBelow(s: State)
    requires QueueOk(s) && PendingOk(s) && !Covered(s)
    ensures forall i :: 0 <= i < |s.entries| && IsSave(s.entries[i]) ==> s.entries[i].work.revision < s.visible
  {
    hide QueueOk, EntryOk, HasPending;
    forall i | 0 <= i < |s.entries| && IsSave(s.entries[i]) ensures s.entries[i].work.revision < s.visible {
      RevisionBelow(s, s.entries[i]);
    }
  }

  lemma RevisionBelow(s: State, e: Entry<Settings>)
    requires PendingOk(s) && !Covered(s) && IsSave(e) && HasPending(s, e)
    ensures e.work.revision < s.visible
  {
    var q :| q in s.pending && q.seq_ == e.seq_ && q.revision == e.work.revision;
    var k :| 0 <= k < |s.pending| && s.pending[k] == q;
    assert OnePendingOk(s, s.pending[k]);
    assert s.pending[k].revision != s.visible;
  }

  /** The queue with one more entry at its end. */
  lemma EntryAppended(s: State, e: Entry<Settings>, r: State)
    requires QueueOk(s) && e.seq_ == s.nextSeq + 1 == r.nextSeq && r.entries == s.entries + [e]
    requires r.slots == s.slots && r.submitted == s.submitted && EntryOk(s, e)
    requires IsSave(e) ==>
      forall i :: 0 <= i < |s.entries| && IsSave(s.entries[i]) ==> s.entries[i].work.revision < e.work.revision
    ensures QueueOk(r)
  {
    forall i | 0 <= i < |r.entries| ensures EntryOk(r, r.entries[i]) && r.entries[i].seq_ !in r.slots {
      if i < |s.entries| { assert EntryOk(s, s.entries[i]); } else { assert EntryOk(s, e); }
    }
  }

  lemma StillQueued(s: State, r: State, p: PendingSave)
    requires Queued(s, p) && s.entries <= r.entries
    ensures Queued(r, p)
  {
    var k :| 0 <= k < |s.entries| && s.entries[k].seq_ == p.seq_ && IsSave(s.entries[k])
      && s.entries[k].work.revision == p.revision;
    assert r.entries[k] == s.entries[k];
  }

  lemma PendingAppended(s: State, e: Entry<Settings>, p: PendingSave)
    requires QueueOk(s) && PendingOk(s) && 1 <= p.revision <= s.visible
      && (p.reply.Some? ==> p.reply.value == p.revision)
    requires IsSave(e) && e.seq_ == p.seq_ == s.nextSeq + 1 && e.work.revision == p.revision
    ensures PendingOk(s.(nextSeq := s.nextSeq + 1, entries := s.entries + [e], pending := s.pending + [p]))
  {
    var r := s.(nextSeq := s.nextSeq + 1, entries := s.entries + [e], pending := s.pending + [p]);
    forall i | 0 <= i < |s.pending| ensures OnePendingOk(r, s.pending[i]) && s.pending[i].seq_ != p.seq_ {
      assert OnePendingOk(s, s.pending[i]);
      if s.pending[i].seq_ !in s.slots { StillQueued(s, r, s.pending[i]); }
      OnePendingKept(s, r, s.pending[i]);
    }
    assert OnePendingOk(r, p) by { assert r.entries[|s.entries|] == e; }
    forall i | 0 <= i < |r.entries| && IsSave(r.entries[i]) ensures HasPending(r, r.entries[i]) {
      if i < |s.entries| {
        assert HasPending(s, s.entries[i]);
        var q :| q in s.pending && q.seq_ == s.entries[i].seq_ && q.revision == s.entries[i].work.revision;
        assert q in r.pending;
      } else {
        assert p in r.pending;
      }
    }
  }

  /** A new revision is shown: everything on record stays as it was. */
  lemma ShownCore(s: State, x: Settings, now: nat)
    requires Core(s)
    ensures var s1 := Shown(s, x, now); Core(s1) && !Covered(s1) && Replies(s1) == Replies(s)
  {
    hide RepliesTrue, Owed, Answered, QueueOk, PendingOk;
    var s1 := Shown(s, x, now);
    ShownQueue(s, x, now);
    ShownPending(s, x, now);
    KeepsReplies(s, s1, s.settled);
    KeepsReplies(s, s1, s.delivered);
  }

  lemma ShownQueue(s: State, x: Settings, now: nat)
    requires QueueOk(s)
    ensures QueueOk(Shown(s, x, now))
  {
    var s1 := Shown(s, x, now);
    forall i | 0 <= i < |s.entries| ensures EntryOk(s1, s1.entries[i]) { assert EntryOk(s, s.entries[i]); }
  }

  lemma ShownPending(s: State, x: Settings, now: nat)
    requires PendingOk(s)
    ensures PendingOk(Shown(s, x, now)) && !Covered(Shown(s, x, now))
  {
    var s1 := Shown(s, x, now);
    forall i | 0 <= i < |s.pending| ensures OnePendingOk(s1, s1.pending[i]) && s.pending[i].revision <= s.visible {
      assert OnePendingOk(s, s.pending[i]);
      OnePendingKept(s, s1, s.pending[i]);
    }
    forall i | 0 <= i < |s.entries| && IsSave(s.entries[i]) ensures HasPending(s1, s1.entries[i]) {
      assert HasPending(s, s.entries[i]);
    }
  }

  lemma SubmitInv(s: State, x: Settings, now: nat, env: Env)
    requires Inv(s)
    ensures Inv(Submit(s, x, now, env))
  {
    hide QueueOk, PendingOk, RepliesTrue, Durable, Covered, Replies, Enqueue;
    var s1 := Shown(s, x, now);
    ShownCore(s, x, now);
    EnqueueCore(s1, Some(s1.visible), env);
  }

  lemma RetryInv(s: State, env: Env)
    requires Inv(s)
    ensures Inv(Retry(s, env))
  {
    hide QueueOk, PendingOk, RepliesTrue, LatestWritten, Covered, Owed, Answered, Enqueue;
    if !s.retried {
      var s1 := s.(retried := true);
      SamePending(s, s1);
      SameLatest(s, s1);
      KeepsReplies(s, s1, s.settled); KeepsReplies(s, s1, s.delivered);
      if !(Covered(s) || s.visible <= s.committed || s.latest.None?) {
        SameCovered(s, s1);
        EnqueueCore(s1, None, env);
      }
    }
  }

  lemma SameCovered(s: State, r: State)
    requires r.visible == s.visible && r.pending == s.pending
    ensures Covered(r) <==> Covered(s)
  {}

  lemma SameLatest(s: State, r: State)
    requires r.visible == s.visible && r.committed == s.committed && r.pending == s.pending && r.slots == s.slots
    ensures LatestWritten(r) <==> LatestWritten(s)
  {
    forall i | 0 <= i < |s.pending| ensures Confirms(r, r.pending[i]) == Confirms(s, s.pending[i]) {}
  }

  lemma OtherInv(s: State, key: Option<string>, env: Env)
    requires Inv(s)
    ensures Inv(SubmitOther(s, key, env))
  {
    hide QueueOk, PendingOk, RepliesTrue, LatestWritten, Owed, Answered;
    var r := SubmitOther(s, key, env);
    if r != s {
      var e: Entry<Settings> := Entry(s.nextSeq + 1, Other(key));
      EntryAppended(s, e, r);
      OtherPending(s, e);
      KeepsReplies(s, r, s.settled); KeepsReplies(s, r, s.delivered);
      SameLatest(s, r);
      assert Replies(r) == Replies(s);
    }
  }

  lemma OtherPending(s: State, e: Entry<Settings>)
    requires PendingOk(s) && !IsSave(e)
    ensures PendingOk(s.(nextSeq := s.nextSeq + 1, entries := s.entries + [e]))
  {
    var r := s.(nextSeq := s.nextSeq + 1, entries := s.entries + [e]);
    forall i | 0 <= i < |r.pending| ensures OnePendingOk(r, r.pending[i]) {
      assert OnePendingOk(s, s.pending[i]);
      if s.pending[i].seq_ !in s.slots { StillQueued(s, r, s.pending[i]); }
      OnePendingKept(s, r, s.pending[i]);
    }
    forall i | 0 <= i < |r.entries| && IsSave(r.entries[i]) ensures HasPending(r, r.entries[i]) {
      assert HasPending(s, s.entries[i]);
    }
  }

  lemma CloseInv(s: State)
    requires Inv(s)
    ensures Inv(Close(s))
  {
    var r := Close(s);
    SamePending(s, r);
    KeepsReplies(s, r, s.settled); KeepsReplies(s, r, s.delivered);
    SameLatest(s, r);
    assert Replies(r) == Replies(s);
  }

  // ---------------------------------------------------------------- collecting results

  lemma TakeResultInv(s: State, i: nat)
    requires Inv(s) && i < |s.pending| && s.pending[i].seq_ in s.slots
    ensures Inv(TakeResult(s, i))
  {
    hide QueueOk, PendingOk, Basic, Durable, OneReplyEach, RepliesTrue, WrittenSince, SwapRemove;
    var r := TakeResult(s, i);
    PendingFacts(s, i);
    TakeBasic(s, i);
    TakePending(s, r, i);
    KeepsReplies(s, r, s.settled); KeepsReplies(s, r, s.delivered);
    ReplyIsTrue(s, r, s.pending[i], s.slots[s.pending[i].seq_]);
    RepliesAdd(r, s.settled, SettledSave(s.pending[i].reply, s.slots[s.pending[i].seq_].Saved()));
    TakeDurable(s, i);
    TakeOneReply(s, i);
  }

  lemma TakeBasic(s: State, i: nat)
    requires Basic(s) && i < |s.pending| && s.pending[i].seq_ in s.slots && OnePendingOk(s, s.pending[i])
    ensures Basic(TakeResult(s, i))
  {
    hide WrittenSince, SwapRemove;
  }

  lemma TakeDurable(s: State, i: nat)
    requires Basic(s) && PendingOk(s) && Durable(s) && i < |s.pending| && s.pending[i].seq_ in s.slots
    ensures Durable(TakeResult(s, i))
  {
    hide PendingOk, LatestWritten, SwapRemove;
    TakeLatest(s, i);
  }

  lemma TakeOneReply(s: State, i: nat)
    requires OneReplyEach(s) && i < |s.pending| && s.pending[i].seq_ in s.slots
    ensures OneReplyEach(TakeResult(s, i))
  {
    hide Owed, Answered, SwapRemove;
    OwedLess(s.pending, i);
    AnsweredMore(s.settled, SettledSave(s.pending[i].reply, s.slots[s.pending[i].seq_].Saved()));
    assert Replies(TakeResult(s, i)) == Replies(s);
  }

  lemma PendingFacts(s: State, i: nat)
    requires PendingOk(s) && i < |s.pending|
    ensures OnePendingOk(s, s.pending[i])
    ensures forall a, b :: 0 <= a < b < |s.pending| ==> s.pending[a].seq_ != s.pending[b].seq_
  {}

  lemma ReplyIsTrue(s: State, r: State, p: PendingSave, c: Completion)
    requires OnePendingOk(s, p) && p.seq_ in s.slots && s.slots[p.seq_] == c && r.written == s.written
    ensures c.Saved() && p.reply.Some? ==> WrittenSince(r, p.reply.value)
  {
    if c.Saved() && p.reply.Some? && c.Superseded? {
      var w :| w in s.written && w >= p.revision + 1;
      assert w in r.written && w >= p.reply.value;
    }
  }

  /** Collecting a result says nothing about the latest revision that was not already so. */
  lemma TakeLatest(s: State, i: nat)
    requires PendingOk(s) && i < |s.pending| && s.pending[i].seq_ in s.slots
    requires s.committed <= s.visible
    ensures LatestWritten(TakeResult(s, i)) ==> LatestWritten(s)
  {
    var p := s.pending[i];
    var r := TakeResult(s, i);
    PendingFacts(s, i);
    SwapRemoved(s.pending, i);
    if LatestWritten(r) && s.committed != s.visible {
      if r.committed == r.visible {
        assert Confirms(s, s.pending[i]);
      } else {
        var k :| 0 <= k < |r.pending| && Confirms(r, r.pending[k]);
        assert r.pending[k] in s.pending;
        var j :| 0 <= j < |s.pending| && s.pending[j] == r.pending[k];
        assert Confirms(s, s.pending[j]);
      }
    }
  }

  lemma SwapRemoved(ps: seq<PendingSave>, i: nat)
    requires i < |ps|
    requires forall a, b :: 0 <= a < b < |ps| ==> ps[a].seq_ != ps[b].seq_
    ensures var r := SwapRemove(ps, i);
            && (forall p :: p in r <==> p in ps && p != ps[i])
            && (forall a, b :: 0 <= a < b < |r| ==> r[a].seq_ != r[b].seq_)
            && (forall p :: p in r ==> p.seq_ != ps[i].seq_)
  {
    var r := SwapRemove(ps, i);
    forall p | p in ps && p != ps[i] ensures p in r {
      var j :| 0 <= j < |ps| && ps[j] == p;
      assert r[if j == |ps| - 1 then i else j] == p;
    }
  }

  lemma TakePending(s: State, r: State, i: nat)
    requires QueueOk(s) && PendingOk(s) && i < |s.pending| && s.pending[i].seq_ in s.slots
    requires r.pending == SwapRemove(s.pending, i) && r.slots == s.slots - {s.pending[i].seq_}
    requires r.visible == s.visible && r.submitted == s.submitted && r.entries == s.entries
    requires r.nextSeq == s.nextSeq && r.written == s.written
    ensures QueueOk(r) && PendingOk(r)
  {
    SwapRemoved(s.pending, i);
    forall k | 0 <= k < |s.entries| ensures EntryOk(r, r.entries[k]) { assert EntryOk(s, s.entries[k]); }
    forall k | 0 <= k < |r.pending| ensures OnePendingOk(r, r.pending[k]) {
      assert r.pending[k] in s.pending;
      assert OnePendingOk(s, r.pending[k]);
      OnePendingKept(s, r, r.pending[k]);
    }
    forall k | 0 <= k < |s.entries| && IsSave(s.entries[k]) ensures HasPending(r, r.entries[k]) {
      assert HasPending(s, s.entries[k]);
      var q :| q in s.pending && q.seq_ == s.entries[k].seq_ && q.revision == s.entries[k].work.revision;
      assert q in r.pending;
    }
  }

  lemma {:induction false} CollectInv(s: State, i: nat)
    requires Inv(s)
    ensures Inv(Collect(s, i))
    decreases |s.pending| - i
  {
    if i < |s.pending| {
      if s.pending[i].seq_ !in s.slots {
        CollectInv(s, i + 1);
      } else {
        TakeResultInv(s, i);
        CollectInv(TakeResult(s, i), i);
      }
    }
  }

  lemma ReapInv(s: State)
    requires Inv(s)
    ensures Inv(Reap(s))
  {
    hide QueueOk, PendingOk, RepliesTrue, LatestWritten, Owed, Answered, Collect;
    CollectInv(s, 0);
    var c, r := Collect(s, 0), Reap(s);
    SamePending(c, r);
    SameLatest(c, r);
    AnsweredJoin(c.delivered, c.settled);
    KeepsReplies(c, r, c.settled); KeepsReplies(c, r, c.delivered);
    RepliesJoin(r, c.delivered, c.settled);
    assert RepliesTrue(r, []) && Answered([]) == multiset{} by { NoReplies(r); }
    assert Replies(r) == Replies(c);
  }

  // ---------------------------------------------------------------- running a batch

  /** Within the batch every save answers to the last one; other requests never do. */
  lemma SaveRunner(s: State, n: nat, i: nat)
    requires QueueOk(s) && n <= |s.entries| && i < n && IsSave(s.entries[i])
    ensures LastSave(s.entries[..n]) == Some(Runner(s.entries[..n], i))
  {
    var batch := s.entries[..n];
    var l := Runner(batch, i);
    assert batch[i].Key() == Some(SETTINGS_KEY) == batch[l].Key();
    assert EntryOk(s, s.entries[l]);
    forall j | l < j < |batch| ensures !IsSave(batch[j]) {
      assert batch[j].Key() != Some(SETTINGS_KEY);
    }
  }

  lemma DistinctBatch(s: State, n: nat)
    requires QueueOk(s) && n <= |s.entries|
    ensures DistinctSeqs(s.entries[..n])
  {}

  /** The slots and the queue after a batch. */
  lemma BatchSlotsAre(s: State, n: nat, attempts: seq<Attempt>, leftover: File)
    requires QueueOk(s) && 0 < n <= |s.entries|
    ensures var r := RunNext(s, n, attempts, leftover);
            && r.entries == s.entries[n..]
            && (forall q :: q in s.slots ==> q in r.slots && r.slots[q] == s.slots[q])
            && (forall q :: q in r.slots ==> q in s.slots || q in Seqs(s.entries[..n]))
            && (forall i :: 0 <= i < n ==>
              s.entries[i].seq_ in r.slots && r.slots[s.entries[i].seq_] == ResultAt(s.entries[..n], attempts, i))
  {
    hide BatchSlots, EntryOk, RunNext, ResultAt;
    var batch := s.entries[..n];
    DistinctBatch(s, n);
    BatchShape(s, n, attempts, leftover);
    assert BatchSlots(batch, attempts).Keys == Seqs(batch) by { BatchKeys(batch, attempts); }
    forall i | 0 <= i < n
      ensures s.entries[i].seq_ in Seqs(batch)
        && BatchSlots(batch, attempts)[s.entries[i].seq_] == ResultAt(batch, attempts, i) {
      assert batch[i] == s.entries[i];
      BatchSlotAt(batch, attempts, i);
    }
    forall q | q in s.slots ensures q !in Seqs(batch) {}
  }

  lemma BatchShape(s: State, n: nat, attempts: seq<Attempt>, leftover: File)
    requires 0 < n <= |s.entries|
    ensures var r := RunNext(s, n, attempts, leftover);
            r.entries == s.entries[n..] && r.slots == s.slots + BatchSlots(s.entries[..n], attempts)
  {
    hide BatchSlots, Ran, LastSave, Seqs, DistinctSeqs;
  }

  lemma BatchKeys(batch: seq<Entry<Settings>>, attempts: seq<Attempt>)
    ensures BatchSlots(batch, attempts).Keys == Seqs(batch)
  {
    hide ResultAt;
  }

  lemma BatchSlotAt(batch: seq<Entry<Settings>>, attempts: seq<Attempt>, i: nat)
    requires i < |batch| && DistinctSeqs(batch)
    ensures batch[i].seq_ in BatchSlots(batch, attempts)
      && BatchSlots(batch, attempts)[batch[i].seq_] == ResultAt(batch, attempts, i)
  {
    hide ResultAt;
    IndexOfSeq(batch, i);
  }

  /** A running save reports its own revision, or no success at all. */
  lemma RanShape(batch: seq<Entry<Settings>>, attempts: seq<Attempt>, l: nat)
    requires l < |batch| && IsSave(batch[l])
    ensures var c := Ran(batch, attempts, l);
            && (c.DoneOk? ==> c == DoneOk(Some(batch[l].work.revision)))
            && !c.Superseded? && (c.Saved() <==> c.DoneOk?) && (c.Erase().Saved() <==> c.DoneOk?)
  {
    hide Rank;
  }

  lemma QueueShrinks(s: State, n: nat, attempts: seq<Attempt>, leftover: File)
    requires QueueOk(s) && 0 < n <= |s.entries|
    ensures QueueOk(RunNext(s, n, attempts, leftover))
  {
    hide ResultAt, RunNext, EntryOk;
    var r := RunNext(s, n, attempts, leftover);
    BatchSlotsAre(s, n, attempts, leftover);
    BatchGrowsWritten(s, n, attempts, leftover);
    forall i | 0 <= i < |r.entries|
      ensures EntryOk(r, r.entries[i]) && r.entries[i].seq_ !in r.slots && r.entries[i].seq_ <= r.nextSeq {
      assert r.entries[i] == s.entries[n + i];
      SameEntryOk(s, r, s.entries[n + i]);
      assert s.entries[n + i].seq_ !in Seqs(s.entries[..n]);
    }
    forall q | q in r.slots ensures q <= r.nextSeq {}
  }

  lemma SameEntryOk(s: State, r: State, e: Entry<Settings>)
    requires EntryOk(s, e) && r.submitted == s.submitted
    ensures EntryOk(r, e)
  {}

  lemma BatchGrowsWritten(s: State, n: nat, attempts: seq<Attempt>, leftover: File)
    ensures var r := RunNext(s, n, attempts, leftover);
            && r.written >= s.written && r.visible == s.visible && r.nextSeq == s.nextSeq && r.pending == s.pending
            && r.submitted == s.submitted && r.committed == s.committed && r.latest == s.latest
            && r.settled == s.settled
            && r.delivered == s.delivered && r.hasQueue == s.hasQueue && r.dirtySince == s.dirtySince
  {
    hide ResultAt, Ran, LastSave;
  }

  /** The file after a batch. */
  lemma BatchFile(s: State, n: nat, attempts: seq<Attempt>, leftover: File)
    requires 0 < n <= |s.entries|
    ensures var batch, r := s.entries[..n], RunNext(s, n, attempts, leftover);
            match LastSave(batch)
            case None => r.file == s.file && r.written == s.written
            case Some(l) =>
              if Ran(batch, attempts, l).DoneOk?
                then r.file == Holds(batch[l].work.settings) && r.written == s.written + {batch[l].work.revision}
              else r.file == leftover && r.written == s.written
  {
    hide ResultAt, Ran, LastSave;
  }

  /** What the result of a queued save says, once its batch has run. */
  lemma BatchResult(s: State, n: nat, attempts: seq<Attempt>, leftover: File, p: PendingSave, i: nat)
    requires QueueOk(s) && 0 < n <= |s.entries| && i < n
    requires s.entries[i].seq_ == p.seq_ && IsSave(s.entries[i]) && s.entries[i].work.revision == p.revision
    ensures var r := RunNext(s, n, attempts, leftover);
            && p.seq_ in r.slots && ResultOk(r, p, r.slots[p.seq_])
            && (r.slots[p.seq_].DoneOk? ==> r.file == Holds(s.entries[i].work.settings))
  {
    hide Ran, Runner, RunNext, EntryOk, WrittenSince, Completion.Erase, Completion.Saved, Seqs;
    var batch := s.entries[..n];
    var r := RunNext(s, n, attempts, leftover);
    BatchSlotsAre(s, n, attempts, leftover);
    BatchFile(s, n, attempts, leftover);
    SaveRunner(s, n, i);
    var l := Runner(batch, i);
    assert batch[i] == s.entries[i] && batch[l] == s.entries[l];
    RanShape(batch, attempts, l);
    if l != i && Ran(batch, attempts, l).DoneOk? {
      assert batch[i].work.revision < batch[l].work.revision;
      NewerWritten(r, p.revision + 1, batch[l].work.revision);
    }
  }

  lemma NewerWritten(s: State, r: nat, w: nat)
    requires w in s.written && w >= r
    ensures WrittenSince(s, r)
  {}

  lemma BatchOnePending(s: State, n: nat, attempts: seq<Attempt>, leftover: File, p: PendingSave)
    requires QueueOk(s) && 0 < n <= |s.entries| && OnePendingOk(s, p)
    ensures OnePendingOk(RunNext(s, n, attempts, leftover), p)
  {
    hide ResultAt, QueueOk, RunNext, ResultOk;
    var r := RunNext(s, n, attempts, leftover);
    BatchGrowsWritten(s, n, attempts, leftover);
    BatchSlotsAre(s, n, attempts, leftover);
    if p.seq_ in s.slots {
      OnePendingKept(s, r, p);
    } else {
      var k :| 0 <= k < |s.entries| && s.entries[k].seq_ == p.seq_ && IsSave(s.entries[k])
        && s.entries[k].work.revision == p.revision;
      if k < n {
        BatchResult(s, n, attempts, leftover, p, k);
      } else {
        LaterUnanswered(s, n, attempts, leftover, k);
        assert r.entries[k - n] == s.entries[k];
        OnePendingKept(s, r, p);
      }
    }
  }

  lemma LaterUnanswered(s: State, n: nat, attempts: seq<Attempt>, leftover: File, k: nat)
    requires QueueOk(s) && 0 < n <= k < |s.entries|
    ensures s.entries[k].seq_ !in RunNext(s, n, attempts, leftover).slots
  {
    hide RunNext, ResultAt, EntryOk;
    BatchSlotsAre(s, n, attempts, leftover);
  }

  lemma BatchPending(s: State, n: nat, attempts: seq<Attempt>, leftover: File)
    requires QueueOk(s) && PendingOk(s) && 0 < n <= |s.entries|
    ensures PendingOk(RunNext(s, n, attempts, leftover))
  {
    hide QueueOk, RunNext, OnePendingOk, ResultAt;
    var r := RunNext(s, n, attempts, leftover);
    BatchGrowsWritten(s, n, attempts, leftover);
    BatchSlotsAre(s, n, attempts, leftover);
    forall i | 0 <= i < |r.pending| ensures OnePendingOk(r, r.pending[i]) {
      assert OnePendingOk(s, s.pending[i]);
      BatchOnePending(s, n, attempts, leftover, s.pending[i]);
    }
    forall i | 0 <= i < |r.entries| && IsSave(r.entries[i]) ensures HasPending(r, r.entries[i]) {
      assert r.entries[i] == s.entries[n + i];
      assert HasPending(s, s.entries[n + i]);
    }
  }

  lemma BatchBasic(s: State, n: nat, attempts: seq<Attempt>, leftover: File)
    requires Basic(s) && QueueOk(s) && 0 < n <= |s.entries|
    ensures Basic(RunNext(s, n, attempts, leftover))
  {
    hide RunNext, Ran, ResultAt;
    var batch := s.entries[..n];
    BatchFile(s, n, attempts, leftover);
    BatchGrowsWritten(s, n, attempts, leftover);
    if LastSave(batch).Some? {
      assert batch[LastSave(batch).value] == s.entries[LastSave(batch).value];
      assert EntryOk(s, s.entries[LastSave(batch).value]);
    }
  }

  /** A save that becomes the latest one written leaves the file right and the queue without saves. */
  lemma BatchDurable(s: State, n: nat, attempts: seq<Attempt>, leftover: File)
    requires Basic(s) && QueueOk(s) && PendingOk(s) && Durable(s) && 0 < n <= |s.entries|
    ensures Durable(RunNext(s, n, attempts, leftover))
  {
    hide RunNext, ResultAt, Ran, PendingOk, QueueOk;
    var r := RunNext(s, n, attempts, leftover);
    BatchGrowsWritten(s, n, attempts, leftover);
    BatchSlotsAre(s, n, attempts, leftover);
    if LatestWritten(s) {
      BatchFile(s, n, attempts, leftover);
      assert LastSave(s.entries[..n]).None?;
    } else if LatestWritten(r) {
      var i :| 0 <= i < |r.pending| && Confirms(r, r.pending[i]);
      PendingFacts(s, i);
      LatestOfBatch(s, n, attempts, leftover, s.pending[i], i);
    }
  }

  lemma LatestOfBatch(s: State, n: nat, attempts: seq<Attempt>, leftover: File, p: PendingSave, i: nat)
    requires Basic(s) && QueueOk(s) && 0 < n <= |s.entries| && !LatestWritten(s)
    requires i < |s.pending| && p == s.pending[i] && OnePendingOk(s, p)
      && Confirms(RunNext(s, n, attempts, leftover), p)
    ensures var r := RunNext(s, n, attempts, leftover);
      s.latest.Some? && r.file == Holds(s.latest.value) && NoSaves(r.entries)
  {
    hide RunNext, ResultAt, Ran, QueueOk;
    var r := RunNext(s, n, attempts, leftover);
    BatchGrowsWritten(s, n, attempts, leftover);
    BatchSlotsAre(s, n, attempts, leftover);
    assert p.seq_ !in s.slots by { assert !Confirms(s, s.pending[i]); }
    var k :| 0 <= k < |s.entries| && s.entries[k].seq_ == p.seq_ && IsSave(s.entries[k])
      && s.entries[k].work.revision == p.revision;
    assert k < n by { if k >= n { LaterUnanswered(s, n, attempts, leftover, k); } }
    BatchResult(s, n, attempts, leftover, p, k);
    HighestIsLast(s, k);
    forall j | 0 <= j < |r.entries| ensures !IsSave(r.entries[j]) { assert r.entries[j] == s.entries[n + j]; }
  }

  /** The save of the latest revision is the last one in the queue. */
  lemma HighestIsLast(s: State, k: nat)
    requires Basic(s) && QueueOk(s) && k < |s.entries| && IsSave(s.entries[k])
      && s.entries[k].work.revision == s.visible
    ensures forall j :: k < j < |s.entries| ==> !IsSave(s.entries[j])
    ensures s.latest.Some? && s.entries[k].work.settings == s.latest.value
  {
    assert EntryOk(s, s.entries[k]);
    forall j | k < j < |s.entries| ensures !IsSave(s.entries[j]) { assert EntryOk(s, s.entries[j]); }
  }

  lemma BatchNothing(s: State, n: nat, attempts: seq<Attempt>, leftover: File)
    requires n == 0 || n > |s.entries|
    ensures RunNext(s, n, attempts, leftover) == s
  {}

  lemma BatchInv(s: State, n: nat, attempts: seq<Attempt>, leftover: File)
    requires Inv(s)
    ensures Inv(RunNext(s, n, attempts, leftover))
  {
    hide QueueOk, PendingOk, Basic, Durable, RepliesTrue, Owed, Answered, RunNext;
    if n == 0 || n > |s.entries| { BatchNothing(s, n, attempts, leftover); }
    if 0 < n <= |s.entries| {
      var r := RunNext(s, n, attempts, leftover);
      QueueShrinks(s, n, attempts, leftover);
      BatchPending(s, n, attempts, leftover);
      BatchBasic(s, n, attempts, leftover);
      BatchDurable(s, n, attempts, leftover);
      BatchGrowsWritten(s, n, attempts, leftover);
      KeepsReplies(s, r, s.settled); KeepsReplies(s, r, s.delivered);
      assert Replies(r) == Replies(s);
    }
  }

  lemma WorkerEndsInv(s: State)
    requires Inv(s)
    ensures Inv(WorkerEnds(s))
  {
    hide RepliesTrue, Owed, Answered, SwapRemove;
    var r := WorkerEnds(s);
    forall i | 0 <= i < |r.pending| ensures OnePendingOk(r, r.pending[i]) {
      assert OnePendingOk(s, s.pending[i]);
      if s.pending[i].seq_ in s.slots { OnePendingKept(s, r, s.pending[i]); }
    }
    KeepsReplies(s, r, s.settled); KeepsReplies(s, r, s.delivered);
    forall i | 0 <= i < |r.pending| && Confirms(r, r.pending[i]) ensures Confirms(s, s.pending[i]) {}
    assert Replies(r) == Replies(s);
  }

  lemma StepInv(s: State, e: Event)
    requires Inv(s)
    ensures Inv(Step(s, e))
  {
    hide Inv, Submit, Collect, Reap, Retry, SubmitOther, RunNext, Close, WorkerEnds;
    match e
    case DoSubmit(x, now, env) => SubmitInv(s, x, now, env);
    case DoCollect => CollectInv(s, 0);
    case DoReap => ReapInv(s);
    case DoRetry(env) => RetryInv(s, env);
    case DoOther(key, env) => OtherInv(s, key, env);
    case DoBatch(n, attempts, leftover) => BatchInv(s, n, attempts, leftover);
    case DoClose => CloseInv(s);
    case DoWorkerEnds => WorkerEndsInv(s);
  }

  lemma {:induction false} RunInv(hasQueue: bool, file: File, events: seq<Event>)
    ensures Inv(Run(Init(hasQueue, file), events))
  {
    hide Inv, Step;
    if events == [] {
      InitInv(hasQueue, file);
    } else {
      RunInv(hasQueue, file, events[..|events| - 1]);
      StepInv(Run(Init(hasQueue, file), events[..|events| - 1]), events[|events| - 1]);
    }
  }

  // ---------------------------------------------------------------- main results

  /** Whenever the committed revision is the visible one, the file holds exactly the settings submitted
      last, whatever failed, panicked or was lost on the way. */
  lemma CommittedIsOnDisk(hasQueue: bool, file: File, events: seq<Event>)
    ensures var s := Run(Init(hasQueue, file), events);
            s.committed == s.visible > 0 ==> |s.submitted| == s.visible && s.file == Holds(s.submitted[s.visible - 1])
  {
    hide Run, QueueOk, PendingOk, RepliesTrue, OneReplyEach;
    RunInv(hasQueue, file, events);
  }

  /** committed never passes visible, and names a revision whose save really replaced the file;
      nothing is marked dirty exactly when nothing is unsaved. */
  lemma CommittedWasWritten(hasQueue: bool, file: File, events: seq<Event>)
    ensures var s := Run(Init(hasQueue, file), events);
            && s.committed <= s.visible && (s.committed > 0 ==> s.committed in s.written)
            && (s.dirtySince.None? <==> s.committed == s.visible)
  {
    hide Run, QueueOk, PendingOk, RepliesTrue, OneReplyEach, Durable;
    RunInv(hasQueue, file, events);
  }

  ghost function Given(xs: seq<SettledSave>, r: nat): nat { Answered(xs)[Some(r)] }

  /** No submit is answered twice; once nothing is pending or waiting, each has been answered once. */
  lemma EverySubmitAnsweredOnce(hasQueue: bool, file: File, events: seq<Event>, r: nat)
    ensures var s := Run(Init(hasQueue, file), events);
            && Given(s.delivered, r) <= 1
            && (s.pending == [] && s.settled == [] ==> Given(s.delivered, r) == if 1 <= r <= s.visible then 1 else 0)
  {
    hide Run, QueueOk, PendingOk, RepliesTrue, Durable, Basic;
    RunInv(hasQueue, file, events);
    var s := Run(Init(hasQueue, file), events);
    assert Replies(s)[Some(r)]
      == Owed(s.pending)[Some(r)] + Answered(s.settled)[Some(r)] + Answered(s.delivered)[Some(r)];
  }

  /** A submit told that its settings are saved was: its revision or a newer one replaced the file. */
  lemma SuccessIsTrue(hasQueue: bool, file: File, events: seq<Event>, i: nat)
    requires i < |Run(Init(hasQueue, file), events).delivered|
    ensures var s := Run(Init(hasQueue, file), events);
            s.delivered[i].saved && s.delivered[i].reply.Some? ==>
              exists w :: w in s.written && w >= s.delivered[i].reply.value
  {
    hide Run, QueueOk, PendingOk, OneReplyEach, Durable, Basic;
    RunInv(hasQueue, file, events);
    var s := Run(Init(hasQueue, file), events);
    assert s.delivered[i].saved && s.delivered[i].reply.Some? ==> WrittenSince(s, s.delivered[i].reply.value);
  }

  /** A replaced save reports success only when a newer one was written, and confirms nothing itself. */
  lemma SupersededConfirmsNothing(s: State, i: nat)
    requires Inv(s) && i < |s.pending| && s.pending[i].seq_ in s.slots && s.slots[s.pending[i].seq_].Superseded?
    ensures var r := TakeResult(s, i);
            && r.committed == s.committed && r.dirtySince == s.dirtySince
            && (r.settled[|s.settled|].saved ==> exists w :: w in s.written && w > s.pending[i].revision)
  {
    hide QueueOk, RepliesTrue, Durable, OneReplyEach, Basic;
    PendingFacts(s, i);
    if s.slots[s.pending[i].seq_].Saved() {
      var w :| w in s.written && w >= s.pending[i].revision + 1;
      assert w in s.written && w > s.pending[i].revision;
    }
  }

  /** The requests a collection answers, in the order it reaches them. */
  ghost function Taken(s: State, i: nat): seq<PendingSave>
    decreases |s.pending| - i
  {
    if i >= |s.pending| then []
    else if s.pending[i].seq_ !in s.slots then Taken(s, i + 1)
    else [s.pending[i]] + Taken(TakeResult(s, i), i)
  }

  ghost function Settle(s: State, p: PendingSave): SettledSave
    requires p.seq_ in s.slots
  {
    SettledSave(p.reply, s.slots[p.seq_].Saved())
  }

  ghost function Confirmed(s: State, p: PendingSave): nat
    requires p.seq_ in s.slots
  {
    var c := s.slots[p.seq_];
    if c.DoneOk? && c.revision.Some? then c.revision.value else 0
  }

  /** taken is exactly what was pending with a result; the rest still waits. */
  ghost predicate PendingSplit(s: State, i: nat, r: State, taken: seq<PendingSave>) {
    && multiset(s.pending) == multiset(r.pending) + multiset(taken)
    && (forall p :: p in taken ==> p.seq_ in s.slots)
    && i <= |r.pending| && i <= |s.pending| && r.pending[..i] == s.pending[..i]
    && (forall k :: i <= k < |r.pending| ==> r.pending[k].seq_ !in s.slots)
    && r.slots.Keys == s.slots.Keys - (set p | p in taken :: p.seq_)
  }

  /** Each of them was answered once, in order. */
  ghost predicate SettledBy(s: State, r: State, taken: seq<PendingSave>) {
    && |r.settled| == |s.settled| + |taken| && s.settled <= r.settled
    && (forall k :: 0 <= k < |taken| && taken[k].seq_ in s.slots ==> r.settled[|s.settled| + k] == Settle(s, taken[k]))
  }

  /** committed is the largest revision directly confirmed, before or now. */
  ghost predicate CommittedBy(s: State, r: State, taken: seq<PendingSave>) {
    && r.committed >= s.committed
    && (forall p :: p in taken && p.seq_ in s.slots ==> Confirmed(s, p) <= r.committed)
    && (r.committed == s.committed || exists p :: p in taken && p.seq_ in s.slots && Confirmed(s, p) == r.committed)
  }

  ghost predicate CollectFrom(s: State, i: nat, r: State, taken: seq<PendingSave>) {
    PendingSplit(s, i, r, taken) && SettledBy(s, r, taken) && CommittedBy(s, r, taken)
  }

  /** One collection visits every pending request once although removal swaps the last one forward. */
  lemma {:induction false} CollectSpec(s: State, i: nat)
    requires forall a, b :: 0 <= a < b < |s.pending| ==> s.pending[a].seq_ != s.pending[b].seq_
    requires i <= |s.pending|
    ensures CollectFrom(s, i, Collect(s, i), Taken(s, i))
    decreases |s.pending| - i
  {
    if i < |s.pending| {
      if s.pending[i].seq_ !in s.slots {
        CollectSpec(s, i + 1);
        var r := Collect(s, i);
        assert r.pending[..i + 1][..i] == s.pending[..i + 1][..i];
        assert r.pending[i] == r.pending[..i + 1][i];
      } else {
        var s1 := TakeResult(s, i);
        SwapRemoved(s.pending, i);
        SwapRemoveMultiset(s.pending, i);
        CollectSpec(s1, i);
        CollectJoin(s, i, Collect(s, i), Taken(s1, i));
      }
    }
  }

  /** The revisions that event e confirms directly: by their own result, or by a save without a writer. */
  ghost function ConfirmedIn(s: State, e: Event): set<nat> {
    match e
    case DoSubmit(_, _, env) => if !s.hasQueue && env.ok then {s.visible + 1} else {}
    case DoRetry(env) =>
      if !s.hasQueue && env.ok && !s.retried && !Covered(s) && s.committed < s.visible && s.latest.Some?
        then {s.visible} else {}
    case DoCollect => set p | p in Taken(s, 0) && p.seq_ in s.slots :: Confirmed(s, p)
    case DoReap => set p | p in Taken(s, 0) && p.seq_ in s.slots :: Confirmed(s, p)
    case _ => {}
  }

  ghost function ConfirmedSoFar(s: State, events: seq<Event>): set<nat> {
    if events == [] then {}
    else ConfirmedSoFar(s, events[..|events| - 1]) + ConfirmedIn(Run(s, events[..|events| - 1]), events[|events| - 1])
  }

  /** c is raised to the largest of xs, if that is larger. */
  ghost predicate Raised(before: nat, c: nat, xs: set<nat>) {
    c >= before && (forall x :: x in xs ==> x <= c) && (c == before || c in xs)
  }

  lemma StepRaises(s: State, e: Event)
    requires Inv(s)
    ensures Raised(s.committed, Step(s, e).committed, ConfirmedIn(s, e))
  {
    hide Collect, Taken, Covered, Ran, LastSave, BatchSlots, Seqs, QueueOk, RepliesTrue, Durable, OneReplyEach,
      OnePendingOk, HasPending;
    match e
    case DoCollect => CollectRaises(s);
    case DoReap => CollectRaises(s);
    case DoBatch(n, attempts, leftover) => BatchGrowsWritten(s, n, attempts, leftover);
    case _ =>
  }

  lemma CollectRaises(s: State)
    requires PendingOk(s)
    ensures Raised(s.committed, Collect(s, 0).committed,
      set p | p in Taken(s, 0) && p.seq_ in s.slots :: Confirmed(s, p))
  {
    hide Collect, Taken, PendingSplit, SettledBy, Confirmed, OnePendingOk, HasPending;
    CollectSpec(s, 0);
    var r, taken := Collect(s, 0), Taken(s, 0);
    assert CommittedBy(s, r, taken);
  }

  /** In every run the committed revision is the largest one directly confirmed. */
  lemma {:induction false} CommittedIsLargestConfirmed(hasQueue: bool, file: File, events: seq<Event>)
    ensures Raised(0, Run(Init(hasQueue, file), events).committed, ConfirmedSoFar(Init(hasQueue, file), events))
  {
    if events != [] {
      hide Step, Inv, Init, ConfirmedIn;
      var before := events[..|events| - 1];
      CommittedIsLargestConfirmed(hasQueue, file, before);
      RunInv(hasQueue, file, before);
      StepRaises(Run(Init(hasQueue, file), before), events[|events| - 1]);
    }
  }

  lemma CollectJoin(s: State, i: nat, r: State, rest: seq<PendingSave>)
    requires i < |s.pending| && s.pending[i].seq_ in s.slots
    requires forall a, b :: 0 <= a < b < |s.pending| ==> s.pending[a].seq_ != s.pending[b].seq_
    requires CollectFrom(TakeResult(s, i), i, r, rest)
    ensures CollectFrom(s, i, r, [s.pending[i]] + rest)
  {
    hide SettledBy, CommittedBy;
    var p, s1 := s.pending[i], TakeResult(s, i);
    TookOne(s, i);
    JoinPending(s, i, s1, r, rest);
    JoinSettled(s, p, s1, r, rest);
    JoinCommitted(s, p, s1, r, rest);
  }

  lemma TookOne(s: State, i: nat)
    requires i < |s.pending| && s.pending[i].seq_ in s.slots
    ensures AfterTake(s, s.pending[i], TakeResult(s, i)) && TakeResult(s, i).pending == SwapRemove(s.pending, i)
  {
    hide Completion.Saved;
  }

  lemma JoinPending(s: State, i: nat, s1: State, r: State, rest: seq<PendingSave>)
    requires i < |s.pending| && s.pending[i].seq_ in s.slots
    requires forall a, b :: 0 <= a < b < |s.pending| ==> s.pending[a].seq_ != s.pending[b].seq_
    requires s1.pending == SwapRemove(s.pending, i) && s1.slots == s.slots - {s.pending[i].seq_}
    requires PendingSplit(s1, i, r, rest)
    ensures PendingSplit(s, i, r, [s.pending[i]] + rest)
  {
    var p, all := s.pending[i], [s.pending[i]] + rest;
    SwapRemoved(s.pending, i);
    SwapRemoveMultiset(s.pending, i);
    assert multiset(all) == multiset{p} + multiset(rest);
    assert forall q :: q in all ==> q == p || q in rest;
    JoinSlots(s, p, s1, r, rest);
    assert s1.pending[..i] == s.pending[..i];
    forall k | i <= k < |r.pending| ensures r.pending[k].seq_ !in s.slots {
      assert r.pending[k] in multiset(r.pending) && r.pending[k] in multiset(s1.pending);
    }
  }

  ghost predicate AfterTake(s: State, p: PendingSave, s1: State) {
    && p.seq_ in s.slots && s1.slots == s.slots - {p.seq_} && s1.settled == s.settled + [Settle(s, p)]
    && s1.committed == (if Confirmed(s, p) > s.committed then Confirmed(s, p) else s.committed)
  }

  lemma JoinSettled(s: State, p: PendingSave, s1: State, r: State, rest: seq<PendingSave>)
    requires AfterTake(s, p, s1) && SettledBy(s1, r, rest)
    requires forall q :: q in rest ==> q.seq_ in s1.slots
    ensures SettledBy(s, r, [p] + rest)
  {
    hide Completion.Saved;
    var all := [p] + rest;
    assert s.settled <= s1.settled;
    forall k | 0 <= k < |all| && all[k].seq_ in s.slots ensures r.settled[|s.settled| + k] == Settle(s, all[k]) {
      if k > 0 {
        assert all[k] == rest[k - 1] && rest[k - 1] in rest;
        assert r.settled[|s1.settled| + (k - 1)] == Settle(s1, rest[k - 1]);
      } else {
        assert r.settled[|s.settled|] == s1.settled[|s.settled|];
      }
    }
  }

  lemma JoinCommitted(s: State, p: PendingSave, s1: State, r: State, rest: seq<PendingSave>)
    requires AfterTake(s, p, s1) && CommittedBy(s1, r, rest)
    requires forall q :: q in rest ==> q.seq_ in s1.slots
    ensures CommittedBy(s, r, [p] + rest)
  {
    var all := [p] + rest;
    assert all[0] == p && p in all;
    forall q | q in rest ensures q in all && q.seq_ in s.slots && Confirmed(s, q) == Confirmed(s1, q) {}
    if r.committed != s.committed && r.committed != s1.committed {
      var q :| q in rest && q.seq_ in s1.slots && Confirmed(s1, q) == r.committed;
      assert q in all && Confirmed(s, q) == r.committed;
    }
  }

  lemma JoinSlots(s: State, p: PendingSave, s1: State, r: State, rest: seq<PendingSave>)
    requires s1.slots == s.slots - {p.seq_}
    requires r.slots.Keys == s1.slots.Keys - (set q | q in rest :: q.seq_)
    ensures r.slots.Keys == s.slots.Keys - (set q | q in [p] + rest :: q.seq_)
  {
    assert (set q | q in [p] + rest :: q.seq_) == {p.seq_} + (set q | q in rest :: q.seq_);
  }

  /** A save of the latest revision still stands in the writer's queue. */
  ghost predicate OnItsWay(s: State) {
    exists i :: 0 <= i < |s.pending| && s.pending[i].revision == s.visible && Queued(s, s.pending[i])
  }

  /** A save of the latest revision has succeeded, and its result waits to be collected. */
  ghost predicate AboutToConfirm(s: State) { exists i :: 0 <= i < |s.pending| && Confirms(s, s.pending[i]) }

  /** Every save of the latest revision has failed, and at least one of the results is not collected. */
  ghost predicate FailedUnread(s: State) {
    && s.committed < s.visible && Covered(s)
    && forall i :: 0 <= i < |s.pending| && s.pending[i].revision == s.visible ==>
      s.pending[i].seq_ in s.slots && !Confirms(s, s.pending[i])
  }

  /** What the retry is for: the latest revision is saved, its success has arrived, a save of it is on its
      way, or one was refused just now. */
  ghost predicate SeenTo(s: State, r: State) {
    || r.committed == r.visible || AboutToConfirm(r) || OnItsWay(r)
    || (r.settled == s.settled + [SettledSave(None, false)] && r.committed < r.visible)
  }

  /** The retry runs once, and sees to the latest revision unless a save of it has failed and the failure
      is not collected yet: then it does nothing. */
  lemma RetryOutcome(s: State, env: Env, again: Env)
    requires Inv(s)
    ensures Retry(Retry(s, env), again) == Retry(s, env)
    ensures !s.retried ==> (SeenTo(s, Retry(s, env)) <==> !FailedUnread(s))
    ensures FailedUnread(s) ==> Retry(s, env) == s.(retried := true)
  {
    hide QueueOk, PendingOk, RepliesTrue, Durable, OneReplyEach, Covered, OnItsWay, AboutToConfirm;
    if !s.retried {
      var s1 := s.(retried := true);
      SameLatestSaves(s, s1);
      CoveredOneWay(s);
      if Covered(s) {
        SameCovered(s, s1);
      } else if s.committed == s.visible {
        assert Retry(s, env).committed == s.visible;
      } else {
        Retries(s, env);
      }
    }
  }

  lemma SameLatestSaves(s: State, r: State)
    requires r.visible == s.visible && r.pending == s.pending && r.slots == s.slots && r.entries == s.entries
    ensures OnItsWay(r) <==> OnItsWay(s)
    ensures AboutToConfirm(r) <==> AboutToConfirm(s)
  {
    assert forall p :: Queued(r, p) <==> Queued(s, p);
  }

  /** A pending save of the latest revision is on its way, or its result has arrived. */
  lemma CoveredOneWay(s: State)
    requires PendingOk(s) && QueueOk(s) && s.committed <= s.visible
    ensures Covered(s) && s.committed < s.visible ==> (OnItsWay(s) || AboutToConfirm(s) <==> !FailedUnread(s))
    ensures !Covered(s) ==> !OnItsWay(s) && !FailedUnread(s)
  {
    hide QueueOk, HasPending, Queued;
    forall i | 0 <= i < |s.pending| && s.pending[i].revision == s.visible
      ensures s.pending[i].seq_ !in s.slots <==> Queued(s, s.pending[i])
      ensures s.pending[i].seq_ !in s.slots ==> OnItsWay(s)
    {
      assert OnePendingOk(s, s.pending[i]);
      QueuedHasNoResult(s, s.pending[i]);
    }
    forall i | 0 <= i < |s.pending| && Confirms(s, s.pending[i]) ensures s.pending[i].revision == s.visible {
      assert OnePendingOk(s, s.pending[i]);
    }
  }

  lemma QueuedHasNoResult(s: State, p: PendingSave)
    requires QueueOk(s)
    ensures Queued(s, p) ==> p.seq_ !in s.slots
  {}

  /** Nothing covers the latest revision, and the retry enqueues it. */
  lemma Retries(s: State, env: Env)
    requires Basic(s) && !s.retried && !Covered(s) && s.committed < s.visible
    ensures SeenTo(s, Retry(s, env))
  {
    hide AboutToConfirm, Covered;
    var r := Retry(s, env);
    if s.hasQueue && s.admitting && env.room {
      var p, e := PendingSave(s.visible, s.nextSeq + 1, None),
        Entry(s.nextSeq + 1, SaveSettings(s.visible, s.latest.value));
      assert r.pending[|s.pending|] == p && r.entries[|s.entries|] == e;
      assert Queued(r, p);
    }
  }

  /** Right after a collection the retry always sees to the latest revision. */
  lemma RetryAfterCollect(s: State, env: Env)
    requires Inv(s) && !s.retried
    ensures var c := Collect(s, 0); !c.retried && SeenTo(c, Retry(c, env))
  {
    hide Inv, OnItsWay, AboutToConfirm, Retry, SeenTo;
    CollectInv(s, 0);
    var c := Collect(s, 0);
    CollectKeepsRetried(s, 0);
    assert !FailedUnread(c) by { CollectedHasNoResults(s); }
    RetryOutcome(c, env, env);
  }

  lemma CollectedHasNoResults(s: State)
    requires Inv(s)
    ensures !FailedUnread(Collect(s, 0))
  {
    hide QueueOk, RepliesTrue, Durable, OneReplyEach, Basic, Collect, Taken, OnePendingOk, HasPending, Confirms;
    CollectSpec(s, 0);
    var r := Collect(s, 0);
    forall k | 0 <= k < |r.pending| ensures r.pending[k].seq_ !in r.slots { assert r.pending[k].seq_ !in s.slots; }
  }

  lemma {:induction false} CollectKeepsRetried(s: State, i: nat)
    ensures Collect(s, i).retried == s.retried
    decreases |s.pending| - i
  {
    if i < |s.pending| {
      if s.pending[i].seq_ !in s.slots {
        CollectKeepsRetried(s, i + 1);
      } else {
        CollectKeepsRetried(TakeResult(s, i), i);
      }
    }
  }

  /** A failure that arrives between the collection and the retry: the retry is used up and does nothing, and
      the latest settings stay unsaved although there was room to save them again. */
  lemma FailureBeforeRetry(x: Settings, file: File) returns (events: seq<Event>)
    ensures |events| == 5 && events[1].DoCollect? && events[3] == DoRetry(Env(true, true, file)) && events[4].DoCollect?
    ensures FailedUnread(Run(Init(true, file), events[..3]))
    ensures var r := Run(Init(true, file), events);
      r.committed < r.visible && r.pending == [] && r.entries == [] && r.retried && r.admitting
  {
    var room, p := Env(true, true, file), PendingSave(1, 1, Some(1));
    events := [DoSubmit(x, 0, room), DoCollect, DoBatch(1, [Refused], file), DoRetry(room), DoCollect];
    hide Run, RunNext, Collect, FailedUnread, Init;
    var s1 := FirstSubmit(x, file, room);
    RefusedBatch(s1, s1.entries[0], file);
    var s3 := RunNext(s1, 1, [Refused], file);
    FailedIsUnread(s3, p);
    RetryDoesNothing(s3, room);
    CollectsFailure(s3.(retried := true), p);
    ThreeThenTwo(Init(true, file), x, file, room, s1, s3);
  }

  lemma ThreeThenTwo(s: State, x: Settings, file: File, room: Env, s1: State, s3: State)
    requires s1 == Submit(s, x, 0, room) == Collect(s1, 0) && s3 == RunNext(s1, 1, [Refused], file)
    ensures var events := [DoSubmit(x, 0, room), DoCollect, DoBatch(1, [Refused], file), DoRetry(room), DoCollect];
      Run(s, events[..3]) == s3 && Run(s, events) == Collect(Retry(s3, room), 0)
  {
    hide Run, RunNext, Collect, Submit, Retry;
    FiveSteps(s, [DoSubmit(x, 0, room), DoCollect, DoBatch(1, [Refused], file), DoRetry(room), DoCollect]);
  }

  lemma FirstSubmit(x: Settings, file: File, room: Env) returns (s: State)
    requires room.room
    ensures s == Submit(Init(true, file), x, 0, room) == Collect(s, 0)
    ensures s.pending == [PendingSave(1, 1, Some(1))] && s.entries == [Entry(1, SaveSettings(1, x))] && s.slots == map[]
    ensures s.committed == 0 && s.visible == 1 && !s.retried && s.admitting
  {
    s := Submit(Init(true, file), x, 0, room);
  }

  lemma FailedIsUnread(s: State, p: PendingSave)
    requires s.pending == [p] && p.revision == s.visible > s.committed && p.seq_ in s.slots && s.slots[p.seq_] == Failed
    ensures FailedUnread(s)
  {
    assert s.pending[0] == p;
  }

  lemma RetryDoesNothing(s: State, env: Env)
    requires FailedUnread(s) && !s.retried
    ensures Retry(s, env) == s.(retried := true)
  {}

  lemma CollectsFailure(s: State, p: PendingSave)
    requires s.pending == [p] && p.seq_ in s.slots && s.slots[p.seq_] == Failed
    ensures var r := Collect(s, 0);
      r.pending == [] && r.entries == s.entries && r.committed == s.committed && r.visible == s.visible
        && r.retried == s.retried && r.admitting == s.admitting
  {
    assert Collect(s, 0) == Collect(TakeResult(s, 0), 0);
  }

  lemma FiveSteps(s: State, events: seq<Event>)
    requires |events| == 5
    ensures Run(s, events[..3]) == Step(Step(Step(s, events[0]), events[1]), events[2])
    ensures Run(s, events) == Step(Step(Run(s, events[..3]), events[3]), events[4])
  {
    hide Step, Run;
    OneMoreStep(s, events, 0); OneMoreStep(s, events, 1); OneMoreStep(s, events, 2);
    OneMoreStep(s, events, 3); OneMoreStep(s, events, 4);
    assert events[..0] == [] && events[..5] == events;
    assert Run(s, []) == s by { NoSteps(s); }
  }

  lemma NoSteps(s: State)
    ensures Run(s, []) == s
  {}

  lemma OneMoreStep(s: State, events: seq<Event>, k: nat)
    requires k < |events|
    ensures Run(s, events[..k + 1]) == Step(Run(s, events[..k]), events[k])
  {
    hide Step;
    assert events[..k + 1][..k] == events[..k];
  }

  /** A batch of one save that is refused. */
  lemma RefusedBatch(s: State, e: Entry<Settings>, leftover: File)
    requires s.entries == [e] && s.slots == map[] && IsSave(e)
    ensures var r := RunNext(s, 1, [Refused], leftover);
      r.entries == [] && e.seq_ in r.slots && r.slots[e.seq_] == Failed
        && r == s.(entries := [], slots := r.slots, file := leftover)
  {
    var batch := s.entries[..1];
    assert batch == [e] && s.entries[1..] == [];
    assert LastSave(batch) == Some(0);
    assert Runner(batch, 0) == 0 && Rank(batch, 0) == 0;
    IndexOfSeq(batch, 0);
  }

  ghost predicate Unsaved(s: State) { s.committed < s.visible }

  lemma {:induction false} CollectDirty(s: State, i: nat)
    requires s.committed <= s.visible
    ensures var r := Collect(s, i);
            && r.visible == s.visible && r.committed >= s.committed
            && (Unsaved(r) ==> Unsaved(s) && r.dirtySince == s.dirtySince)
    decreases |s.pending| - i
  {
    if i < |s.pending| {
      if s.pending[i].seq_ !in s.slots { CollectDirty(s, i + 1); }
      else if TakeResult(s, i).committed <= s.visible { CollectDirty(TakeResult(s, i), i); }
      else { CollectSaved(TakeResult(s, i), i); }
    }
  }

  lemma {:induction false} CollectSaved(s: State, i: nat)
    requires s.committed >= s.visible
    ensures var r := Collect(s, i); r.visible == s.visible && r.committed >= s.committed
    decreases |s.pending| - i
  {
    if i < |s.pending| {
      if s.pending[i].seq_ !in s.slots { CollectSaved(s, i + 1); } else { CollectSaved(TakeResult(s, i), i); }
    }
  }

  /** A step that leaves something unsaved keeps the mark, or is the submit that sets it. */
  lemma StepDirty(s: State, e: Event)
    requires Basic(s) && Unsaved(Step(s, e))
    ensures if Unsaved(s) then Step(s, e).dirtySince == s.dirtySince
            else e.DoSubmit? && Step(s, e).dirtySince == Some(e.now)
  {
    hide Collect, Covered, Ran, LastSave, BatchSlots, Seqs;
    match e
    case DoCollect => CollectDirty(s, 0);
    case DoReap => CollectDirty(s, 0);
    case DoBatch(n, attempts, leftover) => BatchGrowsWritten(s, n, attempts, leftover);
    case _ =>
  }

  /** While something is unsaved, dirtySince is the time of the first submit after the last moment at
      which everything was saved. */
  lemma {:induction false} DirtySinceFirstSubmit(hasQueue: bool, file: File, events: seq<Event>) returns (k: nat)
    requires Unsaved(Run(Init(hasQueue, file), events))
    ensures k < |events| && events[k].DoSubmit?
    ensures Run(Init(hasQueue, file), events).dirtySince == Some(events[k].now)
    ensures !Unsaved(Run(Init(hasQueue, file), events[..k]))
    ensures forall j :: k < j <= |events| ==> Unsaved(Run(Init(hasQueue, file), events[..j]))
  {
    hide Step, Inv, Init;
    var init := Init(hasQueue, file);
    if events == [] { InitSaved(hasQueue, file); assert false; }
    var before := events[..|events| - 1];
    var s, e := Run(init, before), events[|events| - 1];
    RunInv(hasQueue, file, before);
    InvBasic(s);
    StepDirty(s, e);
    assert events[..|events|] == events;
    if Unsaved(s) {
      k := DirtySinceFirstSubmit(hasQueue, file, before);
      assert before[..k] == events[..k];
      forall j | k < j <= |events| ensures Unsaved(Run(init, events[..j])) {
        if j < |events| { assert before[..j] == events[..j]; }
      }
    } else {
      k := |events| - 1;
      forall j | k < j <= |events| ensures Unsaved(Run(init, events[..j])) { assert j == |events|; }
    }
  }

  lemma InvBasic(s: State)
    requires Inv(s)
    ensures Basic(s)
  {}

  lemma InitSaved(hasQueue: bool, file: File)
    ensures !Unsaved(Run(Init(hasQueue, file), []))
  {}

  // ---------------------------------------------------------------- the objects

  class Storage {
    var file: File
    ghost var written: set<nat>

    constructor (file: File)
      ensures this.file == file && written == {}
    { this.file := file; written := {}; }

    /** What a failed save leaves behind is up to the surroundings. */
    method Save(revision: nat, settings: Settings, env: Env) returns (ok: bool)
      modifies this
      ensures ok == env.ok
      ensures file == (if ok then Holds(settings) else env.leftover)
      ensures written == (if ok then old(written) + {revision} else old(written))
    {
      ok := env.ok;
      if ok { file, written := Holds(settings), written + {revision}; } else { file := env.leftover; }
    }
  }

  class Writer {
    const storage: Storage
    var entries: seq<Entry<Settings>>
    var slots: map<nat, Completion>
    var nextSeq: nat
    var admitting: bool

    constructor (storage: Storage)
      ensures this.storage == storage && entries == [] && slots == map[] && nextSeq == 0 && admitting
    { this.storage := storage; entries, slots, nextSeq, admitting := [], map[], 0, true; }

    method Accept(work: Work<Settings>, room: bool) returns (receipt: Option<nat>)
      modifies this
      ensures slots == old(slots) && admitting == old(admitting)
      ensures receipt.Some? <==> admitting && room
      ensures if receipt.Some?
        then receipt.value == nextSeq == old(nextSeq) + 1 && entries == old(entries) + [Entry(nextSeq, work)]
              else nextSeq == old(nextSeq) && entries == old(entries)
    {
      if !admitting || !room { return None; }
      nextSeq := nextSeq + 1;
      entries := entries + [Entry(nextSeq, work)];
      return Some(nextSeq);
    }

    method TryTake(receipt: nat) returns (c: Option<Completion>)
      modifies this
      ensures entries == old(entries) && nextSeq == old(nextSeq) && admitting == old(admitting)
      ensures c == (if receipt in old(slots) then Some(old(slots)[receipt]) else None)
      ensures slots == (if receipt in old(slots) then old(slots) - {receipt} else old(slots))
    {
      if receipt !in slots { return None; }
      c := Some(slots[receipt]);
      slots := slots - {receipt};
    }

    /** The worker's turn: the queue, the result slots and the file move as RunNext says. */
    method RunFirst(n: nat, attempts: seq<Attempt>, leftover: File, ghost s: State)
      requires 0 < n <= |entries| && DistinctSeqs(entries[..n])
      requires forall i :: 0 <= i < n && !IsSave(entries[i]) ==> entries[i].Key() != Some(SETTINGS_KEY)
      requires s.entries == entries && s.slots == slots && s.file == storage.file && s.written == storage.written
      modifies this, storage
      ensures var r := RunNext(s, n, attempts, leftover);
              entries == r.entries && slots == r.slots && storage.file == r.file && storage.written == r.written
      ensures nextSeq == old(nextSeq) && admitting == old(admitting)
    {
      hide Ran, ResultAt, RunNext, BatchSlots, LastSave;
      BatchShape(s, n, attempts, leftover);
      BatchFile(s, n, attempts, leftover);
      var batch := entries[..n];
      var done := RunBatch(batch, attempts);
      BatchMap(batch, attempts, done);
      entries := entries[n..];
      slots := slots + done;
      var l := LastSaveOf(batch);
      if l.Some? {
        LastSaveRuns(batch, attempts, l.value);
        if done[batch[l.value].seq_].DoneOk? {
          storage.file := Holds(batch[l.value].work.settings);
          storage.written := storage.written + {batch[l.value].work.revision};
        } else {
          storage.file := leftover;
        }
      }
    }
  }

  method LastSaveOf(batch: seq<Entry<Settings>>) returns (l: Option<nat>)
    ensures l == LastSave(batch)
  {
    l := None;
    for i := 0 to |batch|
      invariant l == LastSave(batch[..i])
    {
      assert batch[..i + 1][..i] == batch[..i];
      if batch[i].work.SaveSettings? { l := Some(i); }
    }
    assert batch[..|batch|] == batch;
  }

  lemma BatchMap(batch: seq<Entry<Settings>>, attempts: seq<Attempt>, done: map<nat, Completion>)
    requires DistinctSeqs(batch) && done.Keys == Seqs(batch)
    requires forall i :: 0 <= i < |batch| ==> done[batch[i].seq_] == ResultAt(batch, attempts, i)
    ensures done == BatchSlots(batch, attempts)
  {
    hide ResultAt;
    forall q | q in done ensures done[q] == BatchSlots(batch, attempts)[q] {
      assert batch[IndexOf(batch, q)].seq_ == q;
    }
  }

  lemma LastSaveRuns(batch: seq<Entry<Settings>>, attempts: seq<Attempt>, l: nat)
    requires LastSave(batch) == Some(l)
      && forall i :: 0 <= i < |batch| && !IsSave(batch[i]) ==> batch[i].Key() != Some(SETTINGS_KEY)
    ensures ResultAt(batch, attempts, l) == Ran(batch, attempts, l)
  {
    RunsIffLast(batch, l);
  }

  lemma {:induction false} CollectKeepsDelivered(s: State, i: nat)
    ensures Collect(s, i).delivered == s.delivered
    decreases |s.pending| - i
  {
    if i < |s.pending| {
      if s.pending[i].seq_ !in s.slots {
        CollectKeepsDelivered(s, i + 1);
      } else {
        CollectKeepsDelivered(TakeResult(s, i), i);
      }
    }
  }

  lemma NoWriterNoPending(s: State)
    requires Inv(s) && !s.hasQueue
    ensures s.pending == []
  {}

  lemma SubmitKeepsHistory(s: State, settings: Settings, now: nat, env: Env)
    ensures Submit(s, settings, now, env).submitted == s.submitted + [settings]
  {}

  /** The main loop's side. View() is the state the transitions and the results above speak of. */
  class Saves {
    const queue: Writer?
    const storage: Storage
    var visible: nat
    var committed: nat
    var latest: Option<Settings>
    var pending: seq<PendingSave>
    var settled: seq<SettledSave>
    var retried: bool
    var dirtySince: Option<nat>
    ghost var submitted: seq<Settings>
    ghost var delivered: seq<SettledSave>

    ghost predicate Wired() {
      queue != null ==> queue.storage == storage
    }

    /** Everything that holds in every run of the protocol holds of this object. */
    ghost predicate Valid() reads this, storage, queue { Wired() && Inv(View()) }

    /** What the owner of the object relies on. */
    ghost predicate Reliable() reads this, storage, queue {
      && committed <= visible && (dirtySince.None? <==> committed == visible)
      && (committed > 0 ==> committed in storage.written)
      && (committed == visible > 0 ==> latest.Some? && storage.file == Holds(latest.value))
    }

    lemma ValidIsReliable()
      requires Valid()
      ensures Reliable()
    {
      hide QueueOk, PendingOk, RepliesTrue, OneReplyEach;
    }

    ghost function View(): State
      reads this, storage, queue
    {
      if queue == null then
        State(false, visible, committed, latest, pending, settled, retried, dirtySince,
              [], map[], 0, true, storage.file, submitted, delivered, storage.written)
      else
        State(true, visible, committed, latest, pending, settled, retried, dirtySince,
              queue.entries, queue.slots, queue.nextSeq, queue.admitting, storage.file, submitted, delivered,
                storage.written)
    }

    constructor (queue: Writer?, storage: Storage)
      requires queue != null ==> queue.storage == storage
      ensures Wired() && this.queue == queue && this.storage == storage
      ensures visible == committed == 0 && latest == None && pending == [] && settled == [] && !retried
        && dirtySince == None
      ensures submitted == [] && delivered == []
      ensures
        && storage.written == {}
        && (queue != null ==> queue.entries == [] && queue.slots == map[] && queue.nextSeq == 0 && queue.admitting)
        ==> View() == Init(queue != null, storage.file) && Valid()
    {
      InitInv(queue != null, storage.file);
      this.queue, this.storage := queue, storage;
      visible, committed, latest, pending, settled := 0, 0, None, [], [];
      retried, dirtySince, submitted, delivered := false, None, [], [];
    }

    /** The committed revision is the larger of the two, and all counts as saved exactly when it has caught
        up with the visible one. */
    method ConfirmRevision(revision: nat)
      modifies this`committed, this`dirtySince
      ensures View() == Confirm(old(View()), revision)
      ensures committed >= old(committed) && committed >= revision && committed in {old(committed), revision}
      ensures old(dirtySince.None? <==> committed == visible) && old(committed) <= visible && revision <= visible ==>
        committed <= visible && (dirtySince.None? <==> committed == visible)
      ensures dirtySince.Some? ==> dirtySince == old(dirtySince)
    {
      if revision > committed { committed := revision; }
      if committed >= visible { dirtySince := None; }
    }

    method EnqueueSave(revision: nat, settings: Settings, reply: Option<nat>, env: Env)
      requires Wired()
      modifies this, storage, queue
      ensures View() == Enqueue(old(View()), revision, settings, reply, env)
    {
      if queue == null {
        var saved := storage.Save(revision, settings, env);
        if saved { ConfirmRevision(revision); }
        settled := settled + [SettledSave(reply, saved)];
        return;
      }
      var receipt := queue.Accept(SaveSettings(revision, settings), env.room);
      match receipt {
        case Some(r) => pending := pending + [PendingSave(revision, r, reply)];
        case None => settled := settled + [SettledSave(reply, false)];
      }
    }

    method SubmitSettings(settings: Settings, now: nat, env: Env)
      requires Valid()
      modifies this, storage, queue
      ensures View() == Submit(old(View()), settings, now, env)
      ensures Valid() && Reliable() && submitted == old(submitted) + [settings]
    {
      hide Inv, Enqueue;
      SubmitInv(View(), settings, now, env);
      visible := visible + 1;
      if dirtySince.None? { dirtySince := Some(now); }
      latest := Some(settings);
      submitted := submitted + [settings];
      EnqueueSave(visible, settings, Some(visible), env);
      SubmitKeepsHistory(old(View()), settings, now, env);
      ValidIsReliable();
    }

    method CollectCompleted()
      requires Valid()
      modifies this, queue
      ensures View() == Collect(old(View()), 0)
      ensures Valid() && Reliable()
    {
      hide Inv, Confirm, SwapRemove;
      CollectInv(View(), 0);
      if queue == null {
        assert pending == [] by { NoWriterNoPending(View()); }
        ValidIsReliable();
        return;
      }
      var index := 0;
      while index < |pending|
        invariant Wired() && index <= |pending|
        invariant Collect(View(), index) == Collect(old(View()), 0)
        decreases |pending| - index
      {
        ghost var before := View();
        var taken := queue.TryTake(pending[index].seq_);
        match taken {
          case None => index := index + 1;
          case Some(completion) =>
            SettlePending(index, completion);
            assert View() == TakeResult(before, index);
        }
      }
      ValidIsReliable();
    }

    /** The pending save at index has this result: it leaves the list and its answer is ready. */
    method SettlePending(index: nat, completion: Completion)
      requires Wired() && index < |pending|
      modifies this`pending, this`settled, this`committed, this`dirtySince
      ensures var s := old(View());
        var r := s.(pending := SwapRemove(s.pending, index),
          settled := s.settled + [SettledSave(s.pending[index].reply, completion.Saved())]);
        View() == if completion.DoneOk? && completion.revision.Some? then Confirm(r, completion.revision.value) else r
    {
      var p := pending[index];
      pending := pending[index := pending[|pending| - 1]][..|pending| - 1];
      if completion.DoneOk? && completion.revision.Some? { ConfirmRevision(completion.revision.value); }
      settled := settled + [SettledSave(p.reply, completion.Saved())];
    }

    method ReapSettled() returns (out: seq<SettledSave>)
      requires Valid()
      modifies this, queue
      ensures View() == Reap(old(View()))
      ensures Valid() && Reliable() && delivered == old(delivered) + out
    {
      hide Inv, Collect;
      ReapInv(View());
      CollectKeepsDelivered(View(), 0);
      CollectCompleted();
      out := settled;
      delivered := delivered + settled;
      settled := [];
      ValidIsReliable();
    }

    method RetryLatestBeforeShutdown(env: Env)
      requires Valid()
      modifies this, storage, queue
      ensures View() == Retry(old(View()), env)
      ensures Valid() && Reliable()
      ensures !old(retried) ==> (SeenTo(old(View()), View()) <==> !FailedUnread(old(View())))
    {
      hide Inv, Enqueue, SeenTo, FailedUnread;
      RetryInv(View(), env);
      RetryOutcome(View(), env, env);
      if retried {
        ValidIsReliable();
        return;
      }
      retried := true;
      var covered := exists i :: 0 <= i < |pending| && pending[i].revision == visible;
      if covered || visible <= committed || latest.None? {
        ValidIsReliable();
        return;
      }
      EnqueueSave(visible, latest.value, None, env);
      ValidIsReliable();
    }
  }
}
