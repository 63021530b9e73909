/** What a submit is told about its settings, against what has happened to the file. */
module SettingsReplies {
  import opened Wrappers
  import opened BatchWriter
  import opened SettingsSaves

  // ---------------------------------------------------------------- what has happened

  /** wrote: the numbers of the queued saves whose settings, or newer ones of the same batch, replaced the
      file; queued: the number under which each submit entered the queue; direct: the submits that replaced
      the file at once, without a writer. */
  datatype Past = Past(wrote: set<nat>, queued: map<nat, nat>, direct: set<nat>)

  const NOTHING := Past({}, map[], {})

  /** The attempt of the last save of the batch replaced the file. It runs for all the saves before it. */
  ghost predicate Replaces(batch: seq<Entry<Settings>>, attempts: seq<Attempt>) {
    exists l: nat ::
      && l < |batch| && IsSave(batch[l]) && NoneFrom(batch, l + 1)
      && Rank(batch, l) < |attempts| && attempts[Rank(batch, l)] == Replaced
  }

  ghost predicate NoneFrom(batch: seq<Entry<Settings>>, from: nat) {
    forall j :: from <= j < |batch| ==> !IsSave(batch[j])
  }

  ghost function SaveSeqs(batch: seq<Entry<Settings>>): set<nat> {
    set i | 0 <= i < |batch| && IsSave(batch[i]) :: batch[i].seq_
  }

  ghost function Next(p: Past, s: State, e: Event): Past {
    match e
    case DoSubmit(_, _, env) =>
      var revision := s.visible + 1;
      if !s.hasQueue then (if env.ok then p.(direct := p.direct + {revision}) else p)
      else if s.admitting && env.room then p.(queued := p.queued[revision := s.nextSeq + 1])
      else p
    case DoBatch(n, attempts, _) =>
      if 0 < n <= |s.entries| && Replaces(s.entries[..n], attempts)
      then p.(wrote := p.wrote + SaveSeqs(s.entries[..n]))
      else p
    case _ => p
  }

  ghost function PastOf(s: State, events: seq<Event>): Past {
    if events == [] then NOTHING
    else
      var before := events[..|events| - 1];
      Next(PastOf(s, before), Run(s, before), events[|events| - 1])
  }

  /** The submit that made this revision replaced the file, or its replacement did. */
  ghost predicate Written(p: Past, revision: nat) {
    if revision in p.queued then p.queued[revision] in p.wrote else revision in p.direct
  }

  // ---------------------------------------------------------------- replies

  /** What a result in a slot says agrees with the past. */
  ghost predicate SlotTrue(s: State, p: Past, x: PendingSave) {
    && (x.seq_ in s.slots ==> (s.slots[x.seq_].Saved() <==> x.seq_ in p.wrote))
    && (x.reply.Some? ==> x.reply.value in p.queued && p.queued[x.reply.value] == x.seq_)
  }

  /** Nothing in the queue has run yet. */
  ghost predicate NotRunYet(s: State, p: Past) {
    && (forall q :: q in p.wrote ==> q <= s.nextSeq)
    && (forall i :: 0 <= i < |s.entries| ==> s.entries[i].seq_ !in p.wrote)
    && (forall r :: r in p.queued ==> r <= s.visible && p.queued[r] <= s.nextSeq)
    && (forall r :: r in p.direct ==> r <= s.visible)
  }

  /** A reply that was given is final: the submit is not in the queue any more. */
  ghost predicate ReplyTrue(s: State, p: Past, x: SettledSave) {
    x.reply.Some? ==>
      && x.reply.value <= s.visible
      && (x.saved <==> Written(p, x.reply.value))
      && (x.reply.value in p.queued ==>
            forall i :: 0 <= i < |s.entries| ==> s.entries[i].seq_ != p.queued[x.reply.value])
  }

  ghost predicate AllTrue(s: State, p: Past, xs: seq<SettledSave>) { forall x :: x in xs ==> ReplyTrue(s, p, x) }

  ghost predicate Honest(s: State, p: Past) {
    && NotRunYet(s, p) && (forall x :: x in s.pending ==> SlotTrue(s, p, x))
    && AllTrue(s, p, s.settled) && AllTrue(s, p, s.delivered)
  }

  // ---- one batch

  lemma SaveOutcome(batch: seq<Entry<Settings>>, attempts: seq<Attempt>, l: nat)
    requires l < |batch| && IsSave(batch[l])
    ensures Ran(batch, attempts, l).DoneOk? <==> Rank(batch, l) < |attempts| && attempts[Rank(batch, l)] == Replaced
  {
    hide Rank;
  }

  /** In a batch every save is told what the last one did. */
  lemma BatchTells(s: State, n: nat, attempts: seq<Attempt>, i: nat)
    requires QueueOk(s) && 0 < n <= |s.entries| && i < n && IsSave(s.entries[i])
    ensures ResultAt(s.entries[..n], attempts, i).Saved() <==> Replaces(s.entries[..n], attempts)
  {
    hide Rank, Runner, Ran, LastSave, Completion.Erase, Completion.Saved;
    var batch := s.entries[..n];
    SaveRunner(s, n, i);
    var l := Runner(batch, i);
    LastIs(batch, l);
    assert IsSave(batch[l]);
    RanShape(batch, attempts, l);
    SaveOutcome(batch, attempts, l);
    ResultSaved(batch, attempts, i);
    if Replaces(batch, attempts) {
      var k: nat :| k < |batch| && IsSave(batch[k]) && NoneFrom(batch, k + 1)
        && Rank(batch, k) < |attempts| && attempts[Rank(batch, k)] == Replaced;
      assert k == l;
    }
  }

  lemma LastIs(batch: seq<Entry<Settings>>, l: nat)
    requires LastSave(batch) == Some(l)
    ensures l < |batch| && IsSave(batch[l]) && NoneFrom(batch, l + 1)
  {}

  lemma ResultSaved(batch: seq<Entry<Settings>>, attempts: seq<Attempt>, i: nat)
    requires i < |batch|
    ensures var l := Runner(batch, i);
      ResultAt(batch, attempts, i).Saved() <==>
        if l == i then Ran(batch, attempts, l).Saved() else Ran(batch, attempts, l).Erase().Saved()
  {
    hide Ran, Runner, Completion.Erase;
  }

  lemma BatchHonest(s: State, p: Past, n: nat, attempts: seq<Attempt>, leftover: File)
    requires Inv(s) && Honest(s, p) && 0 < n <= |s.entries|
    ensures Honest(RunNext(s, n, attempts, leftover), Next(p, s, DoBatch(n, attempts, leftover)))
  {
    hide RunNext, Inv, EntryOk, RepliesTrue, Durable, OneReplyEach, Replaces, ResultAt, Completion.Saved, ReplyTrue;
    var r, t := RunNext(s, n, attempts, leftover), Next(p, s, DoBatch(n, attempts, leftover));
    InvParts(s);
    BatchGrowsWritten(s, n, attempts, leftover);
    BatchSlotsAre(s, n, attempts, leftover);
    forall x | x in r.pending ensures SlotTrue(r, t, x) {
      BatchSlotTrue(s, p, n, attempts, leftover, x);
    }
    forall i | 0 <= i < |r.entries| ensures r.entries[i].seq_ !in t.wrote {
      assert r.entries[i] == s.entries[n + i];
    }
    forall x | ReplyTrue(s, p, x) ensures ReplyTrue(r, t, x) { BatchReplyStays(s, p, n, attempts, leftover, x); }
  }

  lemma InvParts(s: State)
    requires Inv(s)
    ensures QueueOk(s) && PendingOk(s) && Basic(s)
  {}

  lemma BatchReplyStays(s: State, p: Past, n: nat, attempts: seq<Attempt>, leftover: File, x: SettledSave)
    requires QueueOk(s) && 0 < n <= |s.entries| && ReplyTrue(s, p, x)
    ensures ReplyTrue(RunNext(s, n, attempts, leftover), Next(p, s, DoBatch(n, attempts, leftover)), x)
  {
    hide RunNext, EntryOk, Replaces;
    var r := RunNext(s, n, attempts, leftover);
    BatchGrowsWritten(s, n, attempts, leftover);
    BatchSlotsAre(s, n, attempts, leftover);
    assert forall i :: 0 <= i < |r.entries| ==> r.entries[i] == s.entries[n + i];
    if x.reply.Some? && x.reply.value in p.queued {
      var q := p.queued[x.reply.value];
      assert q !in SaveSeqs(s.entries[..n]);
    }
  }

  lemma BatchSlotTrue(s: State, p: Past, n: nat, attempts: seq<Attempt>, leftover: File, x: PendingSave)
    requires QueueOk(s) && PendingOk(s) && NotRunYet(s, p) && 0 < n <= |s.entries|
    requires x in s.pending && SlotTrue(s, p, x)
    ensures SlotTrue(RunNext(s, n, attempts, leftover), Next(p, s, DoBatch(n, attempts, leftover)), x)
  {
    hide RunNext, QueueOk, PendingOk, Replaces, ResultAt, Completion.Saved, SaveSeqs, NotRunYet, Seqs;
    BatchSlotsAre(s, n, attempts, leftover);
    if x.seq_ in s.slots {
      SlotNotQueued(s, n, x.seq_);
    } else {
      var i := QueuedAt(s, x);
      NotWritten(s, p, i);
      if i < n {
        BatchTells(s, n, attempts, i);
        InBatch(s, n, i);
      } else {
        LaterNotRun(s, n, i);
      }
    }
  }

  lemma QueuedAt(s: State, x: PendingSave) returns (i: nat)
    requires PendingOk(s) && x in s.pending && x.seq_ !in s.slots
    ensures i < |s.entries| && s.entries[i].seq_ == x.seq_ && IsSave(s.entries[i])
  {
    var k :| 0 <= k < |s.pending| && s.pending[k] == x;
    assert OnePendingOk(s, s.pending[k]);
    i :| 0 <= i < |s.entries| && s.entries[i].seq_ == x.seq_ && IsSave(s.entries[i]);
  }

  lemma NotWritten(s: State, p: Past, i: nat)
    requires NotRunYet(s, p) && i < |s.entries|
    ensures s.entries[i].seq_ !in p.wrote
  {}

  lemma InBatch(s: State, n: nat, i: nat)
    requires i < n <= |s.entries| && IsSave(s.entries[i])
    ensures s.entries[i].seq_ in SaveSeqs(s.entries[..n])
  {
    assert s.entries[..n][i] == s.entries[i];
  }

  lemma SlotNotQueued(s: State, n: nat, q: nat)
    requires QueueOk(s) && n <= |s.entries| && q in s.slots
    ensures q !in SaveSeqs(s.entries[..n])
  {
    hide EntryOk;
  }

  lemma LaterNotRun(s: State, n: nat, i: nat)
    requires QueueOk(s) && n <= i < |s.entries|
    ensures s.entries[i].seq_ !in Seqs(s.entries[..n]) && s.entries[i].seq_ !in s.slots
    ensures s.entries[i].seq_ !in SaveSeqs(s.entries[..n])
  {
    hide EntryOk;
  }

  // ---- the other events

  /** A reply stays true while the queue only gets new numbers. */
  lemma ReplyStays(s: State, p: Past, r: State, t: Past, x: SettledSave)
    requires ReplyTrue(s, p, x) && NotRunYet(s, p) && s.visible <= r.visible && t.wrote == p.wrote
    requires forall i :: 0 <= i < |r.entries| ==> r.entries[i] in s.entries || r.entries[i].seq_ > s.nextSeq
    requires forall v :: v <= s.visible ==> (v in t.queued <==> v in p.queued) && (v in t.direct <==> v in p.direct)
    requires forall v :: v <= s.visible && v in p.queued ==> t.queued[v] == p.queued[v]
    ensures ReplyTrue(r, t, x)
  {}

  lemma EnqueueKeepsRest(s: State, revision: nat, settings: Settings, reply: Option<nat>, env: Env)
    ensures var r := Enqueue(s, revision, settings, reply, env);
      && r.visible == s.visible && r.slots == s.slots && r.delivered == s.delivered && r.hasQueue == s.hasQueue
      && if s.hasQueue && s.admitting && env.room then
           && r.nextSeq == s.nextSeq + 1 && r.settled == s.settled
           && r.entries == s.entries + [Entry(s.nextSeq + 1, SaveSettings(revision, settings))]
           && r.pending == s.pending + [PendingSave(revision, s.nextSeq + 1, reply)]
         else
           && r.nextSeq == s.nextSeq && r.entries == s.entries && r.pending == s.pending
           && r.settled == s.settled + [SettledSave(reply, !s.hasQueue && env.ok)]
  {}

  lemma EnqueueHonest(s: State, p: Past, t: Past, settings: Settings, reply: Option<nat>, env: Env)
    requires Inv0(s) && Honest(s, p) && s.visible > 0
    requires reply.None? || (reply == Some(s.visible) && s.visible !in p.queued && s.visible !in p.direct)
    requires t == if reply.None? then p
                  else if !s.hasQueue then (if env.ok then p.(direct := p.direct + {s.visible}) else p)
                  else if s.admitting && env.room then p.(queued := p.queued[s.visible := s.nextSeq + 1])
                  else p
    requires forall x :: x in s.settled + s.delivered ==> x.reply != Some(s.visible)
    requires forall x :: x in s.pending ==> x.reply != Some(s.visible)
    ensures Honest(Enqueue(s, s.visible, settings, reply, env), t)
  {
    hide Completion.Saved;
    var r := Enqueue(s, s.visible, settings, reply, env);
    EnqueueKeepsRest(s, s.visible, settings, reply, env);
    hide Enqueue;
    forall x | x in s.pending ensures SlotTrue(r, t, x) { assert SlotTrue(s, p, x); }
    forall x | x in s.settled + s.delivered ensures ReplyTrue(r, t, x) { OlderStays(s, p, t, r, x); }
  }

  /** Numbers are used once. */
  ghost predicate Inv0(s: State) {
    && (forall i :: 0 <= i < |s.entries| ==> s.entries[i].seq_ <= s.nextSeq)
    && (forall x :: x in s.pending ==> x.seq_ <= s.nextSeq)
    && (forall q :: q in s.slots ==> q <= s.nextSeq)
    && (!s.hasQueue ==> s.entries == [] && s.pending == [])
  }

  lemma OlderStays(s: State, p: Past, t: Past, r: State, x: SettledSave)
    requires ReplyTrue(s, p, x) && NotRunYet(s, p) && x.reply != Some(s.visible) && r.visible == s.visible
    requires t.wrote == p.wrote
    requires t.queued == p.queued || t.queued == p.queued[s.visible := s.nextSeq + 1]
    requires t.direct == p.direct || t.direct == p.direct + {s.visible}
    requires forall i :: 0 <= i < |r.entries| ==> r.entries[i] in s.entries || r.entries[i].seq_ == s.nextSeq + 1
    ensures ReplyTrue(r, t, x)
  {}

  /** Answering one request says what happened to its save. */
  lemma TakeHonest(s: State, p: Past, i: nat)
    requires Inv(s) && Honest(s, p) && i < |s.pending| && s.pending[i].seq_ in s.slots
    ensures Honest(TakeResult(s, i), p)
  {
    hide Inv, Completion.Saved, Confirm;
    InvParts(s);
    var x, r := s.pending[i], TakeResult(s, i);
    TakeShape(s, i);
    SwapRemoveIn(s.pending, i);
    OnlyOnce(s, i);
    forall y | y in r.pending ensures SlotTrue(r, p, y) {
      assert y in s.pending && SlotTrue(s, p, y);
    }
    assert SlotTrue(s, p, x);
    forall y | y in r.settled ensures ReplyTrue(r, p, y) {
      if y in s.settled { assert ReplyTrue(s, p, y); }
    }
  }

  lemma TakeShape(s: State, i: nat)
    requires i < |s.pending| && s.pending[i].seq_ in s.slots
    ensures var x, r := s.pending[i], TakeResult(s, i);
      && r.pending == SwapRemove(s.pending, i) && r.slots == s.slots - {x.seq_}
      && r.settled == s.settled + [SettledSave(x.reply, s.slots[x.seq_].Saved())]
      && r.entries == s.entries && r.nextSeq == s.nextSeq && r.visible == s.visible && r.delivered == s.delivered
  {
    hide Completion.Saved;
  }

  lemma SwapRemoveIn(xs: seq<PendingSave>, i: nat)
    requires i < |xs|
    ensures forall y :: y in SwapRemove(xs, i) ==> y in xs
  {}

  /** A request with a result is not in the queue. */
  lemma OnlyOnce(s: State, i: nat)
    requires QueueOk(s) && i < |s.pending| && s.pending[i].seq_ in s.slots
    ensures forall k :: 0 <= k < |s.entries| ==> s.entries[k].seq_ != s.pending[i].seq_
  {
    hide EntryOk;
  }

  lemma {:induction false} CollectHonest(s: State, p: Past, i: nat)
    requires Inv(s) && Honest(s, p)
    ensures Honest(Collect(s, i), p)
    decreases |s.pending| - i
  {
    hide Inv, Honest;
    if i < |s.pending| {
      if s.pending[i].seq_ !in s.slots {
        CollectHonest(s, p, i + 1);
      } else {
        TakeHonest(s, p, i);
        TakeResultInv(s, i);
        CollectHonest(TakeResult(s, i), p, i);
      }
    }
  }

  lemma ReapHonest(s: State, p: Past)
    requires Inv(s) && Honest(s, p)
    ensures Honest(Reap(s), p)
  {
    hide Inv, Collect, SlotTrue, Written;
    CollectHonest(s, p, 0);
    var c := Collect(s, 0);
    assert forall x :: ReplyTrue(Reap(s), p, x) <==> ReplyTrue(c, p, x);
    forall x | x in Reap(s).pending ensures SlotTrue(Reap(s), p, x) {
      assert SlotTrue(c, p, x);
      SameSlot(c, Reap(s), p, x);
    }
  }

  lemma SameSlot(s: State, r: State, p: Past, x: PendingSave)
    requires SlotTrue(s, p, x) && r.slots == s.slots
    ensures SlotTrue(r, p, x)
  {
    hide Completion.Saved;
  }

  lemma InvNumbers(s: State)
    requires Inv(s)
    ensures Inv0(s)
  {
    hide RepliesTrue, Durable, OneReplyEach;
    forall x | x in s.pending ensures x.seq_ <= s.nextSeq {
      var k :| 0 <= k < |s.pending| && s.pending[k] == x;
      assert OnePendingOk(s, s.pending[k]);
    }
  }

  lemma SubmitHonest(s: State, p: Past, settings: Settings, now: nat, env: Env)
    requires Inv(s) && Honest(s, p)
    ensures Honest(Submit(s, settings, now, env), Next(p, s, DoSubmit(settings, now, env)))
  {
    hide Inv, Completion.Saved, Enqueue;
    InvNumbers(s);
    var s1 := Shown(s, settings, now);
    forall x | x in s.settled + s.delivered ensures ReplyTrue(s1, p, x) && x.reply != Some(s1.visible) {
      assert ReplyTrue(s, p, x);
    }
    forall x | x in s.pending ensures SlotTrue(s1, p, x) && x.reply != Some(s1.visible) { assert SlotTrue(s, p, x); }
    EnqueueHonest(s1, p, Next(p, s, DoSubmit(settings, now, env)), settings, Some(s1.visible), env);
  }

  lemma RetryHonest(s: State, p: Past, env: Env)
    requires Inv(s) && Honest(s, p)
    ensures Honest(Retry(s, env), p)
  {
    hide Inv, Completion.Saved;
    InvNumbers(s);
    var r := Retry(s, env);
    forall x | x in s.pending ensures SlotTrue(r, p, x) { assert SlotTrue(s, p, x); }
    forall x | x in s.settled + s.delivered ensures ReplyTrue(r, p, x) { assert ReplyTrue(s, p, x); }
  }

  lemma OtherHonest(s: State, p: Past, key: Option<string>, env: Env)
    requires Inv(s) && Honest(s, p)
    ensures Honest(SubmitOther(s, key, env), p)
  {
    hide Inv, Completion.Saved;
    InvNumbers(s);
    var r := SubmitOther(s, key, env);
    forall x | x in s.pending ensures SlotTrue(r, p, x) { assert SlotTrue(s, p, x); }
    forall x | x in s.settled + s.delivered ensures ReplyTrue(r, p, x) { assert ReplyTrue(s, p, x); }
  }

  lemma WorkerEndsHonest(s: State, p: Past)
    requires Inv(s) && Honest(s, p)
    ensures Honest(WorkerEnds(s), p)
  {
    hide Inv;
    InvParts(s);
    var r := WorkerEnds(s);
    forall x | x in r.pending ensures SlotTrue(r, p, x) {
      assert SlotTrue(s, p, x);
      LostTells(s, p, x);
    }
    forall x | x in s.settled + s.delivered ensures ReplyTrue(r, p, x) { assert ReplyTrue(s, p, x); }
  }

  lemma LostTells(s: State, p: Past, x: PendingSave)
    requires QueueOk(s) && PendingOk(s) && NotRunYet(s, p) && x in s.pending && SlotTrue(s, p, x)
    ensures SlotTrue(WorkerEnds(s), p, x)
  {
    hide PendingOk, EntryOk;
    if x.seq_ in s.slots {
      assert x.seq_ !in Seqs(s.entries);
    } else {
      var i := QueuedAt(s, x);
      NotWritten(s, p, i);
      assert WorkerEnds(s).slots[x.seq_] == Lost;
    }
  }

  lemma StepHonest(s: State, p: Past, e: Event)
    requires Inv(s) && Honest(s, p)
    ensures Honest(Step(s, e), Next(p, s, e))
  {
    hide Inv, Honest, Submit, Collect, Reap, Retry, SubmitOther, RunNext, WorkerEnds;
    match e
    case DoSubmit(x, now, env) => SubmitHonest(s, p, x, now, env);
    case DoCollect => CollectHonest(s, p, 0);
    case DoReap => ReapHonest(s, p);
    case DoRetry(env) => RetryHonest(s, p, env);
    case DoOther(key, env) => OtherHonest(s, p, key, env);
    case DoBatch(n, attempts, leftover) =>
      if 0 < n <= |s.entries| { BatchHonest(s, p, n, attempts, leftover); } else { NoBatch(s, n, attempts, leftover); }
    case DoClose => CloseHonest(s, p);
    case DoWorkerEnds => WorkerEndsHonest(s, p);
  }

  lemma NoBatch(s: State, n: nat, attempts: seq<Attempt>, leftover: File)
    requires !(0 < n <= |s.entries|)
    ensures RunNext(s, n, attempts, leftover) == s
  {}

  lemma CloseHonest(s: State, p: Past)
    requires Honest(s, p)
    ensures Honest(Close(s), p)
  {
    hide Completion.Saved, Written;
    forall x | x in s.pending ensures SlotTrue(Close(s), p, x) { assert SlotTrue(s, p, x); }
    forall x | x in s.settled + s.delivered ensures ReplyTrue(Close(s), p, x) { assert ReplyTrue(s, p, x); }
  }

  // ---------------------------------------------------------------- every run

  lemma StartHonest(hasQueue: bool, file: File)
    ensures Honest(Init(hasQueue, file), NOTHING)
  {}

  lemma {:induction false} RunHonest(hasQueue: bool, file: File, events: seq<Event>)
    ensures Honest(Run(Init(hasQueue, file), events), PastOf(Init(hasQueue, file), events))
  {
    hide Honest, Step, Next, Inv;
    if events == [] {
      StartHonest(hasQueue, file);
    } else {
      var before := events[..|events| - 1];
      RunHonest(hasQueue, file, before);
      RunInv(hasQueue, file, before);
      StepHonest(Run(Init(hasQueue, file), before), PastOf(Init(hasQueue, file), before), events[|events| - 1]);
    }
  }

  /** In every run a submit is told that its settings are saved if and only if its own attempt replaced the
      file, or that of the request which replaced it in its batch did. */
  lemma ToldWhatHappened(hasQueue: bool, file: File, events: seq<Event>, x: SettledSave)
    requires var s := Run(Init(hasQueue, file), events); x in s.settled || x in s.delivered
    requires x.reply.Some?
    ensures x.saved <==> Written(PastOf(Init(hasQueue, file), events), x.reply.value)
  {
    hide Run, Init, PastOf, Written;
    RunHonest(hasQueue, file, events);
    assert ReplyTrue(Run(Init(hasQueue, file), events), PastOf(Init(hasQueue, file), events), x);
  }

  /** And when a batch replaces the file, the file holds the settings of its last save, which every save of the
      batch is told about. */
  lemma ReplacedMeansOnDisk(s: State, n: nat, attempts: seq<Attempt>, leftover: File)
    requires Inv(s) && 0 < n <= |s.entries| && LastSave(s.entries[..n]).Some?
    ensures var r, last := RunNext(s, n, attempts, leftover), s.entries[LastSave(s.entries[..n]).value].work;
      && (Replaces(s.entries[..n], attempts) ==>
            r.file == Holds(last.settings) && r.written == s.written + {last.revision})
      && (!Replaces(s.entries[..n], attempts) ==> r.file == leftover && r.written == s.written)
  {
    hide Inv, RunNext, Ran, Rank, LastSave;
    var batch := s.entries[..n];
    var l := LastSave(batch).value;
    LastIs(batch, l);
    BatchFile(s, n, attempts, leftover);
    SaveOutcome(batch, attempts, l);
    if Replaces(batch, attempts) {
      var k: nat :| k < |batch| && IsSave(batch[k]) && NoneFrom(batch, k + 1)
        && Rank(batch, k) < |attempts| && attempts[Rank(batch, k)] == Replaced;
      assert k == l;
    }
  }

  /** A save is queued behind all others if the writer admits it and has room, and otherwise told at once that it
      was not saved. Without a writer it is made at once: it is told that it was saved exactly if the file now
      holds its settings as a written revision, and otherwise the file is what the failure left. */
  lemma EnqueueTells(s: State, revision: nat, settings: Settings, reply: Option<nat>, env: Env)
    ensures var r := Enqueue(s, revision, settings, reply, env);
      var queued := s.hasQueue && s.admitting && env.room;
      && (queued ==> r.settled == s.settled && |r.entries| == |s.entries| + 1 && s.entries < r.entries
                     && r.entries[|s.entries|].work == SaveSettings(revision, settings)
                     && r.pending == s.pending + [PendingSave(revision, r.entries[|s.entries|].seq_, reply)])
      && (!queued ==> r.entries == s.entries && r.pending == s.pending
                      && r.settled == s.settled + [SettledSave(reply, !s.hasQueue && env.ok)])
      && (if !s.hasQueue && env.ok then r.file == Holds(settings) && r.written == s.written + {revision}
                                        && revision <= r.committed
          else r.written == s.written && r.committed == s.committed
               && r.file == if s.hasQueue then s.file else env.leftover)
  {}
}
