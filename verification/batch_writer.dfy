/** One batch of the storage writer: coalescing by snapshot key and handing every request its result. */
module BatchWriter {
  import opened Wrappers

  /** What the request asks for. Only requests with a key are snapshots that a later one replaces. */
  datatype Work<S> = SaveSettings(revision: nat, settings: S) | Other(otherKey: Option<string>)

  const SETTINGS_KEY := "file:config.toml"

  datatype Entry<S> = Entry(seq_: nat, work: Work<S>) {
    function Key(): Option<string> {
      match work
      case SaveSettings(_, _) => Some(SETTINGS_KEY)
      case Other(k) => k
    }
  }

  /** How running one request ended: the file was replaced, it was reported not replaced, or a panic
      left that unknown. */
  datatype Attempt = Replaced | Refused | Panicked

  datatype Completion =
    | DoneOk(revision: Option<nat>)
    | DoneErr
    | Superseded(successor: nat, outcome: Completion)
    | Failed
    | Unknown
    | Lost
  {
    /** The same result without its value. */
    function Erase(): Completion { if DoneOk? then DoneOk(None) else this }

    /** Whether the requester is told that its save succeeded. */
    predicate Saved() {
      match this
      case DoneOk(_) => true
      case Superseded(_, o) => o.Saved()
      case _ => false
    }
  }

  function ExecuteOne<S>(e: Entry<S>, a: Attempt): Completion {
    match a
    case Replaced => DoneOk(if e.work.SaveSettings? then Some(e.work.revision) else None)
    case Refused => Failed
    case Panicked => Unknown
  }

  // ---------------------------------------------------------------- specification

  /** The last entry of the batch with the same snapshot key as entry i; i itself when it has no key. */
  ghost function Runner<S>(batch: seq<Entry<S>>, i: nat): (l: nat)
    requires i < |batch|
    ensures i <= l < |batch|
    ensures batch[i].Key().None? ==> l == i
    ensures batch[i].Key().Some? ==>
      batch[l].Key() == batch[i].Key()
        && forall j :: l < j < |batch| ==> batch[j].Key() != batch[i].Key()
    decreases |batch|
  {
    if batch[i].Key().None? then i
    else if batch[|batch| - 1].Key() == batch[i].Key() then |batch| - 1
    else Runner(batch[..|batch| - 1], i)
  }

  ghost predicate Runs<S>(batch: seq<Entry<S>>, i: nat)
    requires i < |batch|
  {
    Runner(batch, i) == i
  }

  /** The position of a running entry among the requests handed to the executor. */
  ghost function Rank<S>(batch: seq<Entry<S>>, i: nat): (r: nat)
    requires i <= |batch|
    ensures r <= i
  {
    if i == 0 then 0 else Rank(batch, i - 1) + if Runs(batch, i - 1) then 1 else 0
  }

  /** The result of a running entry; an executor that returned too few results lost it. */
  ghost function Ran<S>(batch: seq<Entry<S>>, attempts: seq<Attempt>, i: nat): Completion
    requires i < |batch|
  {
    var r := Rank(batch, i);
    if r < |attempts| then ExecuteOne(batch[i], attempts[r]) else Lost
  }

  /** The result entry i receives. */
  ghost function ResultAt<S>(batch: seq<Entry<S>>, attempts: seq<Attempt>, i: nat): Completion
    requires i < |batch|
  {
    var l := Runner(batch, i);
    if l == i then Ran(batch, attempts, i) else Superseded(batch[l].seq_, Ran(batch, attempts, l).Erase())
  }

  ghost predicate DistinctSeqs<S>(batch: seq<Entry<S>>) {
    forall i, j :: 0 <= i < j < |batch| ==> batch[i].seq_ != batch[j].seq_
  }

  // ---------------------------------------------------------------- facts about the specification

  lemma RunnerIsRunning<S>(batch: seq<Entry<S>>, i: nat)
    requires i < |batch|
    ensures Runs(batch, Runner(batch, i))
  {}

  lemma {:induction false} RankGrows<S>(batch: seq<Entry<S>>, i: nat, j: nat)
    requires i <= j <= |batch|
    ensures Rank(batch, i) <= Rank(batch, j)
    ensures i < j && Runs(batch, i) ==> Rank(batch, i) < Rank(batch, j)
    decreases j
  {
    if i < j { RankGrows(batch, i, j - 1); }
  }

  /** Entry i runs exactly when no later entry of the batch has its key. */
  lemma RunsIffLast<S>(batch: seq<Entry<S>>, i: nat)
    requires i < |batch|
    ensures Runs(batch, i) <==> batch[i].Key().None? || forall j :: i < j < |batch| ==> batch[j].Key() != batch[i].Key()
  {}

  /** A save is only replaced by a save, or by a request that writes the same file; a request without a key by
      none, and one with a key by one with that key. */
  lemma ReplacedByItsKind<S>(batch: seq<Entry<S>>, i: nat)
    requires i < |batch| && !Runs(batch, i)
    ensures var old_, later := batch[i].work, batch[Runner(batch, i)].work;
      && (old_.SaveSettings? ==> later.SaveSettings? || later == Other(Some(SETTINGS_KEY)))
      && (old_.Other? ==> old_.otherKey.Some?)
      && (old_.Other? && later != old_ ==> later.SaveSettings? && old_.otherKey.value == SETTINGS_KEY)
  {}

  lemma SameRunner<S>(batch: seq<Entry<S>>, i: nat, j: nat)
    requires i < j < |batch| && batch[i].Key().Some? && batch[i].Key() == batch[j].Key()
    ensures Runner(batch, i) == Runner(batch, j) && !Runs(batch, i)
  {}

  // ---------------------------------------------------------------- the worker

  /** m maps the key of every entry from i on to the entry that runs for it, and holds no other key. */
  ghost predicate Remembered<S>(batch: seq<Entry<S>>, i: nat, m: map<string, nat>) {
    && (forall j :: i <= j < |batch| && batch[j].Key().Some? ==>
          batch[j].Key().value in m && m[batch[j].Key().value] == batch[Runner(batch, j)].seq_)
    && (forall k :: k in m ==> exists j :: i <= j < |batch| && batch[j].Key() == Some(k))
  }

  lemma Remember<S>(batch: seq<Entry<S>>, i: nat, m: map<string, nat>)
    requires i < |batch| && Remembered(batch, i + 1, m)
    ensures match batch[i].Key() {
              case None => Runs(batch, i) && Remembered(batch, i, m)
              case Some(key) =>
                && (Runs(batch, i) <==> key !in m)
                && (if key in m then m[key] == batch[Runner(batch, i)].seq_ && Remembered(batch, i, m)
                    else Remembered(batch, i, m[key := batch[i].seq_]))
            }
  {
    hide Runner;
    match batch[i].Key() {
      case None => Widen(batch, i, m);
      case Some(key) =>
        if key in m {
          var j :| i + 1 <= j < |batch| && batch[j].Key() == Some(key);
          SameRunner(batch, i, j);
          Widen(batch, i, m);
        } else {
          assert Runner(batch, i) == i;
          assert batch[i].Key() == Some(key);
          forall k | k in m ensures exists j :: i <= j < |batch| && batch[j].Key() == Some(k) {
            var j :| i + 1 <= j < |batch| && batch[j].Key() == Some(k);
          }
        }
    }
  }

  lemma Widen<S>(batch: seq<Entry<S>>, i: nat, m: map<string, nat>)
    requires i < |batch| && Remembered(batch, i + 1, m)
    requires batch[i].Key().Some? ==>
      batch[i].Key().value in m && m[batch[i].Key().value] == batch[Runner(batch, i)].seq_
    ensures Remembered(batch, i, m)
  {
    hide Runner;
    forall k | k in m ensures exists j :: i <= j < |batch| && batch[j].Key() == Some(k) {
      var j :| i + 1 <= j < |batch| && batch[j].Key() == Some(k);
    }
  }

  /** For every entry, the sequence number of the entry that replaces it. */
  method Coalesce<S>(batch: seq<Entry<S>>) returns (supersededBy: seq<Option<nat>>)
    ensures |supersededBy| == |batch|
    ensures forall i :: 0 <= i < |batch| ==>
              supersededBy[i] == if Runs(batch, i) then None else Some(batch[Runner(batch, i)].seq_)
  {
    hide Runner, Remembered;
    var lastOfKey: map<string, nat> := map[];
    supersededBy := seq(|batch|, _ => None);
    var i: nat := |batch|;
    assert Remembered(batch, i, lastOfKey) by { NothingRemembered(batch); }
    while i > 0
      invariant |supersededBy| == |batch| && i <= |batch| && Remembered(batch, i, lastOfKey)
      invariant forall j :: 0 <= j < i ==> supersededBy[j] == None
      invariant forall j :: i <= j < |batch| ==>
                  supersededBy[j] == if Runs(batch, j) then None else Some(batch[Runner(batch, j)].seq_)
    {
      i := i - 1;
      Remember(batch, i, lastOfKey);
      match batch[i].Key() {
        case None =>
        case Some(key) =>
          if key in lastOfKey {
            supersededBy := supersededBy[i := Some(lastOfKey[key])];
          } else {
            lastOfKey := lastOfKey[key := batch[i].seq_];
          }
      }
    }
  }

  lemma NothingRemembered<S>(batch: seq<Entry<S>>)
    ensures Remembered(batch, |batch|, map[])
  {}

  /** A request that was replaced, waiting for the result of the request `successor`. */
  datatype Link = Link(successor: nat, ticket: nat)

  /** The effect of answering the request seq_: it and everything it replaced have their results. */
  ghost predicate Finished(links: seq<Link>, seq_: nat, completion: Completion, slots: map<nat, Completion>,
                           links': seq<Link>, slots': map<nat, Completion>) {
    && (forall k :: k in links' <==> k in links && k.successor != seq_)
    && (forall i, j :: 0 <= i < j < |links'| ==> links'[i].ticket != links'[j].ticket)
    && (forall q :: q in slots' ==>
      q in slots || q == seq_
        || exists k :: k in links && k.successor == seq_ && k.ticket == q)
    && (forall q :: q in slots ==> q in slots' && slots'[q] == slots[q])
    && seq_ in slots' && slots'[seq_] == completion
    && (forall k :: k in links && k.successor == seq_ ==>
      k.ticket in slots' && slots'[k.ticket] == Superseded(seq_, completion.Erase()))
  }

  /** Hands completion to the request seq_ and to everything it replaced. */
  method Finish(links: seq<Link>, seq_: nat, completion: Completion, slots: map<nat, Completion>)
    returns (links': seq<Link>, slots': map<nat, Completion>)
    requires seq_ !in slots
    requires forall i :: 0 <= i < |links| ==> links[i].ticket !in slots && links[i].ticket != seq_
    requires forall i, j :: 0 <= i < j < |links| ==> links[i].ticket != links[j].ticket
    ensures Finished(links, seq_, completion, slots, links', slots')
  {
    links', slots' := links, slots;
    var i := 0;
    while i < |links'|
      invariant i <= |links'|
      invariant forall k :: k in links' ==> k in links
      invariant forall k :: k in links && k.successor != seq_ ==> k in links'
      invariant forall k :: k in links && k !in links' ==>
        k.successor == seq_ && k.ticket in slots' && slots'[k.ticket] == Superseded(seq_, completion.Erase())
      invariant forall j :: 0 <= j < i ==> links'[j].successor != seq_
      invariant forall a, b :: 0 <= a < b < |links'| ==> links'[a].ticket != links'[b].ticket
      invariant forall k :: k in links' ==> k.ticket !in slots'
      invariant forall q :: q in slots ==> q in slots' && slots'[q] == slots[q]
      invariant forall q :: q in slots' ==> q in slots || exists k :: k in links && k.successor == seq_ && k.ticket == q
      invariant seq_ !in slots'
      decreases |links'| - i
    {
      if links'[i].successor == seq_ {
        var link := links'[i];
        ghost var before := links';
        links' := links'[i := links'[|links'| - 1]][..|links'| - 1];
        SwapRemoveContents(before, i);
        slots' := slots'[link.ticket := Superseded(seq_, completion.Erase())];
      } else {
        i := i + 1;
      }
    }
    slots' := slots'[seq_ := completion];
  }

  lemma SwapRemoveContents(links: seq<Link>, i: nat)
    requires i < |links|
    requires forall a, b :: 0 <= a < b < |links| ==> links[a].ticket != links[b].ticket
    ensures var r := links[i := links[|links| - 1]][..|links| - 1];
            && (forall k :: k in r <==> k in links && k != links[i])
            && forall a, b :: 0 <= a < b < |r| ==> r[a].ticket != r[b].ticket
  {
    var r := links[i := links[|links| - 1]][..|links| - 1];
    forall k | k in links && k != links[i] ensures k in r {
      var j :| 0 <= j < |links| && links[j] == k;
      assert r[if j == |links| - 1 then i else j] == k;
    }
  }

  // ---------------------------------------------------------------- rounds of the executor

  /** What one call of the executor says: results for its requests one by one, that the store is busy,
      that it cannot run one of them, or one end for them all. */
  datatype Round = Answered(results: seq<Completion>) | Busy | Poisoned(index: nat) | AllFailed | AllUnknown | Crashed

  /** The k-th call, with these requests. */
  type Executor<!S> = (nat, seq<Entry<S>>) -> Round

  function Same(n: nat, end: Completion): (r: seq<Completion>) { seq(n, _ => end) }

  function Padded(n: nat, results: seq<Completion>): seq<Completion> {
    seq(n, r requires 0 <= r < n => if r < |results| then results[r] else Lost)
  }

  function Drop<T>(s: seq<T>, i: nat): seq<T>
    requires i < |s|
  {
    s[..i] + s[i + 1..]
  }

  function Insert<T>(s: seq<T>, i: nat, x: T): seq<T>
    requires i <= |s|
  {
    s[..i] + [x] + s[i..]
  }

  /** The answers to the requests of run, in order. The executor is called until it answers or gives up;
      a busy store is waited for `waits` times, and a poisoned request fails alone. */
  function Answers<S>(exec: Executor<S>, k: nat, run: seq<Entry<S>>, waits: nat): (r: seq<Completion>)
    ensures |r| == |run|
    decreases |run| + waits
  {
    if run == [] then []
    else
      match exec(k, run)
      case Answered(results) => Padded(|run|, results)
      case Busy => if waits > 0 then Answers(exec, k + 1, run, waits - 1) else Same(|run|, Failed)
      case Poisoned(i) => if i < |run| then Insert(Answers(exec, k + 1, Drop(run, i), waits), i, Failed)
        else Same(|run|, Failed)
      case AllFailed => Same(|run|, Failed)
      case AllUnknown => Same(|run|, Unknown)
      case Crashed => Same(|run|, Lost)
  }

  /** What a call that is the last one says about its t-th request. */
  function EndOf(round: Round, t: nat): Completion {
    match round
    case Answered(results) => if t < |results| then results[t] else Lost
    case AllUnknown => Unknown
    case Crashed => Lost
    case _ => Failed
  }

  ghost predicate Increasing(at: seq<nat>, n: nat) {
    (forall t :: 0 <= t < |at| ==> at[t] < n) && forall t, u :: 0 <= t < u < |at| ==> at[t] < at[u]
  }

  ghost function Pick<T>(s: seq<T>, at: seq<nat>): (r: seq<T>)
    requires Increasing(at, |s|)
    ensures |r| == |at|
  {
    seq(|at|, t requires 0 <= t < |at| => s[at[t]])
  }

  /** The requests at the positions `at` are answered by call number n, all others have failed alone. */
  ghost predicate OneCall<S>(exec: Executor<S>, k: nat, run: seq<Entry<S>>, waits: nat, answers: seq<Completion>,
                             n: nat, at: seq<nat>) {
    && k <= n <= k + |run| - |at| + waits && |answers| == |run| && Increasing(at, |run|)
    && (forall t :: 0 <= t < |at| ==> answers[at[t]] == EndOf(exec(n, Pick(run, at)), t))
    && (forall i :: 0 <= i < |run| && i !in at ==> answers[i] == Failed)
  }

  function Shifted(at: seq<nat>, i: nat): (r: seq<nat>)
    ensures |r| == |at|
  {
    seq(|at|, t requires 0 <= t < |at| => if at[t] < i then at[t] else at[t] + 1)
  }

  /** Nothing is run again once it was answered: whatever was not poisoned gets its result from one and
      the same call, the last, and there are no more calls than requests to drop and waits to spend. */
  lemma {:induction false} OneCallAnswers<S>(exec: Executor<S>, k: nat, run: seq<Entry<S>>, waits: nat)
    returns (n: nat, at: seq<nat>)
    ensures OneCall(exec, k, run, waits, Answers(exec, k, run, waits), n, at)
    decreases |run| + waits
  {
    if run == [] {
      n, at := k, [];
      return;
    }
    match exec(k, run) {
      case Busy =>
        if waits > 0 {
          n, at := OneCallAnswers(exec, k + 1, run, waits - 1);
          return;
        }
      case Poisoned(i) =>
        if i < |run| {
          n, at := OneCallAnswers(exec, k + 1, Drop(run, i), waits);
          OneCallInserted(exec, k, run, waits, i, Answers(exec, k + 1, Drop(run, i), waits), n, at);
          at := Shifted(at, i);
          return;
        }
      case _ =>
    }
    n, at := k, seq(|run|, t => t);
    assert Pick(run, at) == run;
    forall i: nat | i < |run| ensures i in at { assert at[i] == i; }
  }

  lemma OneCallInserted<S>(exec: Executor<S>, k: nat, run: seq<Entry<S>>, waits: nat, i: nat, rest: seq<Completion>,
                           n: nat, at: seq<nat>)
    requires i < |run| && OneCall(exec, k + 1, Drop(run, i), waits, rest, n, at)
    ensures OneCall(exec, k, run, waits, Insert(rest, i, Failed), n, Shifted(at, i))
  {
    hide EndOf;
    var all, up := Insert(rest, i, Failed), Shifted(at, i);
    assert Increasing(up, |run|);
    assert Pick(run, up) == Pick(Drop(run, i), at) by { PickShifted(run, i, at); }
    forall t | 0 <= t < |up| ensures all[up[t]] == EndOf(exec(n, Pick(run, up)), t) {
      assert all[up[t]] == rest[at[t]];
    }
    forall j | 0 <= j < |run| && j !in up ensures all[j] == Failed {
      if j != i {
        NotShifted(at, i, j);
        assert all[j] == rest[if j < i then j else j - 1];
      }
    }
  }

  lemma PickShifted<T>(run: seq<T>, i: nat, at: seq<nat>)
    requires i < |run| && Increasing(at, |run| - 1)
    ensures Increasing(Shifted(at, i), |run|) && Pick(run, Shifted(at, i)) == Pick(Drop(run, i), at)
  {}

  lemma NotShifted(at: seq<nat>, i: nat, j: nat)
    requires j !in Shifted(at, i) && j != i
    ensures (if j < i then j else j - 1) !in at
  {
    forall t | 0 <= t < |at| ensures at[t] != if j < i then j else j - 1 { assert Shifted(at, i)[t] != j; }
  }

  // ---------------------------------------------------------------- the result of every entry

  /** The running entries among the first n, in order. */
  ghost function RunningTo<S>(batch: seq<Entry<S>>, n: nat): (r: seq<Entry<S>>)
    requires n <= |batch|
    ensures |r| == Rank(batch, n)
  {
    if n == 0 then [] else RunningTo(batch, n - 1) + if Runs(batch, n - 1) then [batch[n - 1]] else []
  }

  /** The answer to running entry i. */
  ghost function AnswerAt<S>(batch: seq<Entry<S>>, exec: Executor<S>, waits: nat, i: nat): Completion {
    var answers := Answers(exec, 0, RunningTo(batch, |batch|), waits);
    if i < |batch| && Rank(batch, i) < |answers| then answers[Rank(batch, i)] else Lost
  }

  ghost function AnswersTo<S>(batch: seq<Entry<S>>, exec: Executor<S>, waits: nat): nat -> Completion {
    (i: nat) => AnswerAt(batch, exec, waits, i)
  }

  /** The result entry i receives when the running entries are answered as ans says. */
  ghost function ResultOf<S>(batch: seq<Entry<S>>, ans: nat -> Completion, i: nat): Completion
    requires i < |batch|
  {
    var l := Runner(batch, i);
    if l == i then ans(i) else Superseded(batch[l].seq_, ans(l).Erase())
  }

  ghost function LinkOf<S>(batch: seq<Entry<S>>, j: nat): Link
    requires j < |batch|
  {
    Link(batch[Runner(batch, j)].seq_, batch[j].seq_)
  }

  ghost function Seqs<S>(batch: seq<Entry<S>>): set<nat> { set i | 0 <= i < |batch| :: batch[i].seq_ }

  ghost function IndexOf<S>(batch: seq<Entry<S>>, q: nat): (i: nat)
    requires q in Seqs(batch)
    ensures i < |batch| && batch[i].seq_ == q
  {
    var i :| 0 <= i < |batch| && batch[i].seq_ == q; i
  }

  /** Entry j's link is waiting: it is replaced, and its runner is among those left. */
  ghost predicate Waits<S>(batch: seq<Entry<S>>, j: nat, left: set<nat>)
    requires j < |batch|
  {
    !Runs(batch, j) && Runner(batch, j) in left
  }

  ghost predicate IsWaiting<S>(batch: seq<Entry<S>>, k: Link, n: nat, left: set<nat>)
    requires n <= |batch|
  {
    && k.ticket in Seqs(batch) && IndexOf(batch, k.ticket) < n
    && Waits(batch, IndexOf(batch, k.ticket), left) && k == LinkOf(batch, IndexOf(batch, k.ticket))
  }

  /** The links of the waiting entries before n. */
  ghost predicate LinksAre<S>(batch: seq<Entry<S>>, links: seq<Link>, n: nat, left: set<nat>)
    requires n <= |batch|
  {
    && (forall k :: k in links ==> IsWaiting(batch, k, n, left))
    && (forall j :: 0 <= j < n && Waits(batch, j, left) ==> LinkOf(batch, j) in links)
    && (forall a, b :: 0 <= a < b < |links| ==> links[a].ticket != links[b].ticket)
  }

  /** Exactly the entries whose runner is not left are answered, and correctly. */
  ghost predicate SlotsAre<S>(batch: seq<Entry<S>>, ans: nat -> Completion, slots: map<nat, Completion>,
                              left: set<nat>) {
    && slots.Keys <= Seqs(batch)
    && (forall j :: 0 <= j < |batch| ==> (batch[j].seq_ in slots <==> Runner(batch, j) !in left))
    && (forall j :: 0 <= j < |batch| && batch[j].seq_ in slots ==> slots[batch[j].seq_] == ResultOf(batch, ans, j))
  }

  ghost function Elements(at: seq<nat>): set<nat> { set p | p in at }

  ghost function Running<S>(batch: seq<Entry<S>>): set<nat> { set i | 0 <= i < |batch| && Runs(batch, i) }

  /** The running entries before n, in order, and their positions. */
  ghost predicate RunIs<S>(batch: seq<Entry<S>>, run: seq<Entry<S>>, at: seq<nat>, n: nat)
    requires n <= |batch|
  {
    && |run| == |at| && Increasing(at, n)
    && (forall r :: 0 <= r < |at| ==> Runs(batch, at[r]) && run[r] == batch[at[r]])
    && (forall i :: 0 <= i < n && Runs(batch, i) ==> i in at)
  }

  /** run holds the entries at the positions `at`, which run and differ. */
  ghost predicate Standing<S>(batch: seq<Entry<S>>, run: seq<Entry<S>>, at: seq<nat>) {
    && |run| == |at| && Increasing(at, |batch|)
    && forall r :: 0 <= r < |at| ==> Runs(batch, at[r]) && run[r] == batch[at[r]]
  }

  ghost predicate AnsweredBy(ans: nat -> Completion, at: seq<nat>, answers: seq<Completion>) {
    |answers| == |at| && forall r :: 0 <= r < |at| ==> ans(at[r]) == answers[r]
  }

  /** The state of the work between two answers: what is left, which links wait, which slots are filled. */
  ghost predicate Between<S>(batch: seq<Entry<S>>, ans: nat -> Completion, run: seq<Entry<S>>, at: seq<nat>,
                             links: seq<Link>, slots: map<nat, Completion>) {
    && Standing(batch, run, at)
    && LinksAre(batch, links, |batch|, Elements(at)) && SlotsAre(batch, ans, slots, Elements(at))
  }

  ghost predicate AllResults<S>(batch: seq<Entry<S>>, ans: nat -> Completion, slots: map<nat, Completion>) {
    slots.Keys == Seqs(batch) && forall i :: 0 <= i < |batch| ==> slots[batch[i].seq_] == ResultOf(batch, ans, i)
  }

  // ---------------------------------------------------------------- running a batch

  /** Coalesces, then calls the executor until every request has its answer. */
  method RunRounds<S>(batch: seq<Entry<S>>, exec: Executor<S>, patience: nat) returns (slots: map<nat, Completion>)
    requires DistinctSeqs(batch)
    ensures slots.Keys == Seqs(batch)
    ensures forall i :: 0 <= i < |batch| ==>
      slots[batch[i].seq_] == ResultOf(batch, AnswersTo(batch, exec, patience), i)
  {
    hide Runner, ResultOf, AnswersTo, Between, AnsweredBy, Answers, RunIs, LinksAre, Standing;
    ghost var ans := AnswersTo(batch, exec, patience);
    var run, links := Gather(batch);
    ghost var at := Positions(batch, |batch|);
    slots := map[];
    StartsBetween(batch, exec, patience, run, links);
    var k, waits := 0, patience;
    var end := Lost;
    while true
      invariant Between(batch, ans, run, at, links, slots)
      invariant AnsweredBy(ans, at, Answers(exec, k, run, waits))
      decreases |run| + waits
    {
      BetweenLengths(batch, ans, run, at, links, slots);
      if run == [] {
        AllAnswered(batch, ans, run, at, links, slots);
        // The source answers leftover links as lost; there are none.
        return;
      }
      ghost var answers := Answers(exec, k, run, waits);
      AnswersOf(exec, k, run, waits);
      match exec(k, run) {
        case Answered(results) =>
          slots := Deliver(batch, ans, run, at, links, slots, Padded(|run|, results));
          return;
        case Busy =>
          if waits == 0 {
            end := Failed;
            break;
          }
          waits := waits - 1;
        case Poisoned(i) =>
          if i >= |run| {
            end := Failed;
            break;
          }
          OneAnswered(ans, at, answers, i);
          links, slots := AnswerOne(batch, ans, run, at, links, slots, i, Failed);
          WithoutPoisoned(ans, at, i, Answers(exec, k + 1, Drop(run, i), waits));
          run, at := Drop(run, i), Drop(at, i);
        case AllFailed =>
          end := Failed;
          break;
        case AllUnknown =>
          end := Unknown;
          break;
        case Crashed =>
          end := Lost;
          break;
      }
      k := k + 1;
    }
    slots := Deliver(batch, ans, run, at, links, slots, Same(|run|, end));
  }

  /** The requests that run and the links of those that are replaced. */
  method Gather<S>(batch: seq<Entry<S>>) returns (run: seq<Entry<S>>, links: seq<Link>)
    requires DistinctSeqs(batch)
    ensures run == RunningTo(batch, |batch|) && LinksAre(batch, links, |batch|, Running(batch))
  {
    hide Runner, LinksAre, Runs;
    var replacedBy := Coalesce(batch);
    run, links := [], [];
    assert LinksAre(batch, links, 0, Running(batch)) by { NoLinks(batch); }
    for i := 0 to |batch|
      invariant run == RunningTo(batch, i) && LinksAre(batch, links, i, Running(batch))
    {
      TakeUp(batch, links, i);
      match replacedBy[i] {
        case Some(b) =>
          links := links + [Link(b, batch[i].seq_)];
        case None =>
          run := run + [batch[i]];
      }
    }
  }

  /** Answers the i-th of the requests left, and whatever it replaced. */
  method AnswerOne<S>(ghost batch: seq<Entry<S>>, ghost ans: nat -> Completion, run: seq<Entry<S>>, ghost at: seq<nat>,
                      links: seq<Link>, slots: map<nat, Completion>, i: nat, completion: Completion)
    returns (links': seq<Link>, slots': map<nat, Completion>)
    requires DistinctSeqs(batch) && Between(batch, ans, run, at, links, slots) && i < |run| == |at|
      && ans(at[i]) == completion
    ensures Between(batch, ans, Drop(run, i), Drop(at, i), links', slots')
  {
    hide LinksAre, SlotsAre, Finished, Runner, Runs, Elements;
    ghost var l := at[i];
    BeforeFinish(batch, ans, l, links, slots, Elements(at)) by { ElementOf(at, i); }
    links', slots' := Finish(links, run[i].seq_, completion, slots);
    LinksAfter(batch, l, links, completion, slots, links', slots', Elements(at));
    SlotsAfter(batch, ans, l, links, slots, links', slots', Elements(at)) by { ElementOf(at, i); }
    Dropped(batch, run, at, i);
  }

  /** The results of the last call, one for each request that is left. */
  method Deliver<S>(ghost batch: seq<Entry<S>>, ghost ans: nat -> Completion, all: seq<Entry<S>>,
                    ghost places: seq<nat>,
                    waiting: seq<Link>, filled: map<nat, Completion>, results: seq<Completion>)
    returns (slots: map<nat, Completion>)
    requires DistinctSeqs(batch) && Between(batch, ans, all, places, waiting, filled) && |all| == |results|
    requires AnsweredBy(ans, places, results)
    ensures AllResults(batch, ans, slots)
  {
    hide Between, AllResults;
    var links, run := waiting, all;
    ghost var at := places;
    slots := filled;
    for r := 0 to |all|
      invariant run == all[r..] && at == places[r..]
      invariant Between(batch, ans, run, at, links, slots)
    {
      links, slots := AnswerOne(batch, ans, run, at, links, slots, 0, results[r]);
      assert Drop(run, 0) == all[r + 1..] && Drop(at, 0) == places[r + 1..];
      run, at := run[1..], at[1..];
    }
    AllAnswered(batch, ans, run, at, links, slots);
  }

  // ---- why

  /** Answers, one turn of the loop at a time. */
  lemma AnswersOf<S>(exec: Executor<S>, k: nat, run: seq<Entry<S>>, waits: nat)
    requires run != []
    ensures var a := Answers(exec, k, run, waits);
      match exec(k, run)
      case Answered(results) => a == Padded(|run|, results)
      case Busy => a == if waits > 0 then Answers(exec, k + 1, run, waits - 1) else Same(|run|, Failed)
      case Poisoned(i) => a == if i < |run| then Insert(Answers(exec, k + 1, Drop(run, i), waits), i, Failed)
        else Same(|run|, Failed)
      case AllFailed => a == Same(|run|, Failed)
      case AllUnknown => a == Same(|run|, Unknown)
      case Crashed => a == Same(|run|, Lost)
  {}

  /** The positions of the running entries before n. */
  ghost function Positions<S>(batch: seq<Entry<S>>, n: nat): (at: seq<nat>)
    requires n <= |batch|
    ensures |at| == Rank(batch, n)
  {
    if n == 0 then [] else Positions(batch, n - 1) + if Runs(batch, n - 1) then [n - 1] else []
  }

  lemma {:induction false} PositionsAre<S>(batch: seq<Entry<S>>, n: nat)
    requires n <= |batch|
    ensures RunIs(batch, RunningTo(batch, n), Positions(batch, n), n)
  {
    if n > 0 {
      hide Runs, RunIs;
      PositionsAre(batch, n - 1);
      OnePositionMore(batch, n);
    } else {
      assert Positions(batch, 0) == [];
    }
  }

  lemma OnePositionMore<S>(batch: seq<Entry<S>>, n: nat)
    requires 0 < n <= |batch| && RunIs(batch, RunningTo(batch, n - 1), Positions(batch, n - 1), n - 1)
    ensures RunIs(batch, RunningTo(batch, n), Positions(batch, n), n)
  {
    hide Runs;
    var at, more := Positions(batch, n - 1), Positions(batch, n);
    assert more == at + if Runs(batch, n - 1) then [n - 1] else [];
    assert forall i :: i in more <==> i in at || (Runs(batch, n - 1) && i == n - 1);
  }

  lemma StartsBetween<S>(batch: seq<Entry<S>>, exec: Executor<S>, waits: nat, run: seq<Entry<S>>, links: seq<Link>)
    requires run == RunningTo(batch, |batch|) && LinksAre(batch, links, |batch|, Running(batch))
    ensures Between(batch, AnswersTo(batch, exec, waits), run, Positions(batch, |batch|), links, map[])
    ensures AnsweredBy(AnswersTo(batch, exec, waits), Positions(batch, |batch|), Answers(exec, 0, run, waits))
  {
    hide LinksAre, SlotsAre, Answers, Runs, RunningTo, Positions;
    PositionsAre(batch, |batch|);
    PositionsRun(batch, RunningTo(batch, |batch|), Positions(batch, |batch|));
    NothingAnswered(batch, AnswersTo(batch, exec, waits));
    forall r: nat | r < |run|
      ensures AnswerAt(batch, exec, waits, Positions(batch, |batch|)[r]) == Answers(exec, 0, run, waits)[r] {
      RankOfPosition(batch, |batch|, r);
    }
  }

  lemma {:induction false} RankOfPosition<S>(batch: seq<Entry<S>>, n: nat, r: nat)
    requires n <= |batch| && r < Rank(batch, n)
    ensures Positions(batch, n)[r] < n && Rank(batch, Positions(batch, n)[r]) == r
  {
    hide Runs;
    if r < Rank(batch, n - 1) { RankOfPosition(batch, n - 1, r); }
  }

  lemma PositionsRun<S>(batch: seq<Entry<S>>, run: seq<Entry<S>>, at: seq<nat>)
    requires RunIs(batch, run, at, |batch|)
    ensures Elements(at) == Running(batch)
  {}

  lemma NothingAnswered<S>(batch: seq<Entry<S>>, ans: nat -> Completion)
    ensures SlotsAre(batch, ans, map[], Running(batch))
  {
    hide ResultOf;
    forall j | 0 <= j < |batch| ensures Runner(batch, j) in Running(batch) { RunnerIsRunning(batch, j); }
  }

  lemma BetweenLengths<S>(batch: seq<Entry<S>>, ans: nat -> Completion, run: seq<Entry<S>>, at: seq<nat>,
                          links: seq<Link>, slots: map<nat, Completion>)
    requires Between(batch, ans, run, at, links, slots)
    ensures |run| == |at|
  {}

  lemma OneAnswered(ans: nat -> Completion, at: seq<nat>, answers: seq<Completion>, i: nat)
    requires AnsweredBy(ans, at, answers) && i < |at|
    ensures ans(at[i]) == answers[i]
  {}

  lemma WithoutPoisoned(ans: nat -> Completion, at: seq<nat>, i: nat, rest: seq<Completion>)
    requires i < |at| == |rest| + 1 && AnsweredBy(ans, at, Insert(rest, i, Failed))
    ensures AnsweredBy(ans, Drop(at, i), rest)
  {
    var all := Insert(rest, i, Failed);
    forall r | 0 <= r < |rest| ensures ans(Drop(at, i)[r]) == rest[r] {
      assert if r < i then all[r] == rest[r] else all[r + 1] == rest[r];
    }
  }

  lemma ElementOf(at: seq<nat>, i: nat)
    requires i < |at|
    ensures at[i] in Elements(at)
  {}

  lemma Dropped<S>(batch: seq<Entry<S>>, run: seq<Entry<S>>, at: seq<nat>, i: nat)
    requires Standing(batch, run, at) && i < |at|
    ensures Standing(batch, Drop(run, i), Drop(at, i)) && Elements(Drop(at, i)) == Elements(at) - {at[i]}
  {
    var rest := Drop(at, i);
    assert forall r :: 0 <= r < |rest| ==> rest[r] == at[if r < i then r else r + 1];
    assert Elements(rest) == Elements(at) - {at[i]} by { DroppedElements(at, |batch|, i); }
  }

  lemma DroppedElements(at: seq<nat>, n: nat, i: nat)
    requires Increasing(at, n) && i < |at|
    ensures Elements(Drop(at, i)) == Elements(at) - {at[i]}
  {
    var rest := Drop(at, i);
    forall p | p in at && p != at[i] ensures p in rest {
      var r :| 0 <= r < |at| && at[r] == p;
      assert rest[if r < i then r else r - 1] == p;
    }
  }

  lemma NoLinks<S>(batch: seq<Entry<S>>)
    ensures LinksAre(batch, [], 0, Running(batch))
  {}

  lemma IndexOfSeq<S>(batch: seq<Entry<S>>, j: nat)
    requires j < |batch| && DistinctSeqs(batch)
    ensures batch[j].seq_ in Seqs(batch) && IndexOf(batch, batch[j].seq_) == j
  {}

  /** Entry i of the batch is taken up: it runs, or its link joins the waiting ones. */
  lemma TakeUp<S>(batch: seq<Entry<S>>, links: seq<Link>, i: nat)
    requires i < |batch| && DistinctSeqs(batch) && LinksAre(batch, links, i, Running(batch))
    ensures LinksAre(batch, if Runs(batch, i) then links else links + [LinkOf(batch, i)], i + 1, Running(batch))
    ensures !Runs(batch, i) ==> LinkOf(batch, i) == Link(batch[Runner(batch, i)].seq_, batch[i].seq_)
  {
    hide Rank, Runner, IndexOf, IsWaiting, Runs, DistinctSeqs, Running;
    forall k | k in links ensures IsWaiting(batch, k, i + 1, Running(batch)) && k.ticket != batch[i].seq_ {
      WaitsOn(batch, k, i);
    }
    if !Runs(batch, i) {
      var mine := LinkOf(batch, i);
      MineWaits(batch, i);
      assert forall k :: k in links + [mine] <==> k in links || k == mine;
      assert forall a :: 0 <= a < |links| ==> links[a] in links;
    }
  }

  lemma WaitsOn<S>(batch: seq<Entry<S>>, k: Link, i: nat)
    requires i < |batch| && DistinctSeqs(batch) && IsWaiting(batch, k, i, Running(batch))
    ensures IsWaiting(batch, k, i + 1, Running(batch)) && k.ticket != batch[i].seq_
  {
    IndexOfSeq(batch, i);
  }

  lemma MineWaits<S>(batch: seq<Entry<S>>, i: nat)
    requires i < |batch| && DistinctSeqs(batch) && !Runs(batch, i)
    ensures IsWaiting(batch, LinkOf(batch, i), i + 1, Running(batch)) && LinkOf(batch, i).ticket == batch[i].seq_
  {
    IndexOfSeq(batch, i);
    RunnerIsRunning(batch, i);
  }

  lemma BeforeFinish<S>(batch: seq<Entry<S>>, ans: nat -> Completion, l: nat, links: seq<Link>,
                        slots: map<nat, Completion>, left: set<nat>)
    requires l < |batch| && DistinctSeqs(batch) && Runs(batch, l) && l in left
    requires LinksAre(batch, links, |batch|, left) && SlotsAre(batch, ans, slots, left)
    ensures batch[l].seq_ !in slots
    ensures forall i :: 0 <= i < |links| ==> links[i].ticket !in slots && links[i].ticket != batch[l].seq_
    ensures forall i, j :: 0 <= i < j < |links| ==> links[i].ticket != links[j].ticket
  {
    hide Rank, Runner, ResultOf;
    forall i | 0 <= i < |links| ensures links[i].ticket !in slots && links[i].ticket != batch[l].seq_ {
      assert links[i] in links;
      IndexOfSeq(batch, l);
    }
  }

  /** The entries answered together with the running entry l are known by its number. */
  lemma SameNumber<S>(batch: seq<Entry<S>>, l: nat, j: nat)
    requires l < |batch| && j < |batch| && DistinctSeqs(batch)
    ensures batch[Runner(batch, j)].seq_ == batch[l].seq_ <==> Runner(batch, j) == l
  {}

  lemma LinksAfter<S>(batch: seq<Entry<S>>, l: nat, links: seq<Link>, completion: Completion,
                      slots: map<nat, Completion>,
                      links': seq<Link>, slots': map<nat, Completion>, left: set<nat>)
    requires l < |batch| && DistinctSeqs(batch) && LinksAre(batch, links, |batch|, left)
    requires Finished(links, batch[l].seq_, completion, slots, links', slots')
    ensures LinksAre(batch, links', |batch|, left - {l})
  {
    hide Runner, Runs;
    forall k | k in links' ensures k in links && Waits(batch, IndexOf(batch, k.ticket), left - {l}) {
      SameNumber(batch, l, IndexOf(batch, k.ticket));
    }
    forall j | 0 <= j < |batch| && Waits(batch, j, left - {l}) ensures LinkOf(batch, j) in links' {
      SameNumber(batch, l, j);
      assert Waits(batch, j, left);
    }
  }

  lemma SlotsAfter<S>(batch: seq<Entry<S>>, ans: nat -> Completion, l: nat, links: seq<Link>,
                      slots: map<nat, Completion>,
                      links': seq<Link>, slots': map<nat, Completion>, left: set<nat>)
    requires l < |batch| && DistinctSeqs(batch) && Runs(batch, l) && l in left
    requires LinksAre(batch, links, |batch|, left) && SlotsAre(batch, ans, slots, left)
    requires Finished(links, batch[l].seq_, ans(l), slots, links', slots')
    ensures SlotsAre(batch, ans, slots', left - {l})
  {
    hide Runner, Runs, ResultOf, LinksAre;
    NoStrangers(batch, l, links, ans(l), slots, links', slots', left);
    forall j | 0 <= j < |batch|
      ensures batch[j].seq_ in slots' <==> Runner(batch, j) !in left - {l}
      ensures batch[j].seq_ in slots' ==> slots'[batch[j].seq_] == ResultOf(batch, ans, j)
    {
      OneSlotAfter(batch, ans, l, links, slots, links', slots', left, j);
    }
  }

  lemma NoStrangers<S>(batch: seq<Entry<S>>, l: nat, links: seq<Link>, completion: Completion,
                       slots: map<nat, Completion>,
                       links': seq<Link>, slots': map<nat, Completion>, left: set<nat>)
    requires l < |batch| && LinksAre(batch, links, |batch|, left) && slots.Keys <= Seqs(batch)
    requires Finished(links, batch[l].seq_, completion, slots, links', slots')
    ensures slots'.Keys <= Seqs(batch)
  {
    hide Runner, Runs;
    assert batch[l].seq_ in Seqs(batch);
  }

  lemma OneSlotAfter<S>(batch: seq<Entry<S>>, ans: nat -> Completion, l: nat, links: seq<Link>,
                        slots: map<nat, Completion>,
                        links': seq<Link>, slots': map<nat, Completion>, left: set<nat>, j: nat)
    requires l < |batch| && DistinctSeqs(batch) && Runs(batch, l) && l in left && j < |batch|
    requires LinksAre(batch, links, |batch|, left) && SlotsAre(batch, ans, slots, left)
    requires Finished(links, batch[l].seq_, ans(l), slots, links', slots')
    ensures batch[j].seq_ in slots' <==> Runner(batch, j) !in left - {l}
    ensures batch[j].seq_ in slots' ==> slots'[batch[j].seq_] == ResultOf(batch, ans, j)
  {
    hide Runner;
    SameNumber(batch, l, j);
    IndexOfSeq(batch, j);
    IndexOfSeq(batch, l);
    if Runner(batch, j) == l && j != l {
      assert Waits(batch, j, left);
      assert LinkOf(batch, j) in links;
    }
  }

  lemma AllAnswered<S>(batch: seq<Entry<S>>, ans: nat -> Completion, run: seq<Entry<S>>, at: seq<nat>,
                       links: seq<Link>, slots: map<nat, Completion>)
    requires run == [] && Between(batch, ans, run, at, links, slots)
    ensures AllResults(batch, ans, slots) && links == []
  {
    hide Runner, ResultOf, LinksAre;
    assert Elements(at) == {};
    NoLinksLeft(batch, links);
  }

  lemma NoLinksLeft<S>(batch: seq<Entry<S>>, links: seq<Link>)
    requires LinksAre(batch, links, |batch|, {})
    ensures links == []
  {
    hide Runner, LinkOf, Seqs, Runs;
    if links != [] { HasFirst(links); }
  }

  lemma HasFirst<T>(s: seq<T>)
    requires s != []
    ensures exists x :: x in s
  {
    assert s[0] in s;
  }

  // ---------------------------------------------------------------- the file executor

  /** The executor of files answers each request by itself, in its first call. */
  function FileExecutor<S>(attempts: seq<Attempt>): Executor<S> {
    (_: nat, run: seq<Entry<S>>) =>
      Answered(seq(if |attempts| < |run| then |attempts| else |run|,
        r requires 0 <= r < |attempts| && r < |run| => ExecuteOne(run[r], attempts[r])))
  }

  /** Runs a batch against the executor's attempts and fills one slot per request. */
  method RunBatch<S>(batch: seq<Entry<S>>, attempts: seq<Attempt>) returns (slots: map<nat, Completion>)
    requires DistinctSeqs(batch)
    ensures slots.Keys == Seqs(batch)
    ensures forall i :: 0 <= i < |batch| ==> slots[batch[i].seq_] == ResultAt(batch, attempts, i)
  {
    hide ResultAt, ResultOf, AnswersTo;
    slots := RunRounds(batch, FileExecutor(attempts), 0);
    forall i | 0 <= i < |batch|
      ensures ResultOf(batch, AnswersTo(batch, FileExecutor(attempts), 0), i) == ResultAt(batch, attempts, i) {
      FilesAnswer(batch, attempts, i);
    }
  }

  lemma FilesAnswer<S>(batch: seq<Entry<S>>, attempts: seq<Attempt>, i: nat)
    requires i < |batch|
    ensures ResultOf(batch, AnswersTo(batch, FileExecutor(attempts), 0), i) == ResultAt(batch, attempts, i)
  {
    hide Runner, Rank, Ran, AnswerAt;
    RunnerIsRunning(batch, i);
    FilesAnswerOne(batch, attempts, Runner(batch, i));
  }

  lemma FilesAnswerOne<S>(batch: seq<Entry<S>>, attempts: seq<Attempt>, l: nat)
    requires l < |batch| && Runs(batch, l)
    ensures AnswerAt(batch, FileExecutor(attempts), 0, l) == Ran(batch, attempts, l)
  {
    hide Runs, Rank, RunningTo;
    RunningAt(batch, |batch|, l);
    AnswersOf(FileExecutor(attempts), 0, RunningTo(batch, |batch|), 0);
  }

  /** A running entry stands at its rank among the running ones. */
  lemma {:induction false} RunningAt<S>(batch: seq<Entry<S>>, n: nat, l: nat)
    requires l < n <= |batch| && Runs(batch, l)
    ensures Rank(batch, l) < Rank(batch, n) && RunningTo(batch, n)[Rank(batch, l)] == batch[l]
  {
    hide Runs;
    if l < n - 1 { RunningAt(batch, n - 1, l); }
  }

  ghost predicate AttemptIs(attempts: seq<Attempt>, r: nat, a: Attempt) { r < |attempts| && attempts[r] == a }

  /** Each outcome of an attempt has its own answer: saved under its revision, failed, unknown after a panic,
      and lost without any attempt. Whoever was replaced is told the same, without the revision. */
  lemma EachOutcomeIsTold<S>(batch: seq<Entry<S>>, attempts: seq<Attempt>, i: nat)
    requires i < |batch|
    ensures var l := Runner(batch, i);
      var r, told := Rank(batch, l), ResultAt(batch, attempts, i);
      var end := if l == i then told else if told.Superseded? then told.outcome else Lost;
      && (l != i ==> told.Superseded? && told.successor == batch[l].seq_)
      && (AttemptIs(attempts, r, Replaced) <==> end.DoneOk?)
      && (AttemptIs(attempts, r, Refused) <==> end == Failed)
      && (AttemptIs(attempts, r, Panicked) <==> end == Unknown)
      && (r >= |attempts| <==> end == Lost)
      && (end.DoneOk? && end.revision.Some? <==> l == i && end.DoneOk? && batch[i].work.SaveSettings?)
      && (end.DoneOk? && end.revision.Some? ==> end.revision.value == batch[i].work.revision)
  {
    hide Rank, Runner;
  }
}
