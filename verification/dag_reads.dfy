/** The pool of threads that read DAG lists: at most four, one for each engine. A thread sends one
    result through a channel and ends; the owner looks at the channels now and then, answers the
    requests whose result has arrived, and joins the threads that have ended. */
module DagReads {
  import opened Wrappers

  const MAX_RUNNING := 4

  datatype Target = Target(workspace: nat, engine: nat, binding: int)
  datatype Snapshot = Snapshot(id: nat, tasks: int, runner: (bool, bool))
  datatype ReadError = Retired | Failed(reason: string)
  datatype Outcome = Listed(snapshots: seq<Snapshot>) | Refused(error: ReadError)

  /** What the owner sees of a thread. The thread may go on between two looks. */
  datatype Channel = Empty | Holds(result: Option<Outcome>) | Disconnected
  datatype Worker = Worker(channel: Channel, exited: bool)

  /** ticket names the request for ever; request is emptied when the result is consumed. */
  datatype Job = Job(engine: nat, targets: seq<Target>, ticket: nat, request: Option<nat>, worker: Worker)

  /** A request that is over. Without an answer it was dropped, and its asker sees the channel close. */
  datatype Settled = Settled(ticket: nat, answer: Option<Outcome>)

  datatype Pool = Pool(jobs: seq<Job>, stopping: bool, started: set<nat>, log: seq<Settled>, joined: set<nat>)

  /** The two looks one reap takes at a thread: at its channel, then at whether it has ended. */
  datatype Sight = Sight(received: Worker, ended: Worker)

  type Runners = map<Target, (bool, bool)>
  type Race = map<nat, Sight>

  // ---------------------------------------------------------------- publishing one result

  function FirstIndex(snaps: seq<Snapshot>, id: nat): (r: Option<nat>)
    ensures r.Some? ==>
      r.value < |snaps| && snaps[r.value].id == id
        && forall k :: 0 <= k < r.value ==> snaps[k].id != id
    ensures r.None? ==> forall k :: 0 <= k < |snaps| ==> snaps[k].id != id
  {
    if snaps == [] then None
    else
      var r := FirstIndex(snaps[..|snaps| - 1], id);
      if r.Some? then r else if snaps[|snaps| - 1].id == id then Some(|snaps| - 1) else None
  }

  function SetRunner(snaps: seq<Snapshot>, id: nat, runner: (bool, bool)): seq<Snapshot> {
    var k := FirstIndex(snaps, id);
    if k.Some? then snaps[k.value := snaps[k.value].(runner := runner)] else snaps
  }

  function Stamped(snaps: seq<Snapshot>, targets: seq<Target>, current: Runners): Outcome
    decreases |targets|
  {
    if targets == [] then Listed(snaps)
    else if targets[0] !in current then Refused(Retired)
    else Stamped(SetRunner(snaps, targets[0].workspace, current[targets[0]]), targets[1..], current)
  }

  function LastFor(targets: seq<Target>, workspace: nat): Option<Target> {
    if targets == [] then None
    else
      var rest := LastFor(targets[1..], workspace);
      if rest.Some? then rest else if targets[0].workspace == workspace then Some(targets[0]) else None
  }

  ghost predicate AllCurrent(targets: seq<Target>, current: Runners) { forall t :: t in targets ==> t in current }

  /** What becomes of one snapshot: the runner of the last target for its workspace, if it is the
      first snapshot with that id. */
  function Refreshed(snaps: seq<Snapshot>, i: nat, targets: seq<Target>, current: Runners): Snapshot
    requires i < |snaps|
  {
    var t := LastFor(targets, snaps[i].id);
    if t.Some? && t.value in current && FirstIndex(snaps, snaps[i].id) == Some(i)
    then snaps[i].(runner := current[t.value])
    else snaps[i]
  }

  lemma SetRunnerKeepsIds(snaps: seq<Snapshot>, id: nat, runner: (bool, bool), other: nat)
    ensures var s := SetRunner(snaps, id, runner); |s| == |snaps| && FirstIndex(s, other) == FirstIndex(snaps, other)
  {
    var s := SetRunner(snaps, id, runner);
    assert forall k :: 0 <= k < |snaps| ==> s[k].id == snaps[k].id;
    var a, b := FirstIndex(s, other), FirstIndex(snaps, other);
    if a.Some? && b.Some? { assert a.value == b.value; }
  }

  lemma {:induction false} LastForIsTarget(targets: seq<Target>, workspace: nat)
    ensures var t := LastFor(targets, workspace); t.Some? ==> t.value in targets && t.value.workspace == workspace
  {
    if targets != [] { LastForIsTarget(targets[1..], workspace); }
  }

  /** A list is published exactly when every target is still current at that moment; otherwise the
      asker is told the target retired. Publishing changes nothing but the runners. */
  lemma {:induction false} PublishedOnlyIfCurrent(snaps: seq<Snapshot>, targets: seq<Target>, current: Runners)
    ensures var a := Stamped(snaps, targets, current);
      && (a.Listed? <==> AllCurrent(targets, current))
      && (a.Refused? ==> a.error == Retired)
      && (a.Listed? ==>
        |a.snapshots| == |snaps|
          && forall i :: 0 <= i < |snaps| ==> a.snapshots[i] == Refreshed(snaps, i, targets, current))
    decreases |targets|
  {
    if targets != [] && targets[0] in current {
      var next := SetRunner(snaps, targets[0].workspace, current[targets[0]]);
      PublishedOnlyIfCurrent(next, targets[1..], current);
      assert AllCurrent(targets, current) <==> AllCurrent(targets[1..], current);
      var a := Stamped(snaps, targets, current);
      if a.Listed? {
        forall i | 0 <= i < |snaps| ensures a.snapshots[i] == Refreshed(snaps, i, targets, current) {
          SetRunnerKeepsIds(snaps, targets[0].workspace, current[targets[0]], snaps[i].id);
          LastForIsTarget(targets[1..], snaps[i].id);
        }
      }
    }
  }

  /** Refreshing the runners, as the loop over the targets does it. */
  method Stamp(listed: seq<Snapshot>, targets: seq<Target>, current: Runners) returns (r: Outcome)
    ensures r == Stamped(listed, targets, current)
  {
    var snaps := listed;
    for i := 0 to |targets|
      invariant Stamped(listed, targets, current) == Stamped(snaps, targets[i..], current)
    {
      assert targets[i..][0] == targets[i] && targets[i..][1..] == targets[i + 1..];
      if targets[i] !in current { return Refused(Retired); }
      var k := FirstIndex(snaps, targets[i].workspace);
      if k.Some? { snaps := snaps[k.value := snaps[k.value].(runner := current[targets[i]])]; }
    }
    r := Listed(snaps);
  }

  /** The answer to a request whose thread sent this. */
  function AnswerTo(channel: Channel, targets: seq<Target>, current: Runners): Option<Outcome>
    requires channel != Empty
  {
    if channel.Disconnected? then Some(Refused(Failed("DAG read worker disconnected")))
    else
      match channel.result
      case None => None
      case Some(Refused(e)) => Some(Refused(e))
      case Some(Listed(s)) => Some(Stamped(s, targets, current))
  }

  // ---------------------------------------------------------------- what one reap does to one job

  predicate Delivered(j: Job, race: Race)
    requires j.engine in race
  {
    j.request.Some? && race[j.engine].received.channel != Empty
  }

  function After(j: Job, race: Race): Job
    requires j.engine in race
  {
    j.(request := if Delivered(j, race) then None else j.request, worker := race[j.engine].ended)
  }

  predicate Gone(j: Job, race: Race)
    requires j.engine in race
  {
    After(j, race).request.None? && race[j.engine].ended.exited
  }

  ghost predicate Seen(jobs: seq<Job>, race: Race) { forall j :: j in jobs ==> j.engine in race }

  function Kept(jobs: seq<Job>, race: Race): seq<Job>
    requires Seen(jobs, race)
  {
    if jobs == [] then [] else
      var j := jobs[|jobs| - 1];
      Kept(jobs[..|jobs| - 1], race) + if Gone(j, race) then [] else [After(j, race)]
  }

  function Deliveries(jobs: seq<Job>, race: Race): seq<Job>
    requires Seen(jobs, race)
  {
    if jobs == [] then [] else
      var j := jobs[|jobs| - 1];
      Deliveries(jobs[..|jobs| - 1], race) + if Delivered(j, race) then [j] else []
  }

  function Joins(jobs: seq<Job>, race: Race): set<nat>
    requires Seen(jobs, race)
  {
    if jobs == [] then {} else
      var j := jobs[|jobs| - 1];
      Joins(jobs[..|jobs| - 1], race) + if Gone(j, race) then {j.ticket} else {}
  }

  function EnginesOf(jobs: seq<Job>): seq<nat> {
    if jobs == [] then [] else EnginesOf(jobs[..|jobs| - 1]) + [jobs[|jobs| - 1].engine]
  }

  function SettledBy(jobs: seq<Job>, race: Race, current: Runners): seq<Settled>
    requires AllDelivered(jobs, race)
  {
    if jobs == [] then []
      else SettledBy(jobs[..|jobs| - 1], race, current) + [SettledOne(jobs[|jobs| - 1], race, current)]
  }

  function SettledOne(j: Job, race: Race, current: Runners): Settled
    requires j.engine in race && Delivered(j, race)
  {
    Settled(j.ticket, AnswerTo(race[j.engine].received.channel, j.targets, current))
  }

  /** What a reap may look like: it visits every job once, in an order of its own, keeps exactly those
      that still wait or still run, and settles exactly those whose result it received. */
  ghost predicate ReapOk(p: Pool, q: Pool, race: Race, current: Runners, visited: seq<Job>) {
    && Seen(visited, race)
    && multiset(visited) == multiset(p.jobs)
    && q.jobs == Kept(visited, race)
    && AllDelivered(Deliveries(visited, race), race)
    && q.log == p.log + SettledBy(Deliveries(visited, race), race, current)
    && q.joined == p.joined + Joins(visited, race)
    && q.stopping == p.stopping && q.started == p.started
  }

  ghost predicate AllDelivered(jobs: seq<Job>, race: Race) {
    forall j :: j in jobs ==> j.engine in race && Delivered(j, race)
  }

  lemma {:induction false} DeliveriesAre(jobs: seq<Job>, race: Race)
    requires Seen(jobs, race)
    ensures AllDelivered(Deliveries(jobs, race), race)
    ensures forall j :: j in Deliveries(jobs, race) <==> j in jobs && Delivered(j, race)
  {
    if jobs != [] {
      var init, last := jobs[..|jobs| - 1], jobs[|jobs| - 1];
      DeliveriesAre(init, race);
      assert jobs == init + [last];
    }
  }

  lemma {:induction false} KeptAre(jobs: seq<Job>, race: Race)
    requires Seen(jobs, race)
    ensures forall j :: j in jobs && !Gone(j, race) ==> After(j, race) in Kept(jobs, race)
    ensures forall k :: k in Kept(jobs, race) ==> exists j :: j in jobs && !Gone(j, race) && k == After(j, race)
    ensures |Kept(jobs, race)| <= |jobs|
  {
    if jobs != [] {
      var init, last := jobs[..|jobs| - 1], jobs[|jobs| - 1];
      KeptAre(init, race);
      assert jobs == init + [last];
    }
  }

  lemma {:induction false} JoinsAre(jobs: seq<Job>, race: Race)
    requires Seen(jobs, race)
    ensures forall t :: t in Joins(jobs, race) <==> exists j :: j in jobs && Gone(j, race) && j.ticket == t
  {
    if jobs != [] {
      var init, last := jobs[..|jobs| - 1], jobs[|jobs| - 1];
      JoinsAre(init, race);
      assert jobs == init + [last];
    }
  }

  // ---------------------------------------------------------------- the pool as its users see it

  predicate Available(p: Pool, engine: nat) {
    !p.stopping && |p.jobs| < MAX_RUNNING && forall j :: j in p.jobs ==> j.engine != engine
  }

  function Start(p: Pool, engine: nat, ticket: nat, targets: seq<Target>, failure: Option<string>): Pool {
    if !Available(p, engine)
      then p.(log := p.log + [Settled(ticket, Some(Refused(Failed("DAG read capacity exhausted"))))])
    else if failure.Some? then p.(log := p.log + [Settled(ticket, Some(Refused(Failed(failure.value))))])
    else p.(jobs := p.jobs + [Job(engine, targets, ticket, Some(ticket), Worker(Empty, false))],
      started := p.started + {ticket})
  }

  /** The next live request of an engine. Its targets are missing when a workspace has no owner. */
  datatype Ask = Ask(ticket: nat, targets: Option<seq<Target>>, failure: Option<string>)

  function PollOne(p: Pool, engine: nat, asks: map<nat, Ask>): Pool {
    if !Available(p, engine) || engine !in asks then p
    else if asks[engine].targets.Some?
      then Start(p, engine, asks[engine].ticket, asks[engine].targets.value, asks[engine].failure)
    else p.(log := p.log + [Settled(asks[engine].ticket, Some(Refused(Retired)))])
  }

  function PollAll(p: Pool, order: seq<nat>, asks: map<nat, Ask>): Pool {
    if order == [] then p else PollOne(PollAll(p, order[..|order| - 1], asks), order[|order| - 1], asks)
  }

  /** Rotated left by the cursor. */
  function Turn(sessions: seq<nat>, cursor: nat): seq<nat> {
    if sessions == [] then [] else sessions[cursor % |sessions|..] + sessions[..cursor % |sessions|]
  }

  function NextCursor(n: nat, cursor: nat): nat { if n == 0 then cursor else cursor % n + 1 }

  /** A reap that has visited these jobs so far. */
  ghost predicate SoFar(was: Pool, visited: seq<Job>, race: Race, current: Runners, kept: seq<Job>, log: seq<Settled>,
                        joined: set<nat>, completed: seq<nat>) {
    && Seen(visited, race)
    && kept == Kept(visited, race)
    && AllDelivered(Deliveries(visited, race), race)
    && log == was.log + SettledBy(Deliveries(visited, race), race, current)
    && joined == was.joined + Joins(visited, race)
    && completed == EnginesOf(Deliveries(visited, race))
  }

  lemma KeptMore(before: seq<Job>, j: Job, race: Race)
    requires Seen(before, race) && j.engine in race
    ensures Seen(before + [j], race)
    ensures Kept(before + [j], race) == Kept(before, race) + if Gone(j, race) then [] else [After(j, race)]
    ensures Joins(before + [j], race) == Joins(before, race) + if Gone(j, race) then {j.ticket} else {}
    ensures Deliveries(before + [j], race) == Deliveries(before, race) + if Delivered(j, race) then [j] else []
  {
    var visited := before + [j];
    assert visited[..|visited| - 1] == before && visited[|visited| - 1] == j;
  }

  lemma DeliveryMore(d: seq<Job>, j: Job, race: Race, current: Runners)
    requires AllDelivered(d, race) && j.engine in race && Delivered(j, race)
    ensures AllDelivered(d + [j], race)
    ensures SettledBy(d + [j], race, current) == SettledBy(d, race, current) + [SettledOne(j, race, current)]
    ensures EnginesOf(d + [j]) == EnginesOf(d) + [j.engine]
  {
    var e := d + [j];
    assert e[..|e| - 1] == d && e[|e| - 1] == j;
  }

  lemma Visit(was: Pool, before: seq<Job>, j: Job, race: Race, current: Runners,
    kept: seq<Job>, log: seq<Settled>, joined: set<nat>, completed: seq<nat>)
    requires SoFar(was, before, race, current, kept, log, joined, completed) && j.engine in race
    ensures SoFar(was, before + [j], race, current,
      if Gone(j, race) then kept else kept + [After(j, race)],
      if Delivered(j, race) then log + [SettledOne(j, race, current)] else log,
      if Gone(j, race) then joined + {j.ticket} else joined,
      if Delivered(j, race) then completed + [j.engine] else completed)
  {
    hide AllDelivered, Gone, Delivered, SettledOne, EnginesOf, SettledBy, Kept, Joins, Deliveries, Seen;
    KeptMore(before, j, race);
    if Delivered(j, race) {
      DeliveryMore(Deliveries(before, race), j, race, current);
    } else {
      assert Deliveries(before, race) + [] == Deliveries(before, race);
    }
    assert Kept(before, race) + [] == Kept(before, race);
  }

  /** A reap about to look at job i: the jobs before it are done, and those from it on are all that is left. */
  ghost predicate Reaping(was: Pool, visited: seq<Job>, race: Race, current: Runners, jobs: seq<Job>, i: nat,
    log: seq<Settled>, joined: set<nat>, completed: seq<nat>)
  {
    && i <= |jobs|
    && Seen(jobs[i..], race)
    && multiset(visited) + multiset(jobs[i..]) == multiset(was.jobs)
    && SoFar(was, visited, race, current, jobs[..i], log, joined, completed)
  }

  lemma Looked(was: Pool, visited: seq<Job>, race: Race, current: Runners, jobs: seq<Job>, i: nat,
    log: seq<Settled>, joined: set<nat>, completed: seq<nat>)
    requires i < |jobs| && Reaping(was, visited, race, current, jobs, i, log, joined, completed)
    ensures jobs[i].engine in race
    ensures var j := jobs[i];
      var (left, next) := if Gone(j, race) then (SwapRemove(jobs, i), i) else (jobs[i := After(j, race)], i + 1);
      && next <= |left| && |left| - next < |jobs| - i
      && Reaping(was, visited + [j], race, current, left, next,
        if Delivered(j, race) then log + [SettledOne(j, race, current)] else log,
        if Gone(j, race) then joined + {j.ticket} else joined,
        if Delivered(j, race) then completed + [j.engine] else completed)
  {
    hide SoFar, Gone, Delivered, After, SettledOne, SwapRemove;
    var j := jobs[i];
    Remaining(jobs, i);
    assert jobs[i..][0] == j;
    Visit(was, visited, j, race, current, jobs[..i], log, joined, completed);
    Swept(jobs, i, After(j, race));
    assert multiset(visited + [j]) == multiset(visited) + multiset{j};
  }

  lemma ReapStarts(was: Pool, race: Race, current: Runners)
    requires Seen(was.jobs, race)
    ensures Reaping(was, [], race, current, was.jobs, 0, was.log, was.joined, [])
  {
    assert was.jobs[0..] == was.jobs && was.jobs[..0] == [];
  }

  lemma ReapEnds(was: Pool, visited: seq<Job>, race: Race, current: Runners, q: Pool, completed: seq<nat>)
    requires Reaping(was, visited, race, current, q.jobs, |q.jobs|, q.log, q.joined, completed)
    requires q.stopping == was.stopping && q.started == was.started
    ensures ReapOk(was, q, race, current, visited) && completed == EnginesOf(Deliveries(visited, race))
  {
    assert q.jobs[..|q.jobs|] == q.jobs && q.jobs[|q.jobs|..] == [];
  }

  class Workers {
    var jobs: seq<Job>
    var stopping: bool
    var cursor: nat
    ghost var started: set<nat>
    ghost var log: seq<Settled>
    ghost var joined: set<nat>

    ghost function State(): Pool reads this { Pool(jobs, stopping, started, log, joined) }

    constructor ()
      ensures State() == Pool([], false, {}, [], {}) && cursor == 0
    {
      jobs, stopping, cursor := [], false, 0;
      started, log, joined := {}, [], {};
    }

    method IsAvailable(engine: nat) returns (r: bool)
      ensures r == Available(State(), engine)
    {
      r := !stopping && |jobs| < MAX_RUNNING;
      for i := 0 to |jobs|
        invariant r == (!stopping && |jobs| < MAX_RUNNING && forall k :: 0 <= k < i ==> jobs[k].engine != engine)
      {
        if jobs[i].engine == engine { r := false; }
      }
    }

    /** failure is what the operating system says when it cannot make the thread. */
    method Begin(engine: nat, ticket: nat, targets: seq<Target>, failure: Option<string>)
      modifies this`jobs, this`started, this`log
      ensures State() == Start(old(State()), engine, ticket, targets, failure)
    {
      var free := IsAvailable(engine);
      if !free {
        log := log + [Settled(ticket, Some(Refused(Failed("DAG read capacity exhausted"))))];
      } else if failure.Some? {
        log := log + [Settled(ticket, Some(Refused(Failed(failure.value))))];
      } else {
        jobs := jobs + [Job(engine, targets, ticket, Some(ticket), Worker(Empty, false))];
        started := started + {ticket};
      }
    }

    /** One look at the channel of job i. */
    method Publish(i: nat, race: Race, current: Runners) returns (delivered: bool)
      requires i < |jobs| && jobs[i].engine in race
      modifies this`jobs, this`log
      ensures delivered == Delivered(old(jobs[i]), race)
      ensures jobs == old(jobs)[i := if delivered then old(jobs[i]).(request := None) else old(jobs[i])]
      ensures delivered ==> log == old(log) + [SettledOne(old(jobs[i]), race, current)]
      ensures !delivered ==> log == old(log)
    {
      var j := jobs[i];
      if j.request.None? { return false; }
      var channel := race[j.engine].received.channel;
      var answer: Option<Outcome>;
      match channel {
        case Empty => return false;
        case Disconnected => answer := Some(Refused(Failed("DAG read worker disconnected")));
        case Holds(sent) =>
          if sent.Some? && sent.value.Listed? {
            var stamped := Stamp(sent.value.snapshots, j.targets, current);
            answer := Some(stamped);
          } else {
            answer := sent;
          }
      }
      jobs := jobs[i := j.(request := None)];
      log := log + [Settled(j.ticket, answer)];
      delivered := true;
    }

    /** The body of the loop in Reap: look at job i, then join its thread or go on to the next. */
    method Look(i: nat, race: Race, current: Runners) returns (delivered: bool, next: nat)
      requires i < |jobs| && jobs[i].engine in race
      modifies this`jobs, this`log, this`joined
      ensures delivered == Delivered(old(jobs[i]), race)
      ensures log == if delivered then old(log) + [SettledOne(old(jobs[i]), race, current)] else old(log)
      ensures joined == if Gone(old(jobs[i]), race) then old(joined) + {old(jobs[i]).ticket} else old(joined)
      ensures next == if Gone(old(jobs[i]), race) then i else i + 1
      ensures jobs == if Gone(old(jobs[i]), race) then SwapRemove(old(jobs), i)
        else old(jobs)[i := After(old(jobs[i]), race)]
    {
      ghost var all := jobs;
      delivered := Publish(i, race, current);
      jobs := jobs[i := jobs[i].(worker := race[jobs[i].engine].ended)];
      assert jobs == all[i := After(all[i], race)];
      if jobs[i].request.None? && jobs[i].worker.exited {
        joined := joined + {jobs[i].ticket};
        jobs := SwapRemove(jobs, i);
        next := i;
      } else {
        next := i + 1;
      }
    }

    method Reap(race: Race, current: Runners) returns (completed: seq<nat>, ghost visited: seq<Job>)
      requires Seen(jobs, race)
      modifies this`jobs, this`log, this`joined
      ensures ReapOk(old(State()), State(), race, current, visited)
      ensures completed == EnginesOf(Deliveries(visited, race))
    {
      completed, visited := [], [];
      ghost var was := Pool(jobs, stopping, started, log, joined);
      var i := 0;
      hide Reaping, ReapOk, Gone, Delivered, After, SettledOne, SwapRemove, Seen, Deliveries, EnginesOf, AllDelivered;
      ReapStarts(was, race, current);
      while i < |jobs|
        invariant i <= |jobs| && Reaping(was, visited, race, current, jobs, i, log, joined, completed)
        decreases |jobs| - i
      {
        Looked(was, visited, race, current, jobs, i, log, joined, completed);
        visited := visited + [jobs[i]];
        var engine := jobs[i].engine;
        var delivered, next := Look(i, race, current);
        if delivered { completed := completed + [engine]; }
        i := next;
      }
      ReapEnds(was, visited, race, current, State(), completed);
    }

    /** One poll: the sessions take turns at being first, and each idle one may start its next request. */
    method Poll(sessions: seq<nat>, asks: map<nat, Ask>)
      modifies this`jobs, this`started, this`log, this`cursor
      ensures State() == PollAll(old(State()), Turn(sessions, old(cursor)), asks)
      ensures cursor == NextCursor(|sessions|, old(cursor))
    {
      var order := Turn(sessions, cursor);
      cursor := NextCursor(|sessions|, cursor);
      ghost var p := State();
      for i := 0 to |order|
        invariant State() == PollAll(p, order[..i], asks)
        invariant cursor == NextCursor(|sessions|, old(cursor))
      {
        assert order[..i + 1][..i] == order[..i];
        var e := order[i];
        var free := IsAvailable(e);
        if free && e in asks {
          if asks[e].targets.Some? {
            Begin(e, asks[e].ticket, asks[e].targets.value, asks[e].failure);
          } else {
            log := log + [Settled(asks[e].ticket, Some(Refused(Retired)))];
          }
        }
      }
      assert order[..|order|] == order;
    }

    method BeginShutdown()
      modifies this`stopping
      ensures State() == old(State()).(stopping := true)
    {
      stopping := true;
    }

    method PollShutdown(race: Race) returns (remaining: nat, ghost visited: seq<Job>)
      requires Seen(jobs, race)
      modifies this`jobs, this`log, this`joined, this`stopping
      ensures ReapOk(old(State()).(stopping := true), State(), race, map[], visited)
      ensures remaining == |jobs|
    {
      BeginShutdown();
      var completed;
      completed, visited := Reap(race, map[]);
      remaining := |jobs|;
    }
  }

  /** Removing an element by putting the last one in its place. */
  function SwapRemove<T>(s: seq<T>, i: nat): seq<T>
    requires i < |s|
  {
    if i == |s| - 1 then s[..i] else s[i := s[|s| - 1]][..|s| - 1]
  }

  lemma Remaining<T>(s: seq<T>, i: nat)
    requires i < |s|
    ensures multiset(s[i..]) == multiset{s[i]} + multiset(s[i + 1..])
    ensures forall y :: y in s[i + 1..] ==> y in s[i..]
  {
    assert s[i..] == [s[i]] + s[i + 1..];
  }

  /** Both ways a visit can end leave the same jobs to visit. */
  lemma Swept<T>(s: seq<T>, i: nat, x: T)
    requires i < |s|
    ensures var r := SwapRemove(s, i);
      |r| == |s| - 1 && r[..i] == s[..i] && multiset(r[i..]) == multiset(s[i + 1..])
        && forall y :: y in r[i..] ==> y in s[i + 1..]
    ensures var u := s[i := x];
      |u| == |s| && u[..i + 1] == s[..i] + [x] && u[i + 1..] == s[i + 1..]
  {
    var r := SwapRemove(s, i);
    if i == |s| - 1 {
      assert r == s[..i];
      assert r[i..] == [] && s[i + 1..] == [];
    } else {
      var last, mid := s[|s| - 1], s[i + 1..|s| - 1];
      assert r[..i] == s[..i];
      assert r[i..] == [last] + mid;
      assert s[i + 1..] == mid + [last];
      Rotated(mid, last);
    }
  }

  lemma Rotated<T>(mid: seq<T>, last: T)
    ensures multiset([last] + mid) == multiset(mid + [last])
    ensures forall y :: y in [last] + mid ==> y in mid + [last]
  {
  }

  // ---------------------------------------------------------------- every run

  ghost function Tickets(jobs: seq<Job>): set<nat> { set j | j in jobs :: j.ticket }
  ghost function SettledTickets(log: seq<Settled>): set<nat> { set s | s in log :: s.ticket }

  ghost predicate DistinctJobs(jobs: seq<Job>) {
    forall i, k :: 0 <= i < k < |jobs| ==> jobs[i].engine != jobs[k].engine && jobs[i].ticket != jobs[k].ticket
  }

  ghost predicate AnsweredOnce(log: seq<Settled>) {
    forall i, k :: 0 <= i < k < |log| ==> log[i].ticket != log[k].ticket
  }

  ghost predicate WorkerOk(w: Worker) { w.exited ==> w.channel != Empty }

  /** A thread sends once, or ends without sending; neither is undone. */
  ghost predicate Advances(w: Worker, v: Worker) {
    WorkerOk(v) && (w.channel != Empty ==> v.channel == w.channel) && (w.exited ==> v.exited)
  }

  ghost predicate RaceOk(jobs: seq<Job>, race: Race) {
    Seen(jobs, race)
      && forall j :: j in jobs ==>
        Advances(j.worker, race[j.engine].received) && Advances(race[j.engine].received, race[j.engine].ended)
  }

  ghost predicate JobOk(j: Job, log: seq<Settled>) {
    && (j.request.Some? ==> j.request.value == j.ticket)
    && (j.request.None? <==> j.ticket in SettledTickets(log))
    && (j.request.None? ==> j.worker.channel != Empty)
    && WorkerOk(j.worker)
  }

  ghost predicate JobsOk(jobs: seq<Job>, log: seq<Settled>) { forall j :: j in jobs ==> JobOk(j, log) }

  /** Every request ever started has its thread in the pool or joined, never both; it is joined only once
      its result is consumed; and no request is settled twice. */
  ghost predicate Inv(p: Pool) {
    && |p.jobs| <= MAX_RUNNING
    && DistinctJobs(p.jobs)
    && p.started == p.joined + Tickets(p.jobs)
    && p.joined !! Tickets(p.jobs)
    && p.joined <= SettledTickets(p.log)
    && AnsweredOnce(p.log)
    && JobsOk(p.jobs, p.log)
  }

  datatype Step =
    | Launch(engine: nat, request: nat, targets: seq<Target>, failure: Option<string>)
    | Retire(request: nat)
    | Collect(race: Race, current: Runners, visited: seq<Job>)
    | Shutdown

  /** A request is handed over once. */
  ghost predicate Fresh(p: Pool, ticket: nat) { ticket !in p.started && ticket !in SettledTickets(p.log) }

  ghost predicate StepOk(p: Pool, s: Step, q: Pool) {
    match s
    case Launch(engine, request, targets, failure) => Fresh(p, request)
      && q == Start(p, engine, request, targets, failure)
    case Retire(request) => Fresh(p, request) && q == p.(log := p.log + [Settled(request, Some(Refused(Retired)))])
    case Collect(race, current, visited) => RaceOk(p.jobs, race) && ReapOk(p, q, race, current, visited)
    case Shutdown => q == p.(stopping := true)
  }

  ghost predicate RunOk(states: seq<Pool>, steps: seq<Step>) {
    && |states| == |steps| + 1
    && states[0] == Pool([], false, {}, [], {})
    && forall k :: 0 <= k < |steps| ==> StepOk(states[k], steps[k], states[k + 1])
  }

  lemma SettledMore(log: seq<Settled>, s: Settled)
    ensures SettledTickets(log + [s]) == SettledTickets(log) + {s.ticket}
    ensures AnsweredOnce(log) && s.ticket !in SettledTickets(log) ==> AnsweredOnce(log + [s])
  {
    var more := log + [s];
    assert more[|log|] == s;
    assert forall x :: x in more <==> x in log || x == s;
    assert forall i :: 0 <= i < |log| ==> log[i] in log;
  }

  lemma TicketsMore(jobs: seq<Job>, j: Job)
    ensures Tickets(jobs + [j]) == Tickets(jobs) + {j.ticket}
  {
    assert forall x :: x in jobs + [j] <==> x in jobs || x == j;
  }

  lemma RefusalKeeps(p: Pool, s: Settled)
    requires Inv(p) && Fresh(p, s.ticket)
    ensures Inv(p.(log := p.log + [s]))
  {
    SettledMore(p.log, s);
    forall j | j in p.jobs ensures JobOk(j, p.log + [s]) {
      assert j.ticket in Tickets(p.jobs);
    }
  }

  lemma StartKeeps(p: Pool, engine: nat, ticket: nat, targets: seq<Target>, failure: Option<string>)
    requires Inv(p) && Fresh(p, ticket)
    ensures Inv(Start(p, engine, ticket, targets, failure))
  {
    if !Available(p, engine) {
      RefusalKeeps(p, Settled(ticket, Some(Refused(Failed("DAG read capacity exhausted")))));
    } else if failure.Some? {
      RefusalKeeps(p, Settled(ticket, Some(Refused(Failed(failure.value)))));
    } else {
      var j := Job(engine, targets, ticket, Some(ticket), Worker(Empty, false));
      TicketsMore(p.jobs, j);
      forall i | 0 <= i < |p.jobs| ensures p.jobs[i].engine != engine && p.jobs[i].ticket != ticket {
        assert p.jobs[i] in p.jobs && p.jobs[i].ticket in Tickets(p.jobs);
      }
      assert forall x :: x in p.jobs + [j] <==> x in p.jobs || x == j;
    }
  }

  // ---- a reap, in whatever order it visits

  lemma {:induction false} OncePerJob(jobs: seq<Job>, j: Job)
    requires DistinctJobs(jobs)
    ensures multiset(jobs)[j] <= 1
  {
    if jobs != [] {
      var init, last := jobs[..|jobs| - 1], jobs[|jobs| - 1];
      OncePerJob(init, j);
      assert jobs == init + [last];
      forall k | 0 <= k < |init| ensures init[k] != last {
        assert jobs[k].ticket != jobs[|init|].ticket;
      }
    }
  }

  lemma {:induction false} TwiceIfRepeated(jobs: seq<Job>, i: nat, k: nat)
    requires i < k < |jobs| && jobs[i] == jobs[k]
    ensures multiset(jobs)[jobs[i]] >= 2
  {
    assert jobs == jobs[..k] + jobs[k..];
    assert jobs[..k][i] == jobs[i] && jobs[i] in jobs[..k];
    assert jobs[k..][0] == jobs[i] && jobs[i] in jobs[k..];
  }

  lemma ReorderedDistinct(jobs: seq<Job>, visited: seq<Job>)
    requires DistinctJobs(jobs) && multiset(visited) == multiset(jobs)
    ensures DistinctJobs(visited)
    ensures |visited| == |jobs|
    ensures forall j :: j in visited <==> j in jobs
  {
    assert |visited| == |multiset(visited)| == |jobs|;
    assert forall j :: j in visited <==> j in multiset(visited);
    forall i, k | 0 <= i < k < |visited|
      ensures visited[i].engine != visited[k].engine && visited[i].ticket != visited[k].ticket {
      var a, b := visited[i], visited[k];
      if a == b {
        TwiceIfRepeated(visited, i, k);
        OncePerJob(jobs, a);
        assert false;
      }
      assert a in multiset(jobs) && b in multiset(jobs);
      var x :| 0 <= x < |jobs| && jobs[x] == a;
      var y :| 0 <= y < |jobs| && jobs[y] == b;
    }
  }

  lemma {:induction false} KeptDistinct(visited: seq<Job>, race: Race)
    requires Seen(visited, race) && DistinctJobs(visited)
    ensures DistinctJobs(Kept(visited, race))
  {
    if visited != [] {
      var init, last := visited[..|visited| - 1], visited[|visited| - 1];
      KeptDistinct(init, race);
      KeptAre(init, race);
      var kept := Kept(init, race);
      forall k | 0 <= k < |kept| ensures kept[k].engine != last.engine && kept[k].ticket != last.ticket {
        assert kept[k] in kept;
        var j :| j in init && !Gone(j, race) && kept[k] == After(j, race);
        var x :| 0 <= x < |init| && init[x] == j;
        assert visited[x] == j;
      }
    }
  }

  /** The requests settled by a reap are those delivered, each once. */
  lemma {:induction false} SettledAre(d: seq<Job>, race: Race, current: Runners, log: seq<Settled>)
    requires AllDelivered(d, race) && AnsweredOnce(log) && DistinctJobs(d)
    requires Tickets(d) !! SettledTickets(log)
    ensures var more := log + SettledBy(d, race, current);
      AnsweredOnce(more) && SettledTickets(more) == SettledTickets(log) + Tickets(d)
  {
    if d == [] {
      assert log + SettledBy(d, race, current) == log;
    } else {
      var init, last := d[..|d| - 1], d[|d| - 1];
      LastIsNew(init, last, d);
      hide AnsweredOnce, Tickets, SettledTickets, DistinctJobs;
      SettledAre(init, race, current, log);
      SettledMore(log + SettledBy(init, race, current), SettledOne(last, race, current));
      assert log + SettledBy(d, race, current)
        == (log + SettledBy(init, race, current)) + [SettledOne(last, race, current)];
    }
  }

  lemma LastIsNew(init: seq<Job>, last: Job, d: seq<Job>)
    requires d == init + [last] && DistinctJobs(d)
    ensures DistinctJobs(init) && Tickets(d) == Tickets(init) + {last.ticket} && last.ticket !in Tickets(init)
  {
    TicketsMore(init, last);
    assert forall i :: 0 <= i < |init| ==> init[i] == d[i];
    forall j | j in init ensures j.ticket != last.ticket {
      var k :| 0 <= k < |init| && init[k] == j;
      assert d[k] == j && d[|init|] == last;
    }
  }

  lemma {:induction false} DeliveriesDistinct(visited: seq<Job>, race: Race)
    requires Seen(visited, race) && DistinctJobs(visited)
    ensures DistinctJobs(Deliveries(visited, race))
  {
    if visited != [] {
      var init, last := visited[..|visited| - 1], visited[|visited| - 1];
      DeliveriesDistinct(init, race);
      DeliveriesAre(init, race);
      var d := Deliveries(init, race);
      forall k | 0 <= k < |d| ensures d[k].engine != last.engine && d[k].ticket != last.ticket {
        assert d[k] in d && d[k] in init;
        var x :| 0 <= x < |init| && init[x] == d[k];
        assert visited[x] == d[k];
      }
    }
  }

  lemma LogAfterReap(p: Pool, race: Race, current: Runners, visited: seq<Job>)
    requires Inv(p) && RaceOk(p.jobs, race) && multiset(visited) == multiset(p.jobs)
    ensures Seen(visited, race) && DistinctJobs(visited) && |visited| == |p.jobs|
      && AllDelivered(Deliveries(visited, race), race)
    ensures forall j :: j in visited <==> j in p.jobs
    ensures var more := p.log + SettledBy(Deliveries(visited, race), race, current);
      AnsweredOnce(more) && SettledTickets(more) == SettledTickets(p.log) + Tickets(Deliveries(visited, race))
  {
    ReorderedDistinct(p.jobs, visited);
    var d := Deliveries(visited, race);
    DeliveriesAre(visited, race);
    DeliveriesDistinct(visited, race);
    forall j | j in d ensures j.ticket !in SettledTickets(p.log) {
      assert j in p.jobs && JobOk(j, p.log);
    }
    SettledAre(d, race, current, p.log);
  }

  lemma SameTicketSameJob(jobs: seq<Job>, a: Job, b: Job)
    requires DistinctJobs(jobs) && a in jobs && b in jobs && a.ticket == b.ticket
    ensures a == b
  {
    var x :| 0 <= x < |jobs| && jobs[x] == a;
    var y :| 0 <= y < |jobs| && jobs[y] == b;
  }

  lemma KeptJobOk(p: Pool, race: Race, visited: seq<Job>, j: Job, log: seq<Settled>)
    requires Inv(p) && RaceOk(p.jobs, race) && DistinctJobs(visited) && Seen(visited, race)
    requires forall j :: j in visited <==> j in p.jobs
    requires j in visited
    requires SettledTickets(log) == SettledTickets(p.log) + Tickets(Deliveries(visited, race))
    ensures JobOk(After(j, race), log)
  {
    DeliveriesAre(visited, race);
    assert JobOk(j, p.log);
    if j.ticket in Tickets(Deliveries(visited, race)) {
      var d :| d in Deliveries(visited, race) && d.ticket == j.ticket;
      SameTicketSameJob(visited, d, j);
    }
    if Delivered(j, race) { assert j in Deliveries(visited, race); }
  }

  lemma ThreadsAfterReap(p: Pool, race: Race, visited: seq<Job>)
    requires Seen(visited, race) && DistinctJobs(visited)
    ensures var q := Kept(visited, race);
      Tickets(visited) == Joins(visited, race) + Tickets(q) && Joins(visited, race) !! Tickets(q)
  {
    KeptAre(visited, race);
    JoinsAre(visited, race);
    var q := Kept(visited, race);
    forall t | t in Joins(visited, race) ensures t !in Tickets(q) && t in Tickets(visited) {
      var a :| a in visited && Gone(a, race) && a.ticket == t;
      forall k | k in q ensures k.ticket != t {
        var j :| j in visited && !Gone(j, race) && k == After(j, race);
        assert j.ticket == t ==> j == a by { if j.ticket == t { SameTicketSameJob(visited, j, a); } }
      }
    }
    forall t | t in Tickets(q) ensures t in Tickets(visited) {
      var k :| k in q && k.ticket == t;
      var j :| j in visited && !Gone(j, race) && k == After(j, race);
    }
    forall t | t in Tickets(visited) ensures t in Joins(visited, race) + Tickets(q) {
      var j :| j in visited && j.ticket == t;
      if !Gone(j, race) { assert After(j, race) in q; }
    }
  }

  /** Threads may finish between the two looks, and the list is reordered under the loop; still each
      request is settled once and each thread joined only after that. */
  lemma ReapKeeps(p: Pool, q: Pool, race: Race, current: Runners, visited: seq<Job>)
    requires Inv(p) && RaceOk(p.jobs, race) && ReapOk(p, q, race, current, visited)
    ensures Inv(q)
  {
    hide Gone, Delivered, RaceOk, Kept, Joins, Deliveries, SettledBy, AnsweredOnce;
    LogAfterReap(p, race, current, visited);
    KeptDistinct(visited, race);
    KeptAre(visited, race);
    ThreadsAfterReap(p, race, visited);
    assert Tickets(visited) == Tickets(p.jobs);
    forall k | k in q.jobs ensures JobOk(k, q.log) {
      var j :| j in visited && !Gone(j, race) && k == After(j, race);
      KeptJobOk(p, race, visited, j, q.log);
    }
    JoinedAreSettled(p, race, visited, q.log);
  }

  /** The answer that what the worker sent calls for: its own error, the list it read with the runners of now,
      or that a target has retired meanwhile. A worker that was told to stop sends nothing to answer with. */
  ghost predicate Answers(a: Option<Outcome>, sent: Channel, targets: seq<Target>, current: Runners) {
    match sent
    case Empty => false
    case Disconnected => a == Some(Refused(Failed("DAG read worker disconnected")))
    case Holds(None) => a == None
    case Holds(Some(Refused(e))) => a == Some(Refused(e))
    case Holds(Some(Listed(read))) =>
      if AllCurrent(targets, current) then
        a.Some? && a.value.Listed? && |a.value.snapshots| == |read|
        && forall i :: 0 <= i < |read| ==> a.value.snapshots[i] == Refreshed(read, i, targets, current)
      else a == Some(Refused(Retired))
  }

  lemma AnswersWhatWasSent(j: Job, race: Race, current: Runners)
    requires j.engine in race && Delivered(j, race)
    ensures var s := SettledOne(j, race, current);
      s.ticket == j.ticket && Answers(s.answer, race[j.engine].received.channel, j.targets, current)
  {
    var sent := race[j.engine].received.channel;
    if sent.Holds? && sent.result.Some? && sent.result.value.Listed? {
      PublishedOnlyIfCurrent(sent.result.value.snapshots, j.targets, current);
    }
  }

  ghost predicate HasAnswer(log: seq<Settled>, j: Job, race: Race, current: Runners)
    requires j.engine in race
  {
    exists s :: s in log && s.ticket == j.ticket
                && Answers(s.answer, race[j.engine].received.channel, j.targets, current)
  }

  /** After a reap every request whose worker has sent something is answered with just that. */
  lemma ReapAnswers(p: Pool, q: Pool, race: Race, current: Runners, visited: seq<Job>, j: Job)
    requires Inv(p) && RaceOk(p.jobs, race) && ReapOk(p, q, race, current, visited)
    requires j in p.jobs && j.request.Some?
    ensures j.engine in race && (race[j.engine].received.channel != Empty ==> HasAnswer(q.log, j, race, current))
  {
    LogAfterReap(p, race, current, visited);
    assert j in visited;
    if race[j.engine].received.channel != Empty {
      DeliveriesAre(visited, race);
      InSettled(Deliveries(visited, race), race, current, j);
      AnswersWhatWasSent(j, race, current);
      assert SettledOne(j, race, current) in q.log;
    }
  }

  lemma {:induction false} InSettled(jobs: seq<Job>, race: Race, current: Runners, j: Job)
    requires AllDelivered(jobs, race) && j in jobs
    ensures SettledOne(j, race, current) in SettledBy(jobs, race, current)
  {
    var init, last := jobs[..|jobs| - 1], jobs[|jobs| - 1];
    if j != last {
      assert jobs == init + [last];
      InSettled(init, race, current, j);
    }
  }

  lemma JoinedAreSettled(p: Pool, race: Race, visited: seq<Job>, log: seq<Settled>)
    requires Inv(p) && RaceOk(p.jobs, race) && DistinctJobs(visited) && Seen(visited, race)
    requires forall j :: j in visited <==> j in p.jobs
    requires SettledTickets(log) == SettledTickets(p.log) + Tickets(Deliveries(visited, race))
    ensures Joins(visited, race) <= SettledTickets(log)
  {
    JoinsAre(visited, race);
    DeliveriesAre(visited, race);
    forall t | t in Joins(visited, race) ensures t in SettledTickets(log) {
      var j :| j in visited && Gone(j, race) && j.ticket == t;
      assert JobOk(j, p.log);
      if Delivered(j, race) { assert j in Deliveries(visited, race); }
    }
  }

  lemma StepKeeps(p: Pool, s: Step, q: Pool)
    requires Inv(p) && StepOk(p, s, q)
    ensures Inv(q) && p.started <= q.started && p.log <= q.log
    ensures p.stopping ==> q.stopping && q.started == p.started
  {
    hide Inv;
    match s
    case Launch(engine, request, targets, failure) => StartKeeps(p, engine, request, targets, failure);
    case Retire(request) => RefusalKeeps(p, Settled(request, Some(Refused(Retired))));
    case Collect(race, current, visited) => ReapKeeps(p, q, race, current, visited);
    case Shutdown => ShutdownKeeps(p);
  }

  lemma ShutdownKeeps(p: Pool)
    requires Inv(p)
    ensures Inv(p.(stopping := true))
  {
  }

  /** At most four threads with one engine each, in every reachable state; what is settled stays settled,
      no request is settled twice, and no thread is joined before its result is consumed. */
  lemma {:induction false} EveryRunIsSafe(states: seq<Pool>, steps: seq<Step>, k: nat)
    requires RunOk(states, steps) && k < |states|
    ensures Inv(states[k])
    ensures forall i :: 0 <= i <= k ==> states[i].log <= states[k].log && states[i].started <= states[k].started
  {
    hide StepOk, Inv;
    if k == 0 {
      EmptyIsOk();
    } else {
      EveryRunIsSafe(states, steps, k - 1);
      StepKeeps(states[k - 1], steps[k - 1], states[k]);
    }
  }

  /** The request that a step hands over. */
  function HandsOver(s: Step): Option<nat> {
    match s
    case Launch(_, request, _, _) => Some(request)
    case Retire(request) => Some(request)
    case Collect(_, _, _) => None
    case Shutdown => None
  }

  /** Handing a request over starts a thread for it exactly if the engine has none, there is room and no
      failure. Otherwise it is refused at once: for lack of room if that was the reason, else with the failure. */
  lemma StartedOrRefused(p: Pool, engine: nat, ticket: nat, targets: seq<Target>, failure: Option<string>)
    ensures var q := Start(p, engine, ticket, targets, failure);
      if Available(p, engine) && failure.None? then
        q.log == p.log && q.started == p.started + {ticket} && |q.jobs| == |p.jobs| + 1 && p.jobs < q.jobs
        && var j := q.jobs[|p.jobs|];
          j.engine == engine && j.targets == targets && j.ticket == ticket && j.request == Some(ticket)
          && j.worker == Worker(Empty, false)
      else
        q.jobs == p.jobs && q.started == p.started && |q.log| == |p.log| + 1 && p.log < q.log
        && q.log[|p.log|].ticket == ticket
        && q.log[|p.log|].answer == Some(Refused(Failed(
            if Available(p, engine) then failure.value else "DAG read capacity exhausted")))
  {}

  lemma StepHandsOver(p: Pool, s: Step, q: Pool)
    requires Inv(p) && StepOk(p, s, q) && HandsOver(s).Some?
    ensures HandsOver(s).value in q.started || HandsOver(s).value in SettledTickets(q.log)
  {
    hide Inv;
    match s
    case Launch(engine, request, targets, failure) =>
      StartedOrRefused(p, engine, request, targets, failure);
      if q.log != p.log { assert q.log[|p.log|] in q.log; }
    case Retire(request) =>
      assert q.log[|p.log|] in q.log;
  }

  /** In every run a request that was handed over is settled, or a thread is at work for it and it waits. */
  lemma SettledOrWaiting(states: seq<Pool>, steps: seq<Step>, i: nat, k: nat)
    requires RunOk(states, steps) && i < k < |states| && HandsOver(steps[i]).Some?
    ensures var t := HandsOver(steps[i]).value;
      t !in SettledTickets(states[k].log) <==> exists j :: j in states[k].jobs && j.request == Some(t)
  {
    hide StepOk;
    var t, q := HandsOver(steps[i]).value, states[k];
    EveryRunIsSafe(states, steps, i);
    EveryRunIsSafe(states, steps, k);
    StepHandsOver(states[i], steps[i], states[i + 1]);
    assert states[i + 1].log <= q.log && states[i + 1].started <= q.started;
    if t in SettledTickets(states[i + 1].log) {
      var e :| e in states[i + 1].log && e.ticket == t;
      assert e in q.log;
    }
    if t !in SettledTickets(q.log) {
      assert t in Tickets(q.jobs);
      var j :| j in q.jobs && j.ticket == t;
      assert JobOk(j, q.log);
    }
    if j :| j in q.jobs && j.request == Some(t) { assert JobOk(j, q.log); }
  }

  lemma EmptyIsOk()
    ensures Inv(Pool([], false, {}, [], {}))
  {
  }

  /** Once shutdown has begun nothing starts, for the rest of the run. */
  lemma {:induction false} NothingStartsAfterShutdown(states: seq<Pool>, steps: seq<Step>, i: nat, k: nat)
    requires RunOk(states, steps) && i <= k < |states| && states[i].stopping
    ensures states[k].stopping && states[k].started == states[i].started
  {
    if i < k {
      NothingStartsAfterShutdown(states, steps, i, k - 1);
      EveryRunIsSafe(states, steps, k - 1);
      StepKeeps(states[k - 1], steps[k - 1], states[k]);
    }
  }

  /** A job outlives a reap exactly when its request still waits or its thread still runs; so one shutdown
      poll empties a pool whose threads have all ended. */
  lemma LeftAfterReap(p: Pool, q: Pool, race: Race, current: Runners, visited: seq<Job>)
    requires Inv(p) && RaceOk(p.jobs, race) && ReapOk(p, q, race, current, visited)
    ensures q.jobs == [] <==>
      forall j :: j in p.jobs ==>
        race[j.engine].ended.exited && (j.request.None? || race[j.engine].received.channel != Empty)
  {
    LogAfterReap(p, race, current, visited);
    KeptAre(visited, race);
    if q.jobs != [] {
      assert q.jobs[0] in q.jobs;
      var j :| j in visited && !Gone(j, race) && q.jobs[0] == After(j, race);
      assert j in p.jobs;
    }
    if j :| j in visited && !Gone(j, race) {
      assert After(j, race) in q.jobs;
    } else {
      assert forall j :: j in p.jobs ==> Gone(j, race);
    }
  }

  /** While shutting down no target counts as current, so a list is only published for a request that
      has no target. */
  lemma ShutdownPublishesNothing(j: Job, race: Race)
    requires j.engine in race && Delivered(j, race)
    ensures var a := SettledOne(j, race, map[]).answer; a.Some? && a.value.Listed? ==> j.targets == []
  {
    var channel := race[j.engine].received.channel;
    if channel.Holds? && channel.result.Some? && channel.result.value.Listed? {
      PublishedOnlyIfCurrent(channel.result.value.snapshots, j.targets, map[]);
      if j.targets != [] { assert j.targets[0] in j.targets; }
    }
  }

  // ---------------------------------------------------------------- taking turns

  function CursorAfter(n: nat, cursor: nat, polls: nat): nat {
    if polls == 0 then cursor else NextCursor(n, CursorAfter(n, cursor, polls - 1))
  }

  lemma SmallRemainder(a: nat, n: nat)
    requires a <= n && n > 0
    ensures a % n == if a < n then a else 0
  {
  }

  /** Polling the same n sessions n times in a row puts each of them first once. */
  lemma {:induction false} TurnsGoRound(n: nat, cursor: nat, polls: nat)
    requires polls < n
    ensures var s := cursor % n + polls; CursorAfter(n, cursor, polls) % n == if s < n then s else s - n
  {
    if polls > 0 {
      TurnsGoRound(n, cursor, polls - 1);
      SmallRemainder(CursorAfter(n, cursor, polls - 1) % n + 1, n);
    }
  }

  ghost predicate AllDifferent(sessions: seq<nat>) {
    forall i, k :: 0 <= i < k < |sessions| ==> sessions[i] != sessions[k]
  }

  /** Who comes first in the poll after this many. */
  function FirstAfter(sessions: seq<nat>, cursor: nat, polls: nat): nat
    requires sessions != []
  {
    Turn(sessions, CursorAfter(|sessions|, cursor, polls))[0]
  }

  /** In as many polls as there are sessions each session is first in the rotated list exactly once,
      wherever the cursor starts. */
  lemma EachIsFirstOnce(sessions: seq<nat>, cursor: nat, i: nat) returns (turn: nat)
    requires AllDifferent(sessions) && i < |sessions|
    ensures turn < |sessions| && FirstAfter(sessions, cursor, turn) == sessions[i]
    ensures forall p :: 0 <= p < |sessions| && FirstAfter(sessions, cursor, p) == sessions[i] ==> p == turn
  {
    var n := |sessions|;
    var s := cursor % n;
    turn := if i >= s then i - s else i - s + n;
    forall p: nat | p < n ensures FirstAfter(sessions, cursor, p) == sessions[if s + p < n then s + p else s + p - n] {
      TurnsGoRound(n, cursor, p);
    }
  }

  /** The session whose turn it is starts its request if a slot is free, and no later session takes it away. */
  lemma {:induction false} FirstInTurnStarts(p: Pool, order: seq<nat>, asks: map<nat, Ask>)
    requires order != [] && order[0] in asks && asks[order[0]].targets.Some? && asks[order[0]].failure.None?
    requires Available(p, order[0])
    ensures asks[order[0]].ticket in PollAll(p, order, asks).started
  {
    if |order| > 1 {
      FirstInTurnStarts(p, order[..|order| - 1], asks);
    } else {
      assert order[..0] == [] && PollAll(p, [], asks) == p;
    }
  }

  ghost predicate AsksOk(p: Pool, asks: map<nat, Ask>, engines: set<nat>) {
    && (forall e :: e in asks && e in engines ==> Fresh(p, asks[e].ticket))
    && (forall d, e :: d in asks && e in asks && d != e ==> asks[d].ticket != asks[e].ticket)
  }

  /** A poll keeps the invariant too: it is a series of the steps above, one for each session at most. */
  lemma {:induction false} PollKeeps(p: Pool, order: seq<nat>, asks: map<nat, Ask>, later: set<nat>)
    requires Inv(p) && AsksOk(p, asks, later + set e | e in order)
    requires forall i, k :: 0 <= i < k < |order| ==> order[i] != order[k]
    requires forall e :: e in order ==> e !in later
    ensures var q := PollAll(p, order, asks); Inv(q) && AsksOk(q, asks, later)
  {
    if order != [] {
      var init, e := order[..|order| - 1], order[|order| - 1];
      assert order == init + [e];
      assert later + (set x | x in order) == (later + {e}) + set x | x in init;
      PollKeeps(p, init, asks, later + {e});
      PollOneKeeps(PollAll(p, init, asks), e, asks, later);
    }
  }

  lemma PollOneKeeps(p: Pool, e: nat, asks: map<nat, Ask>, later: set<nat>)
    requires Inv(p) && AsksOk(p, asks, later + {e}) && e !in later
    ensures var q := PollOne(p, e, asks); Inv(q) && AsksOk(q, asks, later)
  {
    hide Inv;
    if Available(p, e) && e in asks {
      var ask := asks[e];
      assert e in later + {e} && Fresh(p, ask.ticket);
      if ask.targets.Some? {
        StartKeeps(p, e, ask.ticket, ask.targets.value, ask.failure);
        if ask.failure.Some? { SettledMore(p.log, Settled(ask.ticket, Some(Refused(Failed(ask.failure.value))))); }
      } else {
        RefusalKeeps(p, Settled(ask.ticket, Some(Refused(Retired))));
        SettledMore(p.log, Settled(ask.ticket, Some(Refused(Retired))));
      }
    }
  }

  /** A poll takes up the request of every session it can serve; it leaves a request alone only if the engine
      has a thread, all threads are taken, or the pool is stopping. */
  lemma {:induction false} PollTakesUp(p: Pool, order: seq<nat>, asks: map<nat, Ask>, e: nat)
    requires e in order && e in asks
    ensures var q := PollAll(p, order, asks);
      asks[e].ticket in q.started || asks[e].ticket in SettledTickets(q.log) || !Available(q, e)
  {
    var init, last := order[..|order| - 1], order[|order| - 1];
    var m, q := PollAll(p, init, asks), PollAll(p, order, asks);
    PollOneMore(m, last, asks);
    if last == e {
      if Available(m, e) && q.log != m.log { assert q.log[|m.log|] in q.log; }
    } else {
      assert order == init + [last];
      PollTakesUp(p, init, asks, e);
    }
  }

  lemma PollOneMore(p: Pool, e: nat, asks: map<nat, Ask>)
    ensures var q := PollOne(p, e, asks);
      p.started <= q.started && SettledTickets(p.log) <= SettledTickets(q.log)
      && forall d :: Available(q, d) ==> Available(p, d)
  {
    var q := PollOne(p, e, asks);
    assert p.log <= q.log && p.jobs <= q.jobs;
    assert forall s :: s in p.log ==> s in q.log;
    assert forall j :: j in p.jobs ==> j in q.jobs;
  }

  /** A session whose workspace has no owner is told that its target has retired. */
  lemma OwnerlessIsRetired(p: Pool, e: nat, asks: map<nat, Ask>)
    requires Available(p, e) && e in asks && asks[e].targets.None?
    ensures PollOne(p, e, asks).jobs == p.jobs
      && Settled(asks[e].ticket, Some(Refused(Retired))) in PollOne(p, e, asks).log
  {
    assert PollOne(p, e, asks).log[|p.log|] == Settled(asks[e].ticket, Some(Refused(Retired)));
  }

  ghost predicate NeverFull(log: seq<Settled>, asks: map<nat, Ask>) {
    forall s :: s in log ==>
      s.answer == Some(Refused(Retired))
        || exists e :: e in asks && asks[e].failure.Some? && s.answer == Some(Refused(Failed(asks[e].failure.value)))
  }

  /** A poll asks only for what it can start: it refuses no request for lack of capacity. */
  lemma {:induction false} PollNeverFull(p: Pool, order: seq<nat>, asks: map<nat, Ask>)
    ensures var q := PollAll(p, order, asks); p.log <= q.log && NeverFull(q.log[|p.log|..], asks)
  {
    if order != [] {
      var init, e := order[..|order| - 1], order[|order| - 1];
      PollNeverFull(p, init, asks);
      var m, q := PollAll(p, init, asks), PollAll(p, order, asks);
      if q.log != m.log {
        assert q.log[|p.log|..] == m.log[|p.log|..] + [q.log[|m.log|]];
      }
    }
  }
}
