/** What a poll starts and what it ends: for every request that waits, whether it runs afterwards and where; for
    every remote job, whether it is over and with which result. */
module ExplorerStarts {
  import opened Wrappers
  import opened ExplorerFiles

  // ---------------------------------------------------------------- where a request runs

  /** A job that was not there before, in the workspace, under a new number, and not yet answered. */
  ghost predicate NewJob(f: Files, g: Files, key: Key, workspace: nat) {
    exists j :: j in g.remote && j !in f.remote
                && j.key == key && j.workspace == workspace && f.nextOp < j.op <= g.nextOp && j.result.None?
  }

  /** The request runs where it belongs: in the local slot, or as a new job of the workspace it was seen with. */
  ghost predicate RunsWhereSeen(f: Files, g: Files, key: Key, sight: Sight) {
    if sight.remote.None? then g.job == Some(key) else NewJob(f, g, key, sight.remote.value)
  }

  /** A request that left the queue and was not stale found its turn free; it runs if and only if its launch
      succeeded. An attempt to send to a remote workspace uses a number up, whether it succeeds or not. */
  ghost predicate Tries(f: Files, g: Files, key: Key, sight: Sight) {
    && key in g.fate && (g.fate[key] == Running <==> sight.launch == Launched)
    && (g.fate[key] != Running ==> g.fate[key] == NotStarted)
    && (g.fate[key] == Running ==> RunsWhereSeen(f, g, key, sight))
    && (if sight.remote.Some? then !RemoteBusy(f, sight.remote.value) else f.job.None?)
    && (sight.remote.Some? && sight.launch != Unsupported ==> f.nextOp < g.nextOp)
  }

  /** What stands stays: jobs are only added behind the old ones, numbers only grow, and a local job is left alone. */
  ghost predicate OnlyAdds(f: Files, g: Files) {
    && f.remote <= g.remote && f.nextOp <= g.nextOp && (f.job.Some? ==> g.job == f.job)
    && (forall j :: j in g.remote && j !in f.remote ==> f.nextOp < j.op <= g.nextOp)
  }

  lemma AddsTwice(f: Files, g: Files, h: Files)
    requires OnlyAdds(f, g) && OnlyAdds(g, h)
    ensures OnlyAdds(f, h)
  {
    assert forall j :: j in f.remote ==> j in g.remote;
    assert forall j :: j in g.remote ==> j in h.remote;
  }

  // ---------------------------------------------------------------- one turn

  lemma TurnTries(f: Files, localFree: bool, key: Key, sight: Sight)
    requires FilesOk(f) && (localFree ==> f.job.None?)
    ensures var t := TakeTurn(f, localFree, key, sight);
      && OnlyAdds(f, t.files) && (t.localFree ==> t.files.job.None?)
      && (t.files.job.Some? && f.job.None? ==> !t.localFree)
      && (!t.kept && !sight.stale ==> Tries(f, t.files, key, sight))
      && (!t.kept && sight.stale ==> key in t.files.fate && t.files.fate[key] == Dropped)
      && (t.kept ==> t.files == f)
  {
    var t := TakeTurn(f, localFree, key, sight);
    if !t.kept && !sight.stale && sight.remote.Some? && sight.launch == Launched {
      var j := RemoteJob(f.nextOp + 1, sight.remote.value, key, None);
      assert t.files.remote == f.remote + [j];
      assert j in t.files.remote && j !in f.remote;
    }
  }

  /** What was tried stays as it is when later requests only add. */
  lemma StillTries(f: Files, g: Files, h: Files, key: Key, sight: Sight)
    requires Tries(f, g, key, sight) && OnlyAdds(f, g) && OnlyAdds(g, h) && key in h.fate && h.fate[key] == g.fate[key]
    ensures Tries(f, h, key, sight)
  {
    assert forall j :: j in g.remote ==> j in h.remote;
    if g.fate[key] == Running && sight.remote.Some? {
      var j :| j in g.remote && j !in f.remote && j.key == key && j.workspace == sight.remote.value
        && f.nextOp < j.op <= g.nextOp && j.result.None?;
      assert j in h.remote;
    }
  }

  /** What was tried after something else has only been added was tried from the start. */
  lemma TriesLater(f: Files, g: Files, h: Files, key: Key, sight: Sight)
    requires OnlyAdds(f, g) && OnlyAdds(g, h) && Tries(g, h, key, sight)
    ensures Tries(f, h, key, sight)
  {
    assert forall j :: j in f.remote ==> j in g.remote;
    if h.fate[key] == Running && sight.remote.Some? {
      var j :| j in h.remote && j !in g.remote && j.key == key && j.workspace == sight.remote.value
        && g.nextOp < j.op <= h.nextOp && j.result.None?;
      assert j !in f.remote;
    }
  }

  // ---------------------------------------------------------------- one pass over a view

  /** Of one request: stale ones are dropped, kept ones wait on, and the others have been tried. */
  ghost predicate Decided(f: Files, g: Files, key: Key, sight: Sight, kept: bool) {
    if sight.stale then !kept && key in g.fate && g.fate[key] == Dropped
    else if kept then key in g.fate && g.fate[key] == Queued
    else Tries(f, g, key, sight)
  }

  ghost predicate AllDecided(f: Files, view: nat, q: seq<Request>, env: Env, s: Scanned) {
    forall r :: r in q ==> Decided(f, s.files, Key(view, r.id), env(Key(view, r.id)), r in s.kept)
  }

  /** One pass decides every request of the view like that, and otherwise only adds jobs. */
  lemma {:induction false} ScanDecides(f: Files, localFree: bool, view: nat, q: seq<Request>, env: Env)
    requires FilesOk(f) && (localFree ==> f.job.None?) && Increasing(q) && AllQueued(f, view, q)
    ensures var s := Scan(f, localFree, view, q, env); AllDecided(f, view, q, env, s) && OnlyAdds(f, s.files)
    decreases |q|
  {
    if q != [] {
      hide FilesOk, TakeTurn, Decided, OnlyAdds, ScanOk, Tries;
      var key := Key(view, q[0].id);
      KeysOfFirst(view, q);
      assert key in KeysOf(view, q);
      TurnKeeps(f, localFree, key, env(key));
      TurnTries(f, localFree, key, env(key));
      var t := TakeTurn(f, localFree, key, env(key));
      ScanDecides(t.files, t.localFree, view, q[1..], env);
      ScanKeeps(t.files, t.localFree, view, q[1..], env);
      ScanKeeps(f, localFree, view, q, env);
      var rest := Scan(t.files, t.localFree, view, q[1..], env);
      AddsTwice(f, t.files, rest.files);
      DecidedJoined(f, localFree, view, q, env, t, rest);
    } else {
      NothingAdded(f);
    }
  }

  lemma NothingAdded(f: Files)
    ensures OnlyAdds(f, f)
  {}

  lemma DecidedJoined(f: Files, localFree: bool, view: nat, q: seq<Request>, env: Env, t: Turn, rest: Scanned)
    requires q != [] && Increasing(q)
    requires t == TakeTurn(f, localFree, Key(view, q[0].id), env(Key(view, q[0].id)))
    requires OnlyAdds(f, t.files) && OnlyAdds(t.files, rest.files)
    requires AllDecided(t.files, view, q[1..], env, rest) && ScanOk(t.files, view, q[1..], env, rest)
    requires var whole := if t.kept then rest.(kept := [q[0]] + rest.kept) else rest; ScanOk(f, view, q, env, whole)
    requires var key := Key(view, q[0].id); !t.kept && !env(key).stale ==> Tries(f, t.files, key, env(key))
    ensures AllDecided(f, view, q, env, if t.kept then rest.(kept := [q[0]] + rest.kept) else rest)
  {
    var whole := if t.kept then rest.(kept := [q[0]] + rest.kept) else rest;
    FirstNotLater(q, rest.kept);
    KeysOfFirst(view, q);
    forall r | r in q ensures Decided(f, whole.files, Key(view, r.id), env(Key(view, r.id)), r in whole.kept) {
      var key := Key(view, r.id);
      assert Placed(key, r in whole.kept, env, whole.files.fate);
      if r.id == q[0].id {
        OneById(q, r, q[0]);
        if !t.kept && !env(key).stale { FirstStays(f, t, view, q, env, rest); }
      } else {
        InTail(q, r);
        assert r in whole.kept <==> r in rest.kept;
        if r !in rest.kept && !env(key).stale {
          hide Tries, OnlyAdds;
          assert Decided(t.files, rest.files, key, env(key), false);
          TriesLater(f, t.files, rest.files, key, env(key));
        }
      }
    }
  }

  lemma FirstStays(f: Files, t: Turn, view: nat, q: seq<Request>, env: Env, rest: Scanned)
    requires q != [] && Increasing(q) && ScanOk(t.files, view, q[1..], env, rest)
    requires OnlyAdds(f, t.files) && OnlyAdds(t.files, rest.files)
    requires Tries(f, t.files, Key(view, q[0].id), env(Key(view, q[0].id)))
    ensures Tries(f, rest.files, Key(view, q[0].id), env(Key(view, q[0].id)))
  {
    hide OnlyAdds, FilesOk, KeptOk, AllPlaced;
    KeysOfFirst(view, q);
    StillTries(f, t.files, rest.files, Key(view, q[0].id), env(Key(view, q[0].id)));
  }

  // ---------------------------------------------------------------- all windows

  /** Whether a request stands in the queue of its view. */
  ghost predicate Stands(views: map<nat, Requests>, key: Key) {
    key.view in views && key in KeysOf(key.view, views[key.view].queue)
  }

  lemma ViewDecides(p: Progress, view: nat, env: Env, key: Key)
    requires ProgressOk(p) && key in p.files.fate && p.files.fate[key] == Queued
    ensures var q := StartView(p, view, env);
      && OnlyAdds(p.files, q.files) && key in q.files.fate
      && (key.view == view ==> Decided(p.files, q.files, key, env(key), Stands(q.views, key)))
      && (key.view != view ==> q.files.fate[key] == Queued)
  {
    hide FilesOk, Decided, OnlyAdds;
    if view in p.views {
      var q0 := p.views[view].queue;
      assert QueueOk(p.files, view, p.views[view]);
      ScanDecides(p.files, p.localFree, view, q0, env);
      ScanKeeps(p.files, p.localFree, view, q0, env);
      var s := Scan(p.files, p.localFree, view, q0, env);
      if key.view == view {
        var x := FindKey(p, view, key);
        StandsIfKept(view, q0, s.kept, x);
      } else {
        assert key !in KeysOf(view, q0);
      }
    } else {
      NothingAdded(p.files);
      assert Stands(p.views, key);
    }
  }

  lemma StandsIfKept(view: nat, q: seq<Request>, kept: seq<Request>, x: nat)
    requires x < |q| && Increasing(q) && forall r :: r in kept ==> r in q
    ensures Key(view, q[x].id) in KeysOf(view, kept) <==> q[x] in kept
  {
    if Key(view, q[x].id) in KeysOf(view, kept) {
      var r :| r in kept && r.id == q[x].id;
      OneById(q, r, q[x]);
    }
  }

  /** After the starts of a poll, each request whose window was looked through is decided; the others wait on. */
  lemma {:induction false} StartAllDecides(p: Progress, order: seq<nat>, env: Env, key: Key)
    requires ProgressOk(p) && NoRepeats(order) && key in p.files.fate && p.files.fate[key] == Queued
    ensures var q := StartAll(p, order, env);
      && OnlyAdds(p.files, q.files) && key in q.files.fate
      && (key.view in order ==> Decided(p.files, q.files, key, env(key), Stands(q.views, key)))
      && (key.view !in order ==> q.files.fate[key] == Queued)
  {
    hide FilesOk, ViewsOk, Decided, OnlyAdds, StartView, Stands;
    if order == [] {
      NothingAdded(p.files);
    } else {
      var init, v := order[..|order| - 1], order[|order| - 1];
      StartAllDecides(p, init, env, key);
      StartAllKeeps(p, init, env);
      var s := StartAll(p, init, env);
      assert key.view in order <==> key.view in init || key.view == v by { assert order == init + [v]; }
      if key.view in init {
        LaterWindow(p, s, v, env, key);
      } else {
        ViewDecides(s, v, env, key);
        AddsTwice(p.files, s.files, StartView(s, v, env).files);
        if key.view == v {
          var t := StartView(s, v, env);
          DecidedFromStart(p.files, s.files, t.files, key, env(key), Stands(t.views, key));
        }
      }
    }
  }

  lemma DecidedFromStart(f: Files, g: Files, h: Files, key: Key, sight: Sight, kept: bool)
    requires OnlyAdds(f, g) && OnlyAdds(g, h) && Decided(g, h, key, sight, kept)
    ensures Decided(f, h, key, sight, kept)
  {
    hide Tries, OnlyAdds;
    if !sight.stale && !kept { TriesLater(f, g, h, key, sight); }
  }

  /** Looking through another window changes nothing about a request that is decided. */
  lemma LaterWindow(p: Progress, s: Progress, v: nat, env: Env, key: Key)
    requires ProgressOk(s) && key.view != v && OnlyAdds(p.files, s.files) && key in s.files.fate
    requires Decided(p.files, s.files, key, env(key), Stands(s.views, key))
    ensures var q := StartView(s, v, env);
      OnlyAdds(p.files, q.files) && key in q.files.fate
      && Decided(p.files, q.files, key, env(key), Stands(q.views, key))
  {
    hide FilesOk;
    if v in s.views {
      var q0 := s.views[v].queue;
      assert QueueOk(s.files, v, s.views[v]);
      hide OnlyAdds, Tries;
      ScanDecides(s.files, s.localFree, v, q0, env);
      ScanKeeps(s.files, s.localFree, v, q0, env);
      var g := Scan(s.files, s.localFree, v, q0, env).files;
      AddsTwice(p.files, s.files, g);
      assert key !in KeysOf(v, q0);
      if !env(key).stale && !Stands(s.views, key) { StillTries(p.files, s.files, g, key, env(key)); }
    }
  }

  // ---------------------------------------------------------------- a whole poll

  /** In a poll a request that waits is dropped if it is stale; otherwise it waits on, or it is tried: it found
      its workspace, or the local slot, free, and runs exactly if its launch succeeded, in the local slot or as
      a new job of the workspace it was seen with. A window that is not looked through keeps its requests. */
  lemma PollDecides(s: State, exited: bool, inbox: seq<Message>, live: set<nat>, order: seq<nat>, env: Env, key: Key)
    requires Inv(s) && !s.stopping && NoRepeats(order) && key in s.files.fate && s.files.fate[key] == Queued
    ensures var f := PollRemote(TakeFinished(s.files, exited), inbox, live);
      var t := Poll(s, exited, inbox, live, order, env);
      && key in t.files.fate
      && (key.view in order ==> Decided(f, t.files, key, env(key), Stands(t.views, key)))
      && (key.view !in order ==> t.files.fate[key] == Queued)
  {
    hide FilesOk, ViewsOk, Decided, Stands, PollRemote, TakeFinished, StartAll;
    CollectKeeps(s, exited, inbox, live);
    var f := PollRemote(TakeFinished(s.files, exited), inbox, live);
    StillQueued(s.views, s.files, f, key);
    StartAllDecides(Progress(s.views, f, f.job.None?), order, env, key);
  }

  // ---------------------------------------------------------------- what is taken on

  /** A user may ask for the operation here. */
  predicate MayAsk(ask: Ask) { ask.user && ask.bound && !ask.blocked && (ask.remote ==> !ask.localOnly) }

  /** A request is taken on exactly if it may be asked for, its view has room and it is not too large. It then
      waits behind the others of the view under the next number. Otherwise nothing changes; the view is told
      that it is full, or that the request is too large, only if it might have been asked for. */
  lemma TakenOnExactly(s: State, view: nat, ask: Ask)
    requires view in s.views
    ensures var old_, t, answer := s.views[view], Enqueue(s, view, ask), Admit(s.views[view], ask);
      var taken := MayAsk(ask) && |old_.queue| < MAX_PENDING_PER_VIEW && ask.bytes <= MAX_REQUEST_BYTES;
      && (taken ==>
            var key := Key(view, old_.counter + 1);
            && answer == Accepted(key.id) && Stands(t.views, key) && key in t.files.fate && t.files.fate[key] == Queued
            && t.views[view].queue == old_.queue + [Request(key.id, ask.operation)] && t.views[view].counter == key.id
            && t.views - {view} == s.views - {view} && t.stopping == s.stopping
            && t.files == s.files.(fate := t.files.fate) && t.files.fate - {key} == s.files.fate - {key})
      && (!taken ==> t == s)
      && (answer == QueueFull <==> MayAsk(ask) && |old_.queue| >= MAX_PENDING_PER_VIEW)
      && (answer == TooLarge <==>
            MayAsk(ask) && |old_.queue| < MAX_PENDING_PER_VIEW && ask.bytes > MAX_REQUEST_BYTES)
      && (answer == Ignored <==> !MayAsk(ask))
  {
    var old_, t := s.views[view], Enqueue(s, view, ask);
    var id := old_.counter + 1;
    if Admit(old_, ask) == Accepted(id) {
      var more := t.views[view].queue;
      assert more[|old_.queue|] == Request(id, ask.operation) && more[|old_.queue|] in more;
    }
  }

  // ---------------------------------------------------------------- what ends

  /** A report of the server on just this job. */
  predicate ReportsOn(m: Message, j: RemoteJob) { m.workspace == j.workspace && m.op == j.op && m.report.Some? }

  /** Message k is the last one that reports on the job. */
  ghost predicate LastReport(j: RemoteJob, inbox: seq<Message>, k: nat) {
    k < |inbox| && ReportsOn(inbox[k], j) && forall i :: k < i < |inbox| ==> !ReportsOn(inbox[i], j)
  }

  lemma {:induction false} LastReportCounts(j: RemoteJob, inbox: seq<Message>)
    ensures forall k: nat :: LastReport(j, inbox, k) ==> Reported(j, inbox) == Some(Finished(inbox[k].report.value))
    ensures (forall k: nat :: !LastReport(j, inbox, k)) ==>
              Reported(j, inbox) == j.result && forall i :: 0 <= i < |inbox| ==> !ReportsOn(inbox[i], j)
  {
    if inbox != [] {
      var n := |inbox| - 1;
      LastReportCounts(j, inbox[..n]);
      if ReportsOn(inbox[n], j) {
        assert LastReport(j, inbox, n);
      } else {
        forall k: nat ensures LastReport(j, inbox, k) <==> LastReport(j, inbox[..n], k) {
          assert forall i :: 0 <= i < n ==> inbox[..n][i] == inbox[i];
        }
      }
    }
  }

  lemma {:induction false} DoneHolds(remote: seq<RemoteJob>, inbox: seq<Message>, live: set<nat>)
    ensures forall j :: j in remote && Outcome(j, inbox, live).Some? ==>
              Settled(j, inbox, live) in Done(remote, inbox, live)
  {
    if remote != [] {
      var init, last := remote[..|remote| - 1], remote[|remote| - 1];
      DoneHolds(init, inbox, live);
      assert remote == init + [last];
    }
  }

  /** A remote job ends with the last report on it. Without a report it is lost if its connection is gone, and
      waits on unchanged if not. */
  lemma EndsWithLastReport(remote: seq<RemoteJob>, nextOp: nat, inbox: seq<Message>, live: set<nat>, j: RemoteJob)
    requires RemoteOk(remote, nextOp) && j in remote
    ensures forall k: nat :: LastReport(j, inbox, k) ==>
              j.(result := Some(Finished(inbox[k].report.value))) in Done(remote, inbox, live)
    ensures (forall k: nat :: !LastReport(j, inbox, k)) && j.op !in live ==>
              j.(result := Some(Lost)) in Done(remote, inbox, live)
    ensures (forall k: nat :: !LastReport(j, inbox, k)) && j.op in live ==> j in Waiting(remote, inbox, live)
  {
    hide LastReport, Reported;
    LastIsOk(remote, j, nextOp);
    LastReportCounts(j, inbox);
    DoneHolds(remote, inbox, live);
    WaitsForItsServer(remote, inbox, live);
  }

  lemma {:induction false} StartAllAdds(p: Progress, order: seq<nat>, env: Env)
    requires ProgressOk(p)
    ensures OnlyAdds(p.files, StartAll(p, order, env).files)
  {
    if order == [] {
      NothingAdded(p.files);
    } else {
      hide OnlyAdds, FilesOk, StartAll;
      var init, v := order[..|order| - 1], order[|order| - 1];
      StartAllAdds(p, init, env);
      StartAllKeeps(p, init, env);
      var s := StartAll(p, init, env);
      assert StartAll(p, order, env) == StartView(s, v, env) by { LastWindow(p, order, env); }
      if v in s.views {
        assert QueueOk(s.files, v, s.views[v]);
        ScanDecides(s.files, s.localFree, v, s.views[v].queue, env);
        AddsTwice(p.files, s.files, StartView(s, v, env).files);
      }
    }
  }

  lemma LastWindow(p: Progress, order: seq<nat>, env: Env)
    requires order != []
    ensures StartAll(p, order, env) == StartView(StartAll(p, order[..|order| - 1], env), order[|order| - 1], env)
  {}

  /** The server has reported on the job, or cannot any more. */
  ghost predicate Over(j: RemoteJob, inbox: seq<Message>, live: set<nat>) {
    j.op !in live || exists k: nat :: LastReport(j, inbox, k)
  }

  lemma OverIsDone(f: Files, inbox: seq<Message>, live: set<nat>, j: RemoteJob)
    requires FilesOk(f) && j in f.remote && j.key in f.fate
    ensures var g := PollRemote(f, inbox, live);
      j.key in g.fate && g.job == f.job && (if Over(j, inbox, live) then g.fate[j.key] == Ended else j in g.remote)
  {
    hide LastReport;
    EndsWithLastReport(f.remote, f.nextOp, inbox, live, j);
    if Over(j, inbox, live) {
      var d :| d in Done(f.remote, inbox, live) && d.key == j.key;
    }
  }

  lemma RunsInPlace(f: Files, key: Key)
    requires FilesOk(f)
    requires f.job == Some(key) || exists j :: j in f.remote && j.key == key
    ensures key in f.fate && f.fate[key] == Running
  {
    assert key in RunningKeys(f);
    assert key in InPhase(f.fate, Running);
  }

  /** A poll ends the local request exactly if its thread has ended, and a remote one exactly if its job is over,
      whether the program is stopping or not; every other runs on where it ran. While the program is stopping
      nothing else happens: what waits goes on waiting. */
  lemma PollEnds(s: State, exited: bool, inbox: seq<Message>, live: set<nat>, order: seq<nat>, env: Env, key: Key)
    requires Inv(s) && key in s.files.fate
    ensures var t := Poll(s, exited, inbox, live, order, env);
      && key in t.files.fate && t.stopping == s.stopping
      && (s.stopping ==> t.views == s.views && (s.files.fate[key] == Queued ==> t.files.fate[key] == Queued))
      && (s.files.job == Some(key) ==>
            if exited then t.files.fate[key] == Ended else t.files.fate[key] == Running && t.files.job == Some(key))
      && (forall j :: j in s.files.remote && j.key == key ==>
            if Over(j, inbox, live) then t.files.fate[key] == Ended
            else t.files.fate[key] == Running && j in t.files.remote)
  {
    hide FilesOk, ViewsOk, PollRemote, StartAll, LastReport, Over;
    CollectKeeps(s, exited, inbox, live);
    PollKeeps(s, exited, inbox, live, order, env);
    var f0 := TakeFinished(s.files, exited);
    var f, t := PollRemote(f0, inbox, live), Poll(s, exited, inbox, live, order, env);
    assert OnlyAdds(f, t.files) && Advances(f.fate, t.files.fate) by {
      if s.stopping {
        NothingAdded(f);
      } else {
        StartAllAdds(Progress(s.views, f, f.job.None?), order, env);
        StartAllKeeps(Progress(s.views, f, f.job.None?), order, env);
      }
    }
    assert FilesOk(f0) by { TakeFinishedKeeps(s.files, exited); }
    if s.stopping { StillQueued(s.views, s.files, f, key); }
    assert f.job == f0.job && (f0.fate[key] == Ended ==> f.fate[key] == Ended) by {
      PollRemoteKeepsJob(f0, inbox, live, key);
    }
    if t.files.job == Some(key) { RunsInPlace(t.files, key); }
    forall j | j in s.files.remote && j.key == key
      ensures if Over(j, inbox, live) then t.files.fate[key] == Ended
              else t.files.fate[key] == Running && j in t.files.remote
    {
      OverIsDone(f0, inbox, live, j);
      if !Over(j, inbox, live) { RunsInPlace(t.files, key); }
    }
  }

  lemma PollRemoteKeepsJob(f: Files, inbox: seq<Message>, live: set<nat>, key: Key)
    requires key in f.fate
    ensures var g := PollRemote(f, inbox, live);
      g.job == f.job && key in g.fate && (f.fate[key] == Ended ==> g.fate[key] == Ended)
  {}
}
