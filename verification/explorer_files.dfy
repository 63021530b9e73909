/** The scheduler of file operations asked for in the explorer views: one local job in the whole
    application, one remote job for each mirrored workspace, and a short queue in each view. */
module ExplorerFiles {
  import opened Wrappers

  const MAX_PENDING_PER_VIEW := 8
  const MAX_REQUEST_BYTES := 1024 * 1024

  /** A request is known by its view and its number in that view. */
  datatype Key = Key(view: nat, id: nat)
  datatype Request = Request(id: nat, operation: int)
  datatype Requests = Requests(queue: seq<Request>, counter: nat)

  /** result arrives with a message from the server, or says that the connection was lost. */
  datatype Result = Finished(report: int) | Lost
  datatype RemoteJob = RemoteJob(op: nat, workspace: nat, key: Key, result: Option<Result>)

  /** Where an accepted request has got to. */
  datatype Phase = Queued | Running | Ended | Dropped | NotStarted | Removed | Discarded

  datatype Files = Files(job: Option<Key>, remote: seq<RemoteJob>, nextOp: nat, fate: map<Key, Phase>)

  /** How an attempt to start ends: Unsupported means no operation or no session to send on, NotSent that
      the send (or the making of the local thread) failed. */
  datatype Launch = Launched | NotSent | Unsupported

  /** What a poll finds out about one request. remote is the mirrored workspace of its surface. */
  datatype Sight = Sight(stale: bool, remote: Option<nat>, launch: Launch)

  type Env = Key -> Sight

  // ---------------------------------------------------------------- starting what waits in one view

  predicate RemoteBusy(f: Files, workspace: nat) { exists j :: j in f.remote && j.workspace == workspace }

  predicate Startable(f: Files, localFree: bool, remote: Option<nat>) {
    if remote.Some? then !RemoteBusy(f, remote.value) else localFree
  }

  function Settle(f: Files, key: Key, phase: Phase): Files { f.(fate := f.fate[key := phase]) }

  function TryLaunch(f: Files, key: Key, sight: Sight): Files {
    if sight.remote.None? then
      if sight.launch == Launched then Settle(f, key, Running).(job := Some(key)) else Settle(f, key, NotStarted)
    else if sight.launch == Launched then
      Settle(f, key, Running).(nextOp := f.nextOp + 1,
        remote := f.remote + [RemoteJob(f.nextOp + 1, sight.remote.value, key, None)])
    else if sight.launch == NotSent then Settle(f, key, NotStarted).(nextOp := f.nextOp + 1)
    else Settle(f, key, NotStarted)
  }

  datatype Scanned = Scanned(files: Files, localFree: bool, kept: seq<Request>)

  datatype Turn = Turn(files: Files, localFree: bool, kept: bool)

  function TakeTurn(f: Files, localFree: bool, key: Key, sight: Sight): Turn {
    if sight.stale then Turn(Settle(f, key, Dropped), localFree, false)
    else if Startable(f, localFree, sight.remote)
      then Turn(TryLaunch(f, key, sight), localFree && sight.remote.Some?, false)
    else Turn(f, localFree, true)
  }

  function Scan(f: Files, localFree: bool, view: nat, q: seq<Request>, env: Env): Scanned
    decreases |q|
  {
    if q == [] then Scanned(f, localFree, [])
    else
      var key := Key(view, q[0].id);
      var turn := TakeTurn(f, localFree, key, env(key));
      var rest := Scan(turn.files, turn.localFree, view, q[1..], env);
      if turn.kept then rest.(kept := [q[0]] + rest.kept) else rest
  }

  // ---------------------------------------------------------------- what a scan promises

  ghost function RemoteKeys(remote: seq<RemoteJob>): set<Key> { set j | j in remote :: j.key }
  ghost function RunningKeys(f: Files): set<Key> { RemoteKeys(f.remote) + if f.job.Some? then {f.job.value} else {} }
  ghost function InPhase(fate: map<Key, Phase>, phase: Phase): set<Key> { set k | k in fate && fate[k] == phase }
  function KeysOf(view: nat, q: seq<Request>): set<Key> { set r | r in q :: Key(view, r.id) }

  ghost predicate RemoteOk(remote: seq<RemoteJob>, nextOp: nat) {
    && (forall i, k :: 0 <= i < k < |remote| ==>
      remote[i].workspace != remote[k].workspace && remote[i].op != remote[k].op && remote[i].key != remote[k].key)
    && forall j :: j in remote ==> j.op <= nextOp && j.result.None?
  }

  /** At most one local job, one remote job for each workspace, and each request that runs in one place. */
  ghost predicate FilesOk(f: Files) {
    && RemoteOk(f.remote, f.nextOp)
    && (f.job.Some? ==> f.job.value !in RemoteKeys(f.remote))
    && RunningKeys(f) == InPhase(f.fate, Running)
  }

  ghost predicate Increasing(q: seq<Request>) { forall i, k :: 0 <= i < k < |q| ==> q[i].id < q[k].id }

  lemma KeysOfFirst(view: nat, q: seq<Request>)
    requires q != [] && Increasing(q)
    ensures KeysOf(view, q) == {Key(view, q[0].id)} + KeysOf(view, q[1..])
    ensures Key(view, q[0].id) !in KeysOf(view, q[1..]) && Increasing(q[1..])
  {
    assert q == [q[0]] + q[1..];
    assert forall r :: r in q <==> r == q[0] || r in q[1..];
    forall r | r in q[1..] ensures r.id != q[0].id {
      var k :| 0 <= k < |q[1..]| && q[1..][k] == r;
      assert q[k + 1] == r;
    }
  }

  lemma LaunchKeeps(f: Files, key: Key, sight: Sight, localFree: bool)
    requires FilesOk(f) && (localFree ==> f.job.None?)
    requires key in f.fate && f.fate[key] == Queued
    requires Startable(f, localFree, sight.remote)
    ensures var g := TryLaunch(f, key, sight);
      && FilesOk(g) && (localFree && sight.remote.Some? ==> g.job.None?)
      && key in g.fate && g.fate[key] in {Running, NotStarted} && g.fate == f.fate[key := g.fate[key]]
  {
    var g := TryLaunch(f, key, sight);
    assert key !in RunningKeys(f);
    PhaseChanges(f.fate, key, g.fate[key]);
    if sight.remote.Some? && sight.launch == Launched {
      RemoteMore(f, RemoteJob(f.nextOp + 1, sight.remote.value, key, None));
    }
  }

  lemma PhaseChanges(fate: map<Key, Phase>, key: Key, phase: Phase)
    requires key in fate && fate[key] == Queued
    ensures InPhase(fate[key := phase], Running) == InPhase(fate, Running) + if phase == Running then {key} else {}
  {
  }

  lemma RemoteMore(f: Files, j: RemoteJob)
    requires RemoteOk(f.remote, f.nextOp) && !RemoteBusy(f, j.workspace) && j.op == f.nextOp + 1 && j.result.None?
      && j.key !in RemoteKeys(f.remote)
    ensures RemoteOk(f.remote + [j], j.op) && RemoteKeys(f.remote + [j]) == RemoteKeys(f.remote) + {j.key}
  {
    assert forall x :: x in f.remote + [j] <==> x in f.remote || x == j;
    forall i | 0 <= i < |f.remote|
      ensures f.remote[i].workspace != j.workspace && f.remote[i].op != j.op && f.remote[i].key != j.key {
      assert f.remote[i] in f.remote && f.remote[i].key in RemoteKeys(f.remote);
    }
  }

  lemma DropKeeps(f: Files, key: Key, phase: Phase)
    requires FilesOk(f) && key in f.fate && f.fate[key] == Queued && phase != Running
    ensures FilesOk(Settle(f, key, phase))
  {
    assert InPhase(f.fate[key := phase], Running) == InPhase(f.fate, Running);
  }

  /** What one scan leaves: the requests kept are still queued, the others have started, been dropped or
      failed to start, and nothing outside the queue is touched. */
  ghost predicate ScanOk(f: Files, view: nat, q: seq<Request>, env: Env, s: Scanned) {
    && FilesOk(s.files) && (s.localFree ==> s.files.job.None?)
    && KeptOk(q, s.kept)
    && SameOutside(f.fate, s.files.fate, KeysOf(view, q))
    && AllPlaced(view, q, s.kept, env, s.files.fate)
  }

  ghost predicate KeptOk(q: seq<Request>, kept: seq<Request>) {
    Increasing(kept) && |kept| <= |q| && forall r :: r in kept ==> r in q
  }

  ghost predicate SameOutside(before: map<Key, Phase>, after: map<Key, Phase>, keys: set<Key>) {
    before.Keys == after.Keys && forall k :: k in before && k !in keys ==> after[k] == before[k]
  }

  ghost predicate AllPlaced(view: nat, q: seq<Request>, kept: seq<Request>, env: Env, fate: map<Key, Phase>) {
    forall r :: r in q ==> Placed(Key(view, r.id), r in kept, env, fate)
  }

  ghost predicate Placed(key: Key, kept: bool, env: Env, fate: map<Key, Phase>) {
    key in fate && PhaseOk(fate[key], kept, env(key))
  }

  ghost predicate PhaseOk(phase: Phase, kept: bool, sight: Sight) {
    if sight.stale then !kept && phase == Dropped
    else if kept then phase == Queued
    else phase in {Running, NotStarted}
  }

  ghost predicate AllQueued(f: Files, view: nat, q: seq<Request>) {
    forall k :: k in KeysOf(view, q) ==> k in f.fate && f.fate[k] == Queued
  }

  lemma TurnKeeps(f: Files, localFree: bool, key: Key, sight: Sight)
    requires FilesOk(f) && (localFree ==> f.job.None?) && key in f.fate && f.fate[key] == Queued
    ensures var t := TakeTurn(f, localFree, key, sight);
      && FilesOk(t.files) && (t.localFree ==> t.files.job.None?)
      && key in t.files.fate && t.files.fate == f.fate[key := t.files.fate[key]]
      && PhaseOk(t.files.fate[key], t.kept, sight)
  {
    hide FilesOk;
    if sight.stale {
      DropKeeps(f, key, Dropped);
    } else if Startable(f, localFree, sight.remote) {
      LaunchKeeps(f, key, sight, localFree);
    }
  }

  lemma {:induction false} ScanKeeps(f: Files, localFree: bool, view: nat, q: seq<Request>, env: Env)
    requires FilesOk(f) && (localFree ==> f.job.None?) && Increasing(q) && AllQueued(f, view, q)
    ensures ScanOk(f, view, q, env, Scan(f, localFree, view, q, env))
    decreases |q|
  {
    if q != [] {
      hide FilesOk, TakeTurn, PhaseOk, ScanOk;
      var key := Key(view, q[0].id);
      KeysOfFirst(view, q);
      assert key in KeysOf(view, q);
      TurnKeeps(f, localFree, key, env(key));
      var t := TakeTurn(f, localFree, key, env(key));
      ScanKeeps(t.files, t.localFree, view, q[1..], env);
      ScanJoined(f, t, view, q, env, Scan(t.files, t.localFree, view, q[1..], env));
    } else {
      assert KeysOf(view, q) == {};
    }
  }

  lemma ScanJoined(f: Files, t: Turn, view: nat, q: seq<Request>, env: Env, rest: Scanned)
    requires q != [] && Increasing(q) && AllQueued(f, view, q) && ScanOk(t.files, view, q[1..], env, rest)
    requires var key := Key(view, q[0].id);
      key in t.files.fate && t.files.fate == f.fate[key := t.files.fate[key]]
        && PhaseOk(t.files.fate[key], t.kept, env(key))
    ensures ScanOk(f, view, q, env, if t.kept then rest.(kept := [q[0]] + rest.kept) else rest)
  {
    hide FilesOk, PhaseOk, AllPlaced, KeptOk, SameOutside, Increasing, AllQueued, KeysOf;
    var key := Key(view, q[0].id);
    KeysOfFirst(view, q);
    KeptJoined(q, rest.kept);
    FrameJoined(f, t.files.fate[key], view, q, rest.files.fate);
    AllPlacedJoined(t, view, q, env, rest);
  }

  lemma FrameJoined(f: Files, phase: Phase, view: nat, q: seq<Request>, after: map<Key, Phase>)
    requires q != [] && Increasing(q) && AllQueued(f, view, q)
    requires SameOutside(f.fate[Key(view, q[0].id) := phase], after, KeysOf(view, q[1..]))
    ensures SameOutside(f.fate, after, KeysOf(view, q))
  {
    hide Increasing, KeysOf;
    var key := Key(view, q[0].id);
    KeysOfFirst(view, q);
    assert key in KeysOf(view, q);
  }

  lemma AllPlacedJoined(t: Turn, view: nat, q: seq<Request>, env: Env, rest: Scanned)
    requires q != [] && Increasing(q) && KeptOk(q[1..], rest.kept)
      && AllPlaced(view, q[1..], rest.kept, env, rest.files.fate)
    requires SameOutside(t.files.fate, rest.files.fate, KeysOf(view, q[1..]))
    requires var key := Key(view, q[0].id); key in t.files.fate && PhaseOk(t.files.fate[key], t.kept, env(key))
    ensures AllPlaced(view, q, if t.kept then [q[0]] + rest.kept else rest.kept, env, rest.files.fate)
  {
    var kept := if t.kept then [q[0]] + rest.kept else rest.kept;
    KeysOfFirst(view, q);
    FirstNotLater(q, rest.kept);
    forall r | r in q ensures Placed(Key(view, r.id), r in kept, env, rest.files.fate) {
      hide PhaseOk, KeysOf, Increasing;
      if r.id == q[0].id {
        OneById(q, r, q[0]);
        assert r in kept <==> t.kept;
      } else {
        InTail(q, r);
        assert r in kept <==> r in rest.kept;
      }
    }
  }

  lemma InTail(q: seq<Request>, r: Request)
    requires q != [] && r in q && r != q[0]
    ensures r in q[1..]
  {
    assert q == [q[0]] + q[1..];
  }

  lemma FirstNotLater(q: seq<Request>, kept: seq<Request>)
    requires q != [] && Increasing(q) && forall r :: r in kept ==> r in q[1..]
    ensures q[0] !in kept
  {
    forall x | 0 <= x < |q[1..]| ensures q[1..][x] != q[0] { assert q[1..][x] == q[x + 1]; }
  }

  lemma KeptJoined(q: seq<Request>, kept: seq<Request>)
    requires q != [] && Increasing(q) && KeptOk(q[1..], kept)
    ensures KeptOk(q, kept) && KeptOk(q, [q[0]] + kept)
  {
    assert q == [q[0]] + q[1..];
    forall k | 0 <= k < |kept| ensures q[0].id < kept[k].id {
      assert kept[k] in kept;
      var x :| 0 <= x < |q[1..]| && q[1..][x] == kept[k];
      assert q[x + 1] == kept[k];
    }
  }

  lemma OneById(q: seq<Request>, a: Request, b: Request)
    requires Increasing(q) && a in q && b in q && a.id == b.id
    ensures a == b
  {
    var i :| 0 <= i < |q| && q[i] == a;
    var k :| 0 <= k < |q| && q[k] == b;
  }

  // ---- nothing waits that could have started, and nothing overtakes

  /** Everything busy stays busy for the rest of the scan. */
  lemma TurnOnlyFills(f: Files, localFree: bool, key: Key, sight: Sight, remote: Option<nat>)
    requires !Startable(f, localFree, remote)
    ensures var t := TakeTurn(f, localFree, key, sight); !Startable(t.files, t.localFree, remote)
  {
    var g := TakeTurn(f, localFree, key, sight).files;
    assert forall j :: j in f.remote ==> j in g.remote;
  }

  lemma {:induction false} ScanOnlyFills(f: Files, localFree: bool, view: nat, q: seq<Request>, env: Env,
                                         remote: Option<nat>)
    requires !Startable(f, localFree, remote)
    ensures var s := Scan(f, localFree, view, q, env); !Startable(s.files, s.localFree, remote)
    decreases |q|
  {
    if q != [] {
      hide Startable, TakeTurn;
      var key := Key(view, q[0].id);
      var t := TakeTurn(f, localFree, key, env(key));
      TurnOnlyFills(f, localFree, key, env(key), remote);
      ScanOnlyFills(t.files, t.localFree, view, q[1..], env, remote);
    }
  }

  /** Whatever is left waiting could not start: its workspace has a job, or the one local turn is taken. */
  lemma {:induction false} NothingWaitsIdly(f: Files, localFree: bool, view: nat, q: seq<Request>, env: Env)
    ensures var s := Scan(f, localFree, view, q, env);
      forall r :: r in s.kept ==>
        r in q && !env(Key(view, r.id)).stale && !Startable(s.files, s.localFree, env(Key(view, r.id)).remote)
    decreases |q|
  {
    if q != [] {
      var key := Key(view, q[0].id);
      var t := TakeTurn(f, localFree, key, env(key));
      NothingWaitsIdly(t.files, t.localFree, view, q[1..], env);
      if t.kept { ScanOnlyFills(f, localFree, view, q[1..], env, env(key).remote); }
      assert q == [q[0]] + q[1..];
    }
  }

  /** Requests for one resource start in the order they were asked for: when one is left waiting, no later
      one for the same resource has been tried. */
  lemma {:induction false} NothingOvertakes(f: Files, localFree: bool, view: nat, q: seq<Request>, env: Env, i: nat,
                                            k: nat)
    requires Increasing(q) && i < k < |q|
    requires env(Key(view, q[i].id)).remote == env(Key(view, q[k].id)).remote && !env(Key(view, q[k].id)).stale
    requires q[i] in Scan(f, localFree, view, q, env).kept
    ensures q[k] in Scan(f, localFree, view, q, env).kept
    decreases |q|
  {
    hide Startable, TryLaunch;
    var key := Key(view, q[0].id);
    var t := TakeTurn(f, localFree, key, env(key));
    NothingWaitsIdly(t.files, t.localFree, view, q[1..], env);
    FirstNotLater(q, Scan(t.files, t.localFree, view, q[1..], env).kept);
    assert q[1..][k - 1] == q[k];
    if i > 0 {
      assert q[1..][i - 1] == q[i] && q[i].id != q[0].id;
      NothingOvertakes(t.files, t.localFree, view, q[1..], env, i - 1, k - 1);
    } else {
      BusyIsKept(f, localFree, view, q[1..], env, k - 1);
    }
  }

  lemma {:induction false} BusyIsKept(f: Files, localFree: bool, view: nat, q: seq<Request>, env: Env, k: nat)
    requires k < |q| && !env(Key(view, q[k].id)).stale && !Startable(f, localFree, env(Key(view, q[k].id)).remote)
    ensures q[k] in Scan(f, localFree, view, q, env).kept
    decreases |q|
  {
    if k > 0 {
      var key := Key(view, q[0].id);
      assert q[1..][k - 1] == q[k];
      TurnOnlyFills(f, localFree, key, env(key), env(Key(view, q[k].id)).remote);
      var t := TakeTurn(f, localFree, key, env(key));
      hide Startable, TakeTurn;
      BusyIsKept(t.files, t.localFree, view, q[1..], env, k - 1);
    }
  }

  // ---------------------------------------------------------------- results of remote jobs

  /** A message from the server of a workspace. Without a report it tells of progress only. */
  datatype Message = Message(workspace: nat, op: nat, report: Option<int>)

  /** The last report about a job in the messages read so far. */
  function Reported(j: RemoteJob, inbox: seq<Message>): Option<Result> {
    if inbox == [] then j.result
    else
      var m := inbox[|inbox| - 1];
      if m.workspace == j.workspace && m.op == j.op && m.report.Some? then Some(Finished(m.report.value))
      else Reported(j, inbox[..|inbox| - 1])
  }

  /** live holds the numbers of the jobs whose connection is still the one they were sent on. */
  function Outcome(j: RemoteJob, inbox: seq<Message>, live: set<nat>): Option<Result> {
    var r := Reported(j, inbox);
    if r.None? && j.op !in live then Some(Lost) else r
  }

  function Settled(j: RemoteJob, inbox: seq<Message>, live: set<nat>): RemoteJob {
    j.(result := Outcome(j, inbox, live))
  }

  function Waiting(remote: seq<RemoteJob>, inbox: seq<Message>, live: set<nat>): seq<RemoteJob> {
    if remote == [] then []
    else
      var last := Settled(remote[|remote| - 1], inbox, live);
      Waiting(remote[..|remote| - 1], inbox, live) + if last.result.None? then [last] else []
  }

  function Done(remote: seq<RemoteJob>, inbox: seq<Message>, live: set<nat>): seq<RemoteJob> {
    if remote == [] then []
    else
      var last := Settled(remote[|remote| - 1], inbox, live);
      Done(remote[..|remote| - 1], inbox, live) + if last.result.None? then [] else [last]
  }

  function End(fate: map<Key, Phase>, ended: set<Key>): map<Key, Phase> {
    map k | k in fate :: if k in ended then Ended else fate[k]
  }

  function PollRemote(f: Files, inbox: seq<Message>, live: set<nat>): Files {
    f.(remote := Waiting(f.remote, inbox, live), fate := End(f.fate, set j | j in Done(f.remote, inbox, live) :: j.key))
  }

  function TakeFinished(f: Files, exited: bool): Files {
    if f.job.Some? && exited then f.(job := None, fate := End(f.fate, {f.job.value})) else f
  }

  /** Every job of remote stands in w, unchanged, or in d, and none in both. */
  ghost predicate Split(remote: seq<RemoteJob>, w: seq<RemoteJob>, d: seq<RemoteJob>, nextOp: nat) {
    && RemoteOk(w, nextOp)
    && RemoteKeys(remote) == RemoteKeys(w) + RemoteKeys(d) && RemoteKeys(w) !! RemoteKeys(d)
    && (forall j :: j in w ==> j in remote)
  }

  /** Each remote job either ends in this poll or goes on waiting unchanged, and none does both. */
  lemma {:induction false} EndsOrWaits(remote: seq<RemoteJob>, nextOp: nat, inbox: seq<Message>, live: set<nat>)
    requires RemoteOk(remote, nextOp)
    ensures Split(remote, Waiting(remote, inbox, live), Done(remote, inbox, live), nextOp)
  {
    if remote != [] {
      var init, last := remote[..|remote| - 1], remote[|remote| - 1];
      RemoteFewer(init, last, remote, nextOp);
      EndsOrWaits(init, nextOp, inbox, live);
      var w, d := Waiting(init, inbox, live), Done(init, inbox, live);
      hide Split, RemoteOk, RemoteKeys;
      if Settled(last, inbox, live).result.None? {
        assert Settled(last, inbox, live) == last by { NoneStays(last, inbox); }
        OneMoreWaits(init, last, remote, w, d, nextOp);
      } else {
        OneMoreEnds(init, last, Settled(last, inbox, live), remote, w, d, nextOp);
      }
    }
  }

  lemma OneMoreWaits(init: seq<RemoteJob>, last: RemoteJob, remote: seq<RemoteJob>, w: seq<RemoteJob>,
                     d: seq<RemoteJob>, nextOp: nat)
    requires remote == init + [last] && RemoteOk(remote, nextOp) && Split(init, w, d, nextOp)
    ensures Split(remote, w + [last], d + [], nextOp)
  {
    RemoteFewer(init, last, remote, nextOp);
    assert last in remote && d + [] == d;
    hide RemoteOk, RemoteKeys;
    WaitsMore(w, last, nextOp) by { assert RemoteOk(remote, nextOp); LastIsOk(remote, last, nextOp); }
    KeysMore(w, last);
  }

  lemma LastIsOk(remote: seq<RemoteJob>, j: RemoteJob, nextOp: nat)
    requires RemoteOk(remote, nextOp) && j in remote
    ensures j.op <= nextOp && j.result.None?
  {
  }

  lemma OneMoreEnds(init: seq<RemoteJob>, last: RemoteJob, ended: RemoteJob, remote: seq<RemoteJob>, w: seq<RemoteJob>,
                    d: seq<RemoteJob>, nextOp: nat)
    requires remote == init + [last] && RemoteOk(remote, nextOp) && Split(init, w, d, nextOp) && ended.key == last.key
    ensures Split(remote, w + [], d + [ended], nextOp)
  {
    RemoteFewer(init, last, remote, nextOp);
    assert w + [] == w;
    hide RemoteOk, RemoteKeys;
    KeysMore(d, ended);
  }

  /** A job still waits after a poll exactly when nothing was reported about it and its connection lives. */
  lemma {:induction false} WaitsForItsServer(remote: seq<RemoteJob>, inbox: seq<Message>, live: set<nat>)
    ensures forall j :: j in remote && Outcome(j, inbox, live).None? ==> j in Waiting(remote, inbox, live)
    ensures forall j :: j in Waiting(remote, inbox, live) ==> j in remote && Outcome(j, inbox, live).None?
  {
    if remote != [] {
      var init, last := remote[..|remote| - 1], remote[|remote| - 1];
      WaitsForItsServer(init, inbox, live);
      assert remote == init + [last];
      if Outcome(last, inbox, live).None? { NoneStays(last, inbox); }
    }
  }

  lemma {:induction false} NoneStays(j: RemoteJob, inbox: seq<Message>)
    requires Reported(j, inbox).None?
    ensures j.result.None?
  {
    if inbox != [] { NoneStays(j, inbox[..|inbox| - 1]); }
  }

  lemma WaitsMore(w: seq<RemoteJob>, j: RemoteJob, nextOp: nat)
    requires RemoteOk(w, nextOp) && j.op <= nextOp && j.result.None?
    requires forall x :: x in w ==> x.workspace != j.workspace && x.op != j.op && x.key != j.key
    ensures RemoteOk(w + [j], nextOp) && forall x :: x in w + [j] <==> x in w || x == j
  {
    assert forall i :: 0 <= i < |w| ==> w[i] in w;
  }

  lemma KeysMore(jobs: seq<RemoteJob>, j: RemoteJob)
    ensures RemoteKeys(jobs + [j]) == RemoteKeys(jobs) + {j.key}
  {
    assert forall x :: x in jobs + [j] <==> x in jobs || x == j;
  }

  lemma RemoteFewer(init: seq<RemoteJob>, last: RemoteJob, remote: seq<RemoteJob>, nextOp: nat)
    requires remote == init + [last] && RemoteOk(remote, nextOp)
    ensures RemoteOk(init, nextOp) && RemoteKeys(remote) == RemoteKeys(init) + {last.key}
      && last.key !in RemoteKeys(init)
    ensures forall j :: j in init ==> j.workspace != last.workspace && j.op != last.op && j.key != last.key
  {
    assert forall i :: 0 <= i < |init| ==> init[i] == remote[i];
    KeysMore(init, last);
    forall j | j in init ensures j.workspace != last.workspace && j.op != last.op && j.key != last.key {
      var k :| 0 <= k < |init| && init[k] == j;
      assert remote[k] == j && remote[|init|] == last;
    }
    assert forall j :: j in init ==> j in remote;
  }

  lemma RemotePollKeeps(f: Files, inbox: seq<Message>, live: set<nat>)
    requires FilesOk(f)
    ensures FilesOk(PollRemote(f, inbox, live))
  {
    EndsOrWaits(f.remote, f.nextOp, inbox, live);
    var g := PollRemote(f, inbox, live);
    var ended := set j | j in Done(f.remote, inbox, live) :: j.key;
    assert ended == RemoteKeys(Done(f.remote, inbox, live));
    assert InPhase(g.fate, Running) == InPhase(f.fate, Running) - ended;
  }

  lemma TakeFinishedKeeps(f: Files, exited: bool)
    requires FilesOk(f)
    ensures FilesOk(TakeFinished(f, exited))
  {
    if f.job.Some? && exited {
      assert InPhase(End(f.fate, {f.job.value}), Running) == InPhase(f.fate, Running) - {f.job.value};
    }
  }

  // ---------------------------------------------------------------- the whole application

  datatype State = State(views: map<nat, Requests>, files: Files, stopping: bool)

  /** What a view knows about a request when it is asked for. user: a user gesture asked. bound: the
      surface has a binding to capture. localOnly: an operation that remote surfaces do not have. */
  datatype Ask = Ask(user: bool, blocked: bool, remote: bool, localOnly: bool, bound: bool, bytes: nat, operation: int)

  datatype Admission = Ignored | QueueFull | TooLarge | Accepted(id: nat)

  function Admit(r: Requests, ask: Ask): Admission {
    if !ask.user || ask.blocked || (ask.remote && ask.localOnly) || !ask.bound then Ignored
    else if |r.queue| >= MAX_PENDING_PER_VIEW then QueueFull
    else if ask.bytes > MAX_REQUEST_BYTES then TooLarge
    else Accepted(r.counter + 1)
  }

  function Enqueue(s: State, view: nat, ask: Ask): State
    requires view in s.views
  {
    var r := s.views[view];
    var a := Admit(r, ask);
    if a.Accepted? then
      s.(views := s.views[view := Requests(r.queue + [Request(a.id, ask.operation)], a.id)],
         files := s.files.(fate := s.files.fate[Key(view, a.id) := Queued]))
    else s
  }

  function Without(q: seq<Request>, id: nat): seq<Request> {
    if q == [] then [] else Without(q[..|q| - 1], id) + if q[|q| - 1].id == id then [] else [q[|q| - 1]]
  }

  function Remove(s: State, view: nat, id: nat): State
    requires view in s.views
  {
    var r := s.views[view];
    s.(views := s.views[view := r.(queue := Without(r.queue, id))],
       files := s.files.(fate := Fell(s.files.fate, KeysOf(view, r.queue) * {Key(view, id)}, Removed)))
  }

  function Fell(fate: map<Key, Phase>, keys: set<Key>, phase: Phase): map<Key, Phase> {
    map k | k in fate :: if k in keys then phase else fate[k]
  }

  function Close(s: State, view: nat): State
    requires view in s.views
  {
    s.(views := s.views - {view},
      files := s.files.(fate := Fell(s.files.fate, KeysOf(view, s.views[view].queue), Discarded)))
  }

  datatype Progress = Progress(views: map<nat, Requests>, files: Files, localFree: bool)

  function StartView(p: Progress, view: nat, env: Env): Progress {
    if view !in p.views then p
    else
      var s := Scan(p.files, p.localFree, view, p.views[view].queue, env);
      Progress(p.views[view := p.views[view].(queue := s.kept)], s.files, s.localFree)
  }

  /** The windows that show an engine, in the order they are looked through. */
  function StartAll(p: Progress, order: seq<nat>, env: Env): Progress {
    if order == [] then p else StartView(StartAll(p, order[..|order| - 1], env), order[|order| - 1], env)
  }

  function Poll(s: State, exited: bool, inbox: seq<Message>, live: set<nat>, order: seq<nat>, env: Env): State {
    var f := PollRemote(TakeFinished(s.files, exited), inbox, live);
    if s.stopping then s.(files := f)
    else
      var p := StartAll(Progress(s.views, f, f.job.None?), order, env);
      State(p.views, p.files, false)
  }

  ghost predicate QueueOk(f: Files, view: nat, r: Requests) {
    && Increasing(r.queue) && |r.queue| <= MAX_PENDING_PER_VIEW
    && (forall q :: q in r.queue ==> q.id <= r.counter)
    && AllQueued(f, view, r.queue)
  }

  /** A request is queued exactly when it stands in the queue of its view. */
  ghost predicate ViewsOk(views: map<nat, Requests>, f: Files) {
    && (forall v :: v in views ==> QueueOk(f, v, views[v]))
    && (forall k :: k in f.fate && f.fate[k] == Queued ==> k.view in views && k in KeysOf(k.view, views[k.view].queue))
    && (forall k :: k in f.fate && k.view in views ==> k.id <= views[k.view].counter)
  }

  ghost predicate Inv(s: State) { FilesOk(s.files) && ViewsOk(s.views, s.files) }

  /** Running follows queued, and every other phase is the last. */
  predicate Later(a: Phase, b: Phase) { a == b || a == Queued || (a == Running && b == Ended) }

  ghost predicate Advances(a: map<Key, Phase>, b: map<Key, Phase>) {
    forall k :: k in a ==> k in b && Later(a[k], b[k])
  }

  datatype Step =
    | Opens(view: nat)
    | Closes(view: nat)
    | Asks(view: nat, ask: Ask)
    | Removes(view: nat, id: nat)
    | Polls(exited: bool, inbox: seq<Message>, live: set<nat>, order: seq<nat>, env: Env)
    | BeginShutdown
    | PollShutdown(exited: bool)

  ghost predicate StepOk(s: State, step: Step, t: State) {
    match step
    case Opens(v) => v !in s.views && (forall k :: k in s.files.fate ==> k.view != v)
      && t == s.(views := s.views[v := Requests([], 0)])
    case Closes(v) => v in s.views && t == Close(s, v)
    case Asks(v, ask) => v in s.views && t == Enqueue(s, v, ask)
    case Removes(v, id) => v in s.views && t == Remove(s, v, id)
    case Polls(exited, inbox, live, order, env) => t == Poll(s, exited, inbox, live, order, env)
    case BeginShutdown => t == s.(stopping := true)
    case PollShutdown(exited) => t == s.(stopping := true, files := TakeFinished(s.files, exited))
  }

  const START := State(map[], Files(None, [], 0, map[]), false)

  ghost predicate RunOk(states: seq<State>, steps: seq<Step>) {
    |states| == |steps| + 1 && states[0] == START
      && forall k :: 0 <= k < |steps| ==> StepOk(states[k], steps[k], states[k + 1])
  }

  // ---- each step

  /** A change of phases that leaves the queues alone. */
  lemma EndingKeeps(views: map<nat, Requests>, f: Files, g: Files, ended: set<Key>)
    requires ViewsOk(views, f) && ended <= InPhase(f.fate, Running) && g.fate == End(f.fate, ended)
    ensures ViewsOk(views, g) && Advances(f.fate, g.fate)
  {
    forall v | v in views ensures QueueOk(g, v, views[v]) {
      assert QueueOk(f, v, views[v]);
    }
  }

  lemma CollectKeeps(s: State, exited: bool, inbox: seq<Message>, live: set<nat>)
    requires Inv(s)
    ensures var f := PollRemote(TakeFinished(s.files, exited), inbox, live);
      FilesOk(f) && ViewsOk(s.views, f) && Advances(s.files.fate, f.fate)
  {
    hide ViewsOk;
    var f := TakeFinished(s.files, exited);
    TakeFinishedKeeps(s.files, exited);
    TakingKeeps(s, exited);
    RemotePollKeeps(f, inbox, live);
    EndsOrWaits(f.remote, f.nextOp, inbox, live);
    var ended := set j | j in Done(f.remote, inbox, live) :: j.key;
    assert ended == RemoteKeys(Done(f.remote, inbox, live)) <= RunningKeys(f);
    EndingKeeps(s.views, f, PollRemote(f, inbox, live), ended);
  }

  lemma TakingKeeps(s: State, exited: bool)
    requires Inv(s)
    ensures var f := TakeFinished(s.files, exited); FilesOk(f) && ViewsOk(s.views, f) && Advances(s.files.fate, f.fate)
  {
    hide ViewsOk;
    TakeFinishedKeeps(s.files, exited);
    if s.files.job.Some? && exited {
      assert s.files.job.value in RunningKeys(s.files);
      EndingKeeps(s.views, s.files, TakeFinished(s.files, exited), {s.files.job.value});
    }
  }

  ghost predicate ProgressOk(p: Progress) {
    FilesOk(p.files) && ViewsOk(p.views, p.files) && (p.localFree ==> p.files.job.None?)
  }

  lemma StartViewKeeps(p: Progress, view: nat, env: Env)
    requires ProgressOk(p)
    ensures var q := StartView(p, view, env);
      ProgressOk(q) && Advances(p.files.fate, q.files.fate) && q.views.Keys == p.views.Keys
  {
    if view in p.views {
      var q0 := p.views[view].queue;
      assert QueueOk(p.files, view, p.views[view]);
      ScanKeeps(p.files, p.localFree, view, q0, env);
      var s := Scan(p.files, p.localFree, view, q0, env);
      var q := StartView(p, view, env);
      QueuesAfterScan(p, view, env, s, q.views);
      PhasesAfterScan(p, view, env, s, q.views);
    }
  }

  lemma QueuesAfterScan(p: Progress, view: nat, env: Env, s: Scanned, views: map<nat, Requests>)
    requires ProgressOk(p) && view in p.views && ScanOk(p.files, view, p.views[view].queue, env, s)
    requires views == p.views[view := p.views[view].(queue := s.kept)]
    ensures forall v :: v in views ==> QueueOk(s.files, v, views[v])
  {
    hide FilesOk, AllPlaced, SameOutside, KeptOk, QueueOk;
    ScannedQueueOk(p, view, env, s);
    forall v | v in views && v != view ensures QueueOk(s.files, v, views[v]) {
      OtherQueueOk(p, view, p.views[view].queue, s, v);
    }
  }

  lemma PhasesAfterScan(p: Progress, view: nat, env: Env, s: Scanned, views: map<nat, Requests>)
    requires ProgressOk(p) && view in p.views && ScanOk(p.files, view, p.views[view].queue, env, s)
    requires views == p.views[view := p.views[view].(queue := s.kept)]
    ensures Advances(p.files.fate, s.files.fate)
    ensures forall k :: k in s.files.fate && s.files.fate[k] == Queued ==>
      k.view in views && k in KeysOf(k.view, views[k.view].queue)
    ensures forall k :: k in s.files.fate && k.view in views ==> k.id <= views[k.view].counter
  {
    FrameKeys(p.files.fate, s.files.fate, KeysOf(view, p.views[view].queue));
    hide FilesOk, AllPlaced, SameOutside, KeptOk, QueueOk, KeysOf;
    forall k | k in p.files.fate ensures k in s.files.fate && Later(p.files.fate[k], s.files.fate[k]) {
      PhaseAfterScan(p, view, env, s, k);
    }
    forall k | k in s.files.fate && s.files.fate[k] == Queued
      ensures k.view in views && k in KeysOf(k.view, views[k.view].queue) {
      PhaseAfterScan(p, view, env, s, k);
    }
  }

  lemma FrameKeys(before: map<Key, Phase>, after: map<Key, Phase>, keys: set<Key>)
    requires SameOutside(before, after, keys)
    ensures after.Keys == before.Keys
  {
  }

  lemma ScannedQueueOk(p: Progress, view: nat, env: Env, s: Scanned)
    requires ProgressOk(p) && view in p.views && ScanOk(p.files, view, p.views[view].queue, env, s)
    ensures QueueOk(s.files, view, p.views[view].(queue := s.kept))
  {
    hide FilesOk;
    assert QueueOk(p.files, view, p.views[view]);
    forall r | r in s.kept ensures Key(view, r.id) in s.files.fate && s.files.fate[Key(view, r.id)] == Queued {
      assert Placed(Key(view, r.id), r in s.kept, env, s.files.fate);
    }
  }

  lemma OtherQueueOk(p: Progress, view: nat, q0: seq<Request>, s: Scanned, v: nat)
    requires ProgressOk(p) && v in p.views && v != view && SameOutside(p.files.fate, s.files.fate, KeysOf(view, q0))
    ensures QueueOk(s.files, v, p.views[v])
  {
    assert QueueOk(p.files, v, p.views[v]);
    forall k | k in KeysOf(v, p.views[v].queue) ensures k in s.files.fate && s.files.fate[k] == Queued {
      assert k !in KeysOf(view, q0);
    }
  }

  lemma PhaseAfterScan(p: Progress, view: nat, env: Env, s: Scanned, k: Key)
    requires ProgressOk(p) && view in p.views && ScanOk(p.files, view, p.views[view].queue, env, s) && k in p.files.fate
    ensures k in s.files.fate && Later(p.files.fate[k], s.files.fate[k])
    ensures s.files.fate[k] == Queued ==>
      k.view in p.views && k in KeysOf(k.view, if k.view == view then s.kept else p.views[k.view].queue)
  {
    hide FilesOk;
    var q0 := p.views[view].queue;
    assert QueueOk(p.files, view, p.views[view]);
    if k in KeysOf(view, q0) {
      var r :| r in q0 && Key(view, r.id) == k;
      assert Placed(Key(view, r.id), r in s.kept, env, s.files.fate);
    }
  }

  lemma {:induction false} StartAllKeeps(p: Progress, order: seq<nat>, env: Env)
    requires ProgressOk(p)
    ensures var q := StartAll(p, order, env); ProgressOk(q) && Advances(p.files.fate, q.files.fate)
  {
    if order != [] {
      hide ProgressOk, StartView;
      StartAllKeeps(p, order[..|order| - 1], env);
      StartViewKeeps(StartAll(p, order[..|order| - 1], env), order[|order| - 1], env);
    }
  }

  lemma PollKeeps(s: State, exited: bool, inbox: seq<Message>, live: set<nat>, order: seq<nat>, env: Env)
    requires Inv(s)
    ensures var t := Poll(s, exited, inbox, live, order, env); Inv(t) && Advances(s.files.fate, t.files.fate)
  {
    hide FilesOk, ViewsOk;
    CollectKeeps(s, exited, inbox, live);
    if !s.stopping {
      var f := PollRemote(TakeFinished(s.files, exited), inbox, live);
      StartAllKeeps(Progress(s.views, f, f.job.None?), order, env);
    }
  }

  lemma EnqueueKeeps(s: State, view: nat, ask: Ask)
    requires Inv(s) && view in s.views
    ensures var t := Enqueue(s, view, ask); Inv(t) && Advances(s.files.fate, t.files.fate)
  {
    var r := s.views[view];
    var a := Admit(r, ask);
    if a.Accepted? {
      var t, key := Enqueue(s, view, ask), Key(view, a.id);
      assert QueueOk(s.files, view, r);
      assert key !in s.files.fate;
      assert InPhase(t.files.fate, Running) == InPhase(s.files.fate, Running);
      var q := t.views[view].queue;
      assert forall x :: x in q <==> x in r.queue || x == Request(a.id, ask.operation);
      assert KeysOf(view, q) == KeysOf(view, r.queue) + {key};
      forall v | v in t.views ensures QueueOk(t.files, v, t.views[v]) {
        assert QueueOk(s.files, v, s.views[v]);
        if v == view { AppendIncreasing(r, Request(a.id, ask.operation)); }
      }
    }
  }

  lemma AppendIncreasing(r: Requests, x: Request)
    requires Increasing(r.queue) && x.id == r.counter + 1 && forall q :: q in r.queue ==> q.id <= r.counter
    ensures Increasing(r.queue + [x])
  {
    assert forall i :: 0 <= i < |r.queue| ==> r.queue[i] in r.queue;
  }

  ghost predicate IsWithout(q: seq<Request>, id: nat, w: seq<Request>) {
    Increasing(w) && |w| <= |q| && forall r :: r in w <==> r in q && r.id != id
  }

  lemma {:induction false} WithoutAre(q: seq<Request>, id: nat)
    requires Increasing(q)
    ensures IsWithout(q, id, Without(q, id))
  {
    if q != [] {
      var init, last := q[..|q| - 1], q[|q| - 1];
      assert q == init + [last];
      LastIsLargest(init, last, q);
      hide Increasing, IsWithout;
      WithoutAre(init, id);
      WithoutMore(init, last, id, Without(init, id));
    }
  }

  lemma WithoutMore(init: seq<Request>, last: Request, id: nat, w: seq<Request>)
    requires IsWithout(init, id, w) && forall r :: r in init ==> r.id < last.id
    ensures IsWithout(init + [last], id, w + if last.id == id then [] else [last])
  {
    hide Increasing;
    LargestLast(w, last);
    assert forall r :: r in w + [last] <==> r in w || r == last;
    assert forall r :: r in init + [last] <==> r in init || r == last;
    assert w + [] == w;
  }

  lemma LastIsLargest(init: seq<Request>, last: Request, q: seq<Request>)
    requires q == init + [last] && Increasing(q)
    ensures Increasing(init) && forall r :: r in init ==> r.id < last.id
  {
    assert forall i :: 0 <= i < |init| ==> init[i] == q[i];
    assert q[|init|] == last;
  }

  lemma LargestLast(w: seq<Request>, last: Request)
    requires Increasing(w)
    ensures (forall r :: r in w ==> r.id < last.id) ==> Increasing(w + [last])
  {
    assert forall i :: 0 <= i < |w| ==> w[i] in w;
  }

  lemma RemoveKeeps(s: State, view: nat, id: nat)
    requires Inv(s) && view in s.views
    ensures var t := Remove(s, view, id); Inv(t) && Advances(s.files.fate, t.files.fate)
  {
    var r := s.views[view];
    var t := Remove(s, view, id);
    assert QueueOk(s.files, view, r);
    WithoutAre(r.queue, id);
    assert KeysOf(view, t.views[view].queue) == KeysOf(view, r.queue) - {Key(view, id)};
    assert InPhase(t.files.fate, Running) == InPhase(s.files.fate, Running);
    forall v | v in t.views ensures QueueOk(t.files, v, t.views[v]) {
      assert QueueOk(s.files, v, s.views[v]);
    }
  }

  lemma CloseKeeps(s: State, view: nat)
    requires Inv(s) && view in s.views
    ensures var t := Close(s, view); Inv(t) && Advances(s.files.fate, t.files.fate)
  {
    var t := Close(s, view);
    assert QueueOk(s.files, view, s.views[view]);
    assert InPhase(t.files.fate, Running) == InPhase(s.files.fate, Running);
    forall v | v in t.views ensures QueueOk(t.files, v, t.views[v]) {
      assert QueueOk(s.files, v, s.views[v]);
    }
  }

  lemma StepKeeps(s: State, step: Step, t: State)
    requires Inv(s) && StepOk(s, step, t)
    ensures Inv(t) && Advances(s.files.fate, t.files.fate)
  {
    match step
    case Opens(v) => assert forall w :: w in s.views ==> QueueOk(s.files, w, s.views[w]);
    case Closes(v) => CloseKeeps(s, v);
    case Asks(v, ask) => EnqueueKeeps(s, v, ask);
    case Removes(v, id) => RemoveKeeps(s, v, id);
    case Polls(exited, inbox, live, order, env) => PollKeeps(s, exited, inbox, live, order, env);
    case BeginShutdown =>
    case PollShutdown(exited) => TakingKeeps(s, exited);
  }

  lemma {:induction false} EveryRunIsOk(states: seq<State>, steps: seq<Step>, i: nat, k: nat)
    requires RunOk(states, steps) && i <= k < |states|
    ensures Inv(states[k]) && Advances(states[i].files.fate, states[k].files.fate)
  {
    if i < k {
      EveryRunIsOk(states, steps, i, k - 1);
      hide StepOk, Inv;
      StepKeeps(states[k - 1], steps[k - 1], states[k]);
    } else if k > 0 {
      EveryRunIsOk(states, steps, k - 1, k - 1);
      StepKeeps(states[k - 1], steps[k - 1], states[k]);
    }
  }

  ghost predicate NoneIdle(p: Progress, view: nat, env: Env) {
    view in p.views ==> forall r :: r in p.views[view].queue ==>
      !env(Key(view, r.id)).stale && !Startable(p.files, p.localFree, env(Key(view, r.id)).remote)
  }

  lemma StillNoneIdle(p: Progress, view: nat, env: Env, v: nat)
    requires NoneIdle(p, v, env) && v != view
    ensures NoneIdle(StartView(p, view, env), v, env)
  {
    var q := StartView(p, view, env);
    if v in p.views && view in p.views {
      forall r | r in q.views[v].queue ensures !Startable(q.files, q.localFree, env(Key(v, r.id)).remote) {
        ScanOnlyFills(p.files, p.localFree, view, p.views[view].queue, env, env(Key(v, r.id)).remote);
      }
    }
  }

  /** Over all windows: when a poll is done, no request waits whose turn could still be taken. */
  lemma {:induction false} PollLeavesNoneIdle(p: Progress, order: seq<nat>, env: Env, v: nat)
    requires v in order && forall i, k :: 0 <= i < k < |order| ==> order[i] != order[k]
    ensures NoneIdle(StartAll(p, order, env), v, env)
  {
    var init, last := order[..|order| - 1], order[|order| - 1];
    var q := StartAll(p, init, env);
    assert order == init + [last];
    if v == last {
      if v in q.views { NothingWaitsIdly(q.files, q.localFree, v, q.views[v].queue, env); }
    } else {
      PollLeavesNoneIdle(p, init, env, v);
      StillNoneIdle(q, last, env, v);
    }
  }

  // ---- order over whole runs

  /** An attempt to start it has been made. */
  predicate Tried(phase: Phase) { phase in {Running, Ended, NotStarted} }

  /** While a waits, b has not been tried. */
  ghost predicate InTurn(fate: map<Key, Phase>, a: Key, b: Key) {
    a in fate && b in fate && Tried(fate[b]) ==> fate[a] != Queued
  }

  /** In this poll both ask for the same resource. */
  ghost predicate SameResource(env: Env, a: Key, b: Key) { env(a).remote == env(b).remote }

  /** A change that tries nothing new keeps the order. */
  lemma NothingTried(before: map<Key, Phase>, after: map<Key, Phase>, a: Key, b: Key)
    requires InTurn(before, a, b) && Advances(before, after)
    requires a in after && b in after && Tried(after[b]) ==> a in before && b in before && Tried(before[b])
    ensures InTurn(after, a, b)
  {
    if a in after && b in after && Tried(after[b]) { assert Later(before[a], after[a]); }
  }

  lemma StillQueued(views: map<nat, Requests>, f: Files, g: Files, k: Key)
    requires ViewsOk(views, f) && ViewsOk(views, g) && k in f.fate
    ensures f.fate[k] == Queued ==> k in g.fate && g.fate[k] == Queued
  {
    if f.fate[k] == Queued { assert QueueOk(g, k.view, views[k.view]); }
  }

  lemma CollectInTurn(s: State, f: Files, a: Key, b: Key)
    requires Inv(s) && FilesOk(f) && ViewsOk(s.views, f) && Advances(s.files.fate, f.fate)
      && f.fate.Keys == s.files.fate.Keys
    requires InTurn(s.files.fate, a, b)
    ensures InTurn(f.fate, a, b)
  {
    if a in f.fate && b in f.fate && Tried(f.fate[b]) {
      assert Later(s.files.fate[b], f.fate[b]);
      StillQueued(s.views, s.files, f, b);
      NothingTried(s.files.fate, f.fate, a, b);
    }
  }

  lemma StartViewInTurn(p: Progress, view: nat, env: Env, a: Key, b: Key)
    requires ProgressOk(p) && InTurn(p.files.fate, a, b) && a.view == b.view && a.id < b.id && SameResource(env, a, b)
    ensures InTurn(StartView(p, view, env).files.fate, a, b)
  {
    if view in p.views {
      var q0 := p.views[view].queue;
      assert QueueOk(p.files, view, p.views[view]);
      ScanKeeps(p.files, p.localFree, view, q0, env);
      var s := Scan(p.files, p.localFree, view, q0, env);
      FrameKeys(p.files.fate, s.files.fate, KeysOf(view, q0));
      hide FilesOk, Tried;
      if a in s.files.fate && b in s.files.fate && Tried(s.files.fate[b]) && s.files.fate[a] == Queued {
        PhaseAfterScan(p, view, env, s, a);
        PhaseAfterScan(p, view, env, s, b);
        WaitedBefore(p, s, a, b);
        ScanInTurn(p, view, env, s, a, b);
      }
    }
  }

  lemma WaitedBefore(p: Progress, s: Scanned, a: Key, b: Key)
    requires a in p.files.fate && a in s.files.fate && Later(p.files.fate[a], s.files.fate[a])
      && s.files.fate[a] == Queued
    requires b in p.files.fate && b in s.files.fate && Later(p.files.fate[b], s.files.fate[b]) && Tried(s.files.fate[b])
    requires InTurn(p.files.fate, a, b)
    ensures p.files.fate[a] == Queued && p.files.fate[b] == Queued
  {}

  lemma ScanInTurn(p: Progress, view: nat, env: Env, s: Scanned, a: Key, b: Key)
    requires ProgressOk(p) && view in p.views && s == Scan(p.files, p.localFree, view, p.views[view].queue, env)
    requires ScanOk(p.files, view, p.views[view].queue, env, s)
    requires a.view == b.view && a.id < b.id && SameResource(env, a, b)
    requires a in p.files.fate && b in p.files.fate && p.files.fate[a] == Queued && p.files.fate[b] == Queued
    requires a in s.files.fate && s.files.fate[a] == Queued
    ensures b in s.files.fate && !Tried(s.files.fate[b])
  {
    hide ProgressOk, ScanOk, SameOutside;
    var q := p.views[view].queue;
    QueueStands(p, view);
    ScanStands(p, view, env, s);
    if b.view == view {
      hide KeysOf, Increasing;
      var x := FindKey(p, view, a);
      var y := FindKey(p, view, b);
      KeptIsQueued(view, q, s, env, x);
      KeptIsQueued(view, q, s, env, y);
      if !env(b).stale { NothingOvertakes(p.files, p.localFree, view, q, env, x, y) by { InIdOrder(q, x, y); } }
    } else {
      StaysOutside(p, view, s, b);
    }
  }

  lemma QueueStands(p: Progress, view: nat)
    requires ProgressOk(p) && view in p.views
    ensures Increasing(p.views[view].queue)
  {
    assert QueueOk(p.files, view, p.views[view]);
  }

  lemma ScanStands(p: Progress, view: nat, env: Env, s: Scanned)
    requires view in p.views && ScanOk(p.files, view, p.views[view].queue, env, s)
    ensures AllPlaced(view, p.views[view].queue, s.kept, env, s.files.fate)
    ensures SameOutside(p.files.fate, s.files.fate, KeysOf(view, p.views[view].queue))
  {
    hide FilesOk;
  }

  lemma FindKey(p: Progress, view: nat, k: Key) returns (x: nat)
    requires ProgressOk(p) && view in p.views && k in p.files.fate && p.files.fate[k] == Queued && k.view == view
    ensures x < |p.views[view].queue| && Key(view, p.views[view].queue[x].id) == k
  {
    hide FilesOk, QueueOk;
    var q := p.views[view].queue;
    assert k in KeysOf(view, q);
    x := FindId(q, k.id);
  }

  lemma KeptIsQueued(view: nat, q: seq<Request>, s: Scanned, env: Env, x: nat)
    requires x < |q| && AllPlaced(view, q, s.kept, env, s.files.fate)
    ensures Key(view, q[x].id) in s.files.fate && (s.files.fate[Key(view, q[x].id)] == Queued <==> q[x] in s.kept)
    ensures env(Key(view, q[x].id)).stale ==> s.files.fate[Key(view, q[x].id)] == Dropped
  {
    assert q[x] in q;
    assert Placed(Key(view, q[x].id), q[x] in s.kept, env, s.files.fate);
  }

  lemma InIdOrder(q: seq<Request>, x: nat, y: nat)
    requires Increasing(q) && x < |q| && y < |q| && q[x].id < q[y].id
    ensures x < y
  {}

  lemma StaysOutside(p: Progress, view: nat, s: Scanned, k: Key)
    requires view in p.views && SameOutside(p.files.fate, s.files.fate, KeysOf(view, p.views[view].queue))
    requires k.view != view && k in p.files.fate
    ensures k in s.files.fate && s.files.fate[k] == p.files.fate[k]
  {
    assert k !in KeysOf(view, p.views[view].queue);
  }

  ghost function FindId(q: seq<Request>, id: nat): (k: nat)
    requires exists r :: r in q && r.id == id
    ensures k < |q| && q[k].id == id
  {
    var r :| r in q && r.id == id;
    var k: nat :| k < |q| && q[k] == r;
    k
  }

  lemma {:induction false} StartAllInTurn(p: Progress, order: seq<nat>, env: Env, a: Key, b: Key)
    requires ProgressOk(p) && InTurn(p.files.fate, a, b) && a.view == b.view && a.id < b.id && SameResource(env, a, b)
    ensures InTurn(StartAll(p, order, env).files.fate, a, b)
  {
    if order != [] {
      hide ProgressOk, StartView, InTurn, SameResource;
      var init := order[..|order| - 1];
      StartAllInTurn(p, init, env, a, b);
      StartAllKeeps(p, init, env);
      StartViewInTurn(StartAll(p, init, env), order[|order| - 1], env, a, b);
    }
  }

  lemma PollInTurn(s: State, exited: bool, inbox: seq<Message>, live: set<nat>, order: seq<nat>, env: Env, a: Key,
                   b: Key)
    requires Inv(s) && InTurn(s.files.fate, a, b) && a.view == b.view && a.id < b.id && SameResource(env, a, b)
    ensures InTurn(Poll(s, exited, inbox, live, order, env).files.fate, a, b)
  {
    hide FilesOk, ViewsOk, InTurn, SameResource;
    CollectKeeps(s, exited, inbox, live);
    var f := PollRemote(TakeFinished(s.files, exited), inbox, live);
    CollectInTurn(s, f, a, b);
    if !s.stopping { StartAllInTurn(Progress(s.views, f, f.job.None?), order, env, a, b); }
  }

  lemma StepInTurn(s: State, step: Step, t: State, a: Key, b: Key)
    requires Inv(s) && StepOk(s, step, t) && InTurn(s.files.fate, a, b) && a.view == b.view && a.id < b.id
    requires step.Polls? ==> SameResource(step.env, a, b)
    ensures InTurn(t.files.fate, a, b)
  {
    hide FilesOk;
    match step
    case Polls(exited, inbox, live, order, env) => PollInTurn(s, exited, inbox, live, order, env, a, b);
    case PollShutdown(exited) =>
      TakingKeeps(s, exited);
      CollectInTurn(s, t.files, a, b);
    case Asks(v, ask) => EnqueueInTurn(s, v, ask, a, b);
    case _ =>
      StepKeeps(s, step, t);
      NothingTried(s.files.fate, t.files.fate, a, b);
  }

  lemma EnqueueInTurn(s: State, view: nat, ask: Ask, a: Key, b: Key)
    requires Inv(s) && view in s.views && InTurn(s.files.fate, a, b) && a.view == b.view && a.id < b.id
    ensures InTurn(Enqueue(s, view, ask).files.fate, a, b)
  {
    hide FilesOk;
    assert a !in s.files.fate && b in s.files.fate && a.view == view ==> a.id <= s.views[view].counter;
  }

  /** In every run: of two requests of a view that ask for the same resource at every poll, the later one
      is not tried while the earlier one waits. */
  lemma {:induction false} NothingOvertakesInRuns(states: seq<State>, steps: seq<Step>, n: nat, a: Key, b: Key)
    requires RunOk(states, steps) && n < |states| && a.view == b.view && a.id < b.id
    requires forall k :: 0 <= k < n && steps[k].Polls? ==> SameResource(steps[k].env, a, b)
    ensures InTurn(states[n].files.fate, a, b)
  {
    if n > 0 {
      hide StepOk, Inv, InTurn, SameResource;
      NothingOvertakesInRuns(states, steps, n - 1, a, b);
      EveryRunIsOk(states, steps, n - 1, n - 1);
      StepInTurn(states[n - 1], steps[n - 1], states[n], a, b);
    }
  }

  // ---- the one local turn of a poll

  predicate WantsLocal(sight: Sight) { !sight.stale && sight.remote.None? }

  /** The local requests of a queue, in order. */
  function LocalKeys(view: nat, q: seq<Request>, env: Env): seq<Key>
    decreases |q|
  {
    if q == [] then []
    else (if WantsLocal(env(Key(view, q[0].id))) then [Key(view, q[0].id)] else []) + LocalKeys(view, q[1..], env)
  }

  /** Those of all windows, in the order the windows are looked through. */
  function AllLocalKeys(views: map<nat, Requests>, order: seq<nat>, env: Env): seq<Key> {
    if order == [] then []
    else
      var v := order[|order| - 1];
      AllLocalKeys(views, order[..|order| - 1], env) + if v in views then LocalKeys(v, views[v].queue, env) else []
  }

  function AfterTurn(free: bool, waiting: seq<Key>): seq<Key> {
    if free && waiting != [] then waiting[1..] else waiting
  }

  /** The local job after a poll in which the requests waiting stood in this order. */
  function JobAfter(job: Option<Key>, free: bool, waiting: seq<Key>, env: Env): Option<Key> {
    if free && waiting != [] && env(waiting[0]).launch == Launched then Some(waiting[0]) else job
  }

  /** What a scan from f leaves behind, when these local requests waited in the queue. */
  ghost predicate LocalScanned(f: Files, localFree: bool, waiting: seq<Key>, view: nat, env: Env, s: Scanned) {
    && s.localFree == (localFree && waiting == [])
    && s.files.job == JobAfter(f.job, localFree, waiting, env)
    && LocalKeys(view, s.kept, env) == AfterTurn(localFree, waiting)
  }

  /** The first local request takes the turn, whether or not it starts; all the others stay. */
  lemma {:induction false} ScanLocal(f: Files, localFree: bool, view: nat, q: seq<Request>, env: Env)
    ensures LocalScanned(f, localFree, LocalKeys(view, q, env), view, env, Scan(f, localFree, view, q, env))
    decreases |q|
  {
    if q != [] {
      hide TakeTurn, LocalKeys, LocalScanned;
      var key := Key(view, q[0].id);
      var t := TakeTurn(f, localFree, key, env(key));
      ScanLocal(t.files, t.localFree, view, q[1..], env);
      TurnLocal(f, localFree, view, q, env, t, Scan(t.files, t.localFree, view, q[1..], env));
    }
  }

  lemma TurnLocal(f: Files, localFree: bool, view: nat, q: seq<Request>, env: Env, t: Turn, rest: Scanned)
    requires q != [] && t == TakeTurn(f, localFree, Key(view, q[0].id), env(Key(view, q[0].id)))
    requires LocalScanned(t.files, t.localFree, LocalKeys(view, q[1..], env), view, env, rest)
    ensures LocalScanned(f, localFree, LocalKeys(view, q, env), view, env,
      if t.kept then rest.(kept := [q[0]] + rest.kept) else rest)
  {
    var key, l := Key(view, q[0].id), LocalKeys(view, q[1..], env);
    KeysBehind(view, q[0], rest.kept, env);
    TurnOfLocal(f, localFree, key, env(key));
    hide TakeTurn, LocalKeys;
    assert LocalKeys(view, q, env) == (if WantsLocal(env(key)) then [key] else []) + l by {
      KeysBehind(view, q[0], q[1..], env);
      assert [q[0]] + q[1..] == q;
    }
    if WantsLocal(env(key)) { assert ([key] + l)[1..] == l; } else { assert [] + l == l; }
  }

  lemma KeysBehind(view: nat, r: Request, q: seq<Request>, env: Env)
    ensures LocalKeys(view, [r] + q, env)
      == (if WantsLocal(env(Key(view, r.id))) then [Key(view, r.id)] else []) + LocalKeys(view, q, env)
  {
    assert ([r] + q)[1..] == q;
  }

  /** What one turn does to the local job and to the turn. */
  lemma TurnOfLocal(f: Files, localFree: bool, key: Key, sight: Sight)
    ensures var t := TakeTurn(f, localFree, key, sight);
      && t.localFree == (localFree && !WantsLocal(sight))
      && t.files.job == (if localFree && WantsLocal(sight) && sight.launch == Launched then Some(key) else f.job)
      && (WantsLocal(sight) ==> t.kept == !localFree)
  {
    hide RemoteBusy;
  }

  ghost predicate NoRepeats(order: seq<nat>) { forall i, k :: 0 <= i < k < |order| ==> order[i] != order[k] }

  lemma {:induction false} OtherViewsStay(p: Progress, order: seq<nat>, env: Env, v: nat)
    requires v !in order
    ensures var q := StartAll(p, order, env);
      (v in q.views <==> v in p.views) && (v in p.views ==> q.views[v] == p.views[v])
  {
    if order != [] { OtherViewsStay(p, order[..|order| - 1], env, v); }
  }

  lemma {:induction false} LocalKeysFrame(views: map<nat, Requests>, order: seq<nat>, env: Env, v: nat, r: Requests)
    requires v !in order && v in views
    ensures AllLocalKeys(views[v := r], order, env) == AllLocalKeys(views, order, env)
  {
    if order != [] { LocalKeysFrame(views, order[..|order| - 1], env, v, r); }
  }

  lemma {:induction false} StartAllLocal(p: Progress, order: seq<nat>, env: Env)
    requires NoRepeats(order)
    ensures var q, l := StartAll(p, order, env), AllLocalKeys(p.views, order, env);
      && q.localFree == (p.localFree && l == [])
      && q.files.job == JobAfter(p.files.job, p.localFree, l, env)
      && AllLocalKeys(q.views, order, env) == AfterTurn(p.localFree, l)
  {
    if order != [] {
      hide Scan, LocalKeys;
      var init, v := order[..|order| - 1], order[|order| - 1];
      StartAllLocal(p, init, env);
      OtherViewsStay(p, init, env, v);
      var q := StartAll(p, init, env);
      if v in q.views {
        ScanLocal(q.files, q.localFree, v, q.views[v].queue, env);
        LocalKeysFrame(q.views, init, env, v, StartView(q, v, env).views[v]);
        var l, m := AllLocalKeys(p.views, init, env), LocalKeys(v, p.views[v].queue, env);
        if l == [] { assert l + m == m; } else { assert (l + m)[1..] == l[1..] + m; }
      }
    }
  }

  ghost predicate LocalWaits(views: map<nat, Requests>, v: nat, env: Env) {
    v in views && exists r :: r in views[v].queue && WantsLocal(env(Key(v, r.id)))
  }

  lemma {:induction false} LocalKeysExact(view: nat, q: seq<Request>, env: Env)
    ensures LocalKeys(view, q, env) == [] <==> forall r :: r in q ==> !WantsLocal(env(Key(view, r.id)))
    decreases |q|
  {
    if q != [] {
      LocalKeysExact(view, q[1..], env);
      assert q == [q[0]] + q[1..];
    }
  }

  lemma {:induction false} AllLocalKeysExact(views: map<nat, Requests>, order: seq<nat>, env: Env)
    ensures AllLocalKeys(views, order, env) == [] <==> forall v :: v in order ==> !LocalWaits(views, v, env)
  {
    if order != [] {
      var v := order[|order| - 1];
      var init := order[..|order| - 1];
      AllLocalKeysExact(views, init, env);
      assert forall x :: x in order <==> x in init || x == v by { assert order == init + [v]; }
      if v in views { LocalKeysExact(v, views[v].queue, env); }
      hide LocalKeys;
      assert LocalWaits(views, v, env) <==> v in views && LocalKeys(v, views[v].queue, env) != [];
    }
  }

  /** After the starts of a poll no local job runs and yet a local request waits exactly when none ran
      before, and the first of at least two local requests could not be started. */
  lemma IdleExactlyAfterFailure(p: Progress, order: seq<nat>, env: Env)
    requires NoRepeats(order) && p.localFree == p.files.job.None?
    ensures var q, l := StartAll(p, order, env), AllLocalKeys(p.views, order, env);
      (q.files.job.None? && exists v :: v in order && LocalWaits(q.views, v, env)) <==>
      (p.files.job.None? && |l| >= 2 && env(l[0]).launch != Launched)
  {
    hide LocalWaits, AllLocalKeys, StartAll;
    StartAllLocal(p, order, env);
    AllLocalKeysExact(StartAll(p, order, env).views, order, env);
  }

  /** A whole poll: it leaves the application without a local job although one waits exactly when no job
      went on, and the first of at least two local requests could not be started. */
  lemma PollIdleExactlyAfterFailure(s: State, exited: bool, inbox: seq<Message>, live: set<nat>, order: seq<nat>,
                                    env: Env)
    requires !s.stopping && NoRepeats(order)
    ensures var t, l := Poll(s, exited, inbox, live, order, env), AllLocalKeys(s.views, order, env);
      (t.files.job.None? && exists v :: v in order && LocalWaits(t.views, v, env)) <==>
      ((s.files.job.None? || exited) && |l| >= 2 && env(l[0]).launch != Launched)
  {
    hide LocalWaits, AllLocalKeys, StartAll;
    var f := PollRemote(TakeFinished(s.files, exited), inbox, live);
    IdleExactlyAfterFailure(Progress(s.views, f, f.job.None?), order, env);
  }

  /** Such a poll in a run: two local requests, and the thread of the first cannot be made. */
  lemma FailedLaunchLeavesIdle() returns (states: seq<State>, steps: seq<Step>)
    ensures RunOk(states, steps) && |steps| == 4 && steps[3].Polls?
    ensures states[4].files.job.None? && states[4].files.fate.Keys == {Key(0, 1), Key(0, 2)}
    ensures states[4].files.fate[Key(0, 1)] == NotStarted && states[4].files.fate[Key(0, 2)] == Queued
    ensures steps[3].env(Key(0, 2)) == Sight(false, None, Launched)
  {
    var ask := Ask(true, false, false, false, true, 100, 7);
    var env: Env := (k: Key) => Sight(false, None, if k.id == 1 then NotSent else Launched);
    steps := [Opens(0), Asks(0, ask), Asks(0, ask), Polls(false, [], {}, [0], env)];
    var s1 := START.(views := map[0 := Requests([], 0)]);
    var s2 := Enqueue(s1, 0, ask);
    var s3 := Enqueue(s2, 0, ask);
    var s4 := Poll(s3, false, [], {}, [0], env);
    states := [START, s1, s2, s3, s4];
    assert s3.views[0].queue == [Request(1, 7), Request(2, 7)];
    var f := PollRemote(TakeFinished(s3.files, false), [], {});
    assert f.job.None? && f.remote == [];
    FailedScan(f, env);
    var p := Progress(s3.views, f, true);
    assert StartAll(p, [], env) == p && StartAll(p, [0], env) == StartView(p, 0, env) by { assert [0][..0] == []; }
  }

  lemma FailedScan(f: Files, env: Env)
    requires env(Key(0, 1)) == Sight(false, None, NotSent) && env(Key(0, 2)) == Sight(false, None, Launched)
    ensures Scan(f, true, 0, [Request(1, 7), Request(2, 7)], env)
      == Scanned(Settle(f, Key(0, 1), NotStarted), false, [Request(2, 7)])
  {
    var q := [Request(1, 7), Request(2, 7)];
    assert q[1..] == [Request(2, 7)] && q[1..][1..] == [];
    var g := Settle(f, Key(0, 1), NotStarted);
    assert Scan(g, false, 0, [], env) == Scanned(g, false, []);
    assert Scan(g, false, 0, q[1..], env) == Scanned(g, false, [Request(2, 7)]);
  }

  // ---------------------------------------------------------------- the application's own loops

  function Onto(kept: seq<Request>, rest: Scanned): Scanned { rest.(kept := kept + rest.kept) }

  /** One turn of the loop in the middle of a queue. */
  lemma ScanAt(f: Files, localFree: bool, view: nat, q: seq<Request>, i: nat, env: Env)
    requires i < |q|
    ensures var key := Key(view, q[i].id); var t := TakeTurn(f, localFree, key, env(key));
      Onto(q[..i], Scan(f, localFree, view, q[i..], env)) ==
      Onto(if t.kept then q[..i + 1] else q[..i], Scan(t.files, t.localFree, view, q[i + 1..], env))
  {
    assert q[i..][0] == q[i] && q[i..][1..] == q[i + 1..];
    var key := Key(view, q[i].id);
    var t := TakeTurn(f, localFree, key, env(key));
    if t.kept {
      var rest := Scan(t.files, t.localFree, view, q[i + 1..], env);
      assert q[..i] + ([q[i]] + rest.kept) == q[..i + 1] + rest.kept;
    }
  }

  lemma StaleAside(f: Files, key: Key, sight: Sight)
    ensures TryLaunch(f, key, Sight(false, sight.remote, sight.launch)) == TryLaunch(f, key, sight)
  {
  }

  lemma RemotesOk(f: Files)
    requires FilesOk(f)
    ensures RemoteOk(f.remote, f.nextOp)
  {}

  lemma AllSettled(jobs: seq<RemoteJob>, inbox: seq<Message>, live: set<nat>)
    ensures forall k :: 0 <= k < |jobs| ==>
      LostUnless(jobs[k].(result := Reported(jobs[k], inbox)), live) == Settled(jobs[k], inbox, live)
  {}

  function LostUnless(j: RemoteJob, live: set<nat>): RemoteJob {
    if j.result.None? && j.op !in live then j.(result := Some(Lost)) else j
  }

  class App {
    var views: map<nat, Requests>
    var job: Option<Key>
    var remote: seq<RemoteJob>
    var nextOp: nat
    var stopping: bool
    /** What has become of every request accepted so far. */
    ghost var fate: map<Key, Phase>

    ghost function FilesNow(): Files reads this { Files(job, remote, nextOp, fate) }
    ghost function Now(): State reads this { State(views, FilesNow(), stopping) }

    /** One local job, one remote job for each workspace, every queue in order and at most eight long, and
        every request accepted either waits in one place, runs in one place, or is done with. */
    ghost predicate Valid() reads this { Inv(Now()) }

    constructor ()
      ensures Now() == START && Valid()
    {
      views, job, remote, nextOp, stopping := map[], None, [], 0, false;
      fate := map[];
    }

    method EnqueueExplorerFile(view: nat, ask: Ask) returns (a: Admission)
      requires view in views && Valid()
      modifies this`views, this`fate
      ensures Valid() && Advances(old(fate), fate)
      ensures a == Admit(old(views)[view], ask) && Now() == Enqueue(old(Now()), view, ask)
    {
      hide Inv, Advances;
      EnqueueKeeps(Now(), view, ask);
      if !ask.user || ask.blocked || (ask.remote && ask.localOnly) { return Ignored; }
      if !ask.bound { return Ignored; }
      var r := views[view];
      if |r.queue| >= MAX_PENDING_PER_VIEW { return QueueFull; }
      if ask.bytes > MAX_REQUEST_BYTES { return TooLarge; }
      var id := r.counter + 1;
      views := views[view := Requests(r.queue + [Request(id, ask.operation)], id)];
      fate := fate[Key(view, id) := Queued];
      a := Accepted(id);
    }

    method RemoveRequest(view: nat, id: nat)
      requires view in views && Valid()
      modifies this`views, this`fate
      ensures Valid() && Advances(old(fate), fate)
      ensures Now() == Remove(old(Now()), view, id)
    {
      hide Inv, Advances;
      RemoveKeeps(Now(), view, id);
      var q := views[view].queue;
      var kept: seq<Request> := [];
      for i := 0 to |q|
        invariant kept == Without(q[..i], id)
      {
        assert q[..i + 1][..i] == q[..i];
        if q[i].id != id { kept := kept + [q[i]]; }
      }
      assert q[..|q|] == q;
      views := views[view := views[view].(queue := kept)];
      fate := Fell(fate, KeysOf(view, q) * {Key(view, id)}, Removed);
    }

    method StartLocal(key: Key, launch: Launch)
      modifies this`job, this`fate
      ensures FilesNow() == TryLaunch(old(FilesNow()), key, Sight(false, None, launch))
    {
      if launch == Launched {
        job := Some(key);
        fate := fate[key := Running];
      } else {
        fate := fate[key := NotStarted];
      }
    }

    method StartRemote(workspace: nat, key: Key, launch: Launch)
      modifies this`remote, this`nextOp, this`fate
      ensures FilesNow() == TryLaunch(old(FilesNow()), key, Sight(false, Some(workspace), launch))
    {
      fate := fate[key := NotStarted];
      if launch == Unsupported { return; }
      nextOp := nextOp + 1;
      if launch == NotSent { return; }
      remote := remote + [RemoteJob(nextOp, workspace, key, None)];
      fate := fate[key := Running];
    }

    method IsRemoteBusy(workspace: nat) returns (busy: bool)
      ensures busy == RemoteBusy(FilesNow(), workspace)
    {
      busy := false;
      for i := 0 to |remote|
        invariant busy == exists k :: 0 <= k < i && remote[k].workspace == workspace
      {
        if remote[i].workspace == workspace { busy := true; }
      }
    }

    /** The requests of one window: the index moves on over what must wait, and stays when one leaves. */
    method StartWaiting(view: nat, waiting: seq<Request>, mayStart: bool, env: Env)
      returns (q: seq<Request>, localFree: bool)
      modifies this`job, this`remote, this`nextOp, this`fate
      ensures Scanned(FilesNow(), localFree, q) == Scan(old(FilesNow()), mayStart, view, waiting, env)
    {
      q, localFree := waiting, mayStart;
      ghost var whole := Scan(FilesNow(), localFree, view, q, env);
      var i := 0;
      assert q[0..] == q && q[..0] == [];
      while i < |q|
        invariant i <= |q|
        invariant whole == Onto(q[..i], Scan(FilesNow(), localFree, view, q[i..], env))
        decreases |q| - i
      {
        var key := Key(view, q[i].id);
        var sight := env(key);
        ghost var f, free, p := FilesNow(), localFree, q;
        ScanAt(f, free, view, q, i, env);
        hide TryLaunch, RemoteBusy, Scan, Onto;
        var startable := localFree;
        if sight.remote.Some? {
          var busy := IsRemoteBusy(sight.remote.value);
          startable := !busy;
        }
        if !sight.stale && !startable {
          i := i + 1;
        } else {
          q := q[..i] + q[i + 1..];
          assert q[i..] == p[i + 1..] && q[..i] == p[..i];
          if sight.stale {
            fate := fate[key := Dropped];
          } else if sight.remote.Some? {
            StartRemote(sight.remote.value, key, sight.launch);
            assert FilesNow() == TryLaunch(f, key, sight) by { StaleAside(f, key, sight); }
          } else {
            localFree := false;
            StartLocal(key, sight.launch);
            assert FilesNow() == TryLaunch(f, key, sight) by { StaleAside(f, key, sight); }
          }
          assert FilesNow() == TakeTurn(f, free, key, sight).files
            && localFree == TakeTurn(f, free, key, sight).localFree;
        }
      }
      assert q[..i] == q && q[i..] == [];
    }

    method StartOneView(view: nat, mayStart: bool, env: Env) returns (localFree: bool)
      requires view in views
      modifies this`views, this`job, this`remote, this`nextOp, this`fate
      ensures Progress(views, FilesNow(), localFree)
        == StartView(Progress(old(views), old(FilesNow()), mayStart), view, env)
    {
      var q;
      q, localFree := StartWaiting(view, views[view].queue, mayStart, env);
      views := views[view := views[view].(queue := q)];
    }

    method StartExplorerFile(order: seq<nat>, env: Env)
      requires Valid()
      modifies this`views, this`job, this`remote, this`nextOp, this`fate
      ensures Valid() && Advances(old(fate), fate)
      ensures exists free ::
        Progress(views, FilesNow(), free) == StartAll(Progress(old(views), old(FilesNow()), old(job).None?), order, env)
    {
      hide FilesOk, ViewsOk, Advances, Scan;
      var localFree := job.None?;
      ghost var was := Progress(views, FilesNow(), localFree);
      StartAllKeeps(was, order, env);
      for i := 0 to |order|
        invariant Progress(views, FilesNow(), localFree) == StartAll(was, order[..i], env)
      {
        assert order[..i + 1][..i] == order[..i];
        if order[i] in views {
          localFree := StartOneView(order[i], localFree, env);
        }
      }
      assert order[..|order|] == order;
    }

    /** The job leaves only when its thread has ended; then its request has ended, only remote jobs run,
        and no other request has moved. */
    method TakeFinishedJob(exited: bool)
      requires Valid()
      modifies this`job, this`fate
      ensures Valid() && Advances(old(fate), fate)
      ensures job == if exited then None else old(job)
      ensures forall k :: k in fate <==> k in old(fate)
      ensures forall k :: k in fate ==> fate[k] == if exited && old(job) == Some(k) then Ended else old(fate)[k]
      ensures job.None? ==> InPhase(fate, Running) == RemoteKeys(remote)
      ensures FilesNow() == TakeFinished(old(FilesNow()), exited)
    {
      hide ViewsOk, Advances;
      TakingKeeps(Now(), exited);
      if job.Some? && exited {
        fate := End(fate, {job.value});
        job := None;
      }
    }

    method ReadMessages(inbox: seq<Message>)
      requires RemoteOk(remote, nextOp)
      modifies this`remote
      ensures |remote| == |old(remote)|
      ensures forall k :: 0 <= k < |remote| ==> remote[k] == old(remote)[k].(result := Reported(old(remote)[k], inbox))
    {
      ghost var jobs := remote;
      for m := 0 to |inbox|
        invariant |jobs| == |remote|
        invariant forall k :: 0 <= k < |jobs| ==> remote[k] == jobs[k].(result := Reported(jobs[k], inbox[..m]))
      {
        assert inbox[..m + 1][..m] == inbox[..m];
        var at := FindJob(remote, inbox[m].workspace, inbox[m].op);
        if at.Some? && inbox[m].report.Some? {
          remote := remote[at.value := remote[at.value].(result := Some(Finished(inbox[m].report.value)))];
        }
      }
      assert inbox[..|inbox|] == inbox;
    }

    method LoseTheUnconnected(live: set<nat>)
      modifies this`remote
      ensures |remote| == |old(remote)|
      ensures forall k :: 0 <= k < |remote| ==> remote[k] == LostUnless(old(remote)[k], live)
    {
      ghost var jobs := remote;
      for k := 0 to |remote|
        invariant |jobs| == |remote|
        invariant forall x :: 0 <= x < k ==> remote[x] == LostUnless(jobs[x], live)
        invariant forall x :: k <= x < |jobs| ==> remote[x] == jobs[x]
      {
        if remote[k].result.None? && remote[k].op !in live { remote := remote[k := remote[k].(result := Some(Lost))]; }
      }
    }

    /** Messages first, then the jobs whose connection is gone, then the split into done and waiting. */
    method PollRemoteJobs(inbox: seq<Message>, live: set<nat>) returns (done: seq<RemoteJob>)
      requires Valid()
      modifies this`remote, this`fate
      ensures Valid() && Advances(old(fate), fate)
      ensures FilesNow() == PollRemote(old(FilesNow()), inbox, live) && done == Done(old(remote), inbox, live)
    {
      hide FilesOk, ViewsOk, Advances, RemoteOk, Settled, Waiting, Done;
      CollectKeeps(Now(), false, inbox, live);
      ghost var jobs := remote;
      assert RemoteOk(remote, nextOp) by { RemotesOk(FilesNow()); }
      ReadMessages(inbox);
      LoseTheUnconnected(live);
      assert forall k :: 0 <= k < |jobs| ==> remote[k] == Settled(jobs[k], inbox, live) by {
        AllSettled(jobs, inbox, live);
      }
      var waiting;
      waiting, done := SplitJobs(jobs, inbox, live);
      remote := waiting;
      fate := End(fate, set j | j in done :: j.key);
    }

    method SplitJobs(ghost jobs: seq<RemoteJob>, ghost inbox: seq<Message>, ghost live: set<nat>)
      returns (waiting: seq<RemoteJob>, done: seq<RemoteJob>)
      requires |remote| == |jobs| && forall k :: 0 <= k < |jobs| ==> remote[k] == Settled(jobs[k], inbox, live)
      ensures waiting == Waiting(jobs, inbox, live) && done == Done(jobs, inbox, live)
    {
      waiting, done := [], [];
      for k := 0 to |remote|
        invariant waiting == Waiting(jobs[..k], inbox, live) && done == Done(jobs[..k], inbox, live)
      {
        hide Settled;
        assert jobs[..k + 1][..k] == jobs[..k];
        if remote[k].result.Some? { done := done + [remote[k]]; } else { waiting := waiting + [remote[k]]; }
      }
      assert jobs[..|jobs|] == jobs;
    }

    method PollExplorerFiles(exited: bool, inbox: seq<Message>, live: set<nat>, order: seq<nat>, env: Env)
      requires Valid()
      modifies this`views, this`job, this`remote, this`nextOp, this`fate
      ensures Valid() && Advances(old(fate), fate)
      ensures Now() == Poll(old(Now()), exited, inbox, live, order, env)
    {
      hide TakeFinished, PollRemote, StartAll, Done, FilesOk, ViewsOk, Advances;
      PollKeeps(Now(), exited, inbox, live, order, env);
      TakeFinishedJob(exited);
      var done := PollRemoteJobs(inbox, live);
      if !stopping { StartExplorerFile(order, env); }
    }
  }

  /** The first job of this workspace with this number; no two jobs have the same number. */
  function FindJob(jobs: seq<RemoteJob>, workspace: nat, op: nat): (r: Option<nat>)
    ensures r.Some? ==> r.value < |jobs| && jobs[r.value].workspace == workspace && jobs[r.value].op == op
    ensures r.None? ==> forall k :: 0 <= k < |jobs| ==> jobs[k].workspace != workspace || jobs[k].op != op
  {
    if jobs == [] then None
    else
      var r := FindJob(jobs[..|jobs| - 1], workspace, op);
      if r.Some? then r
      else if jobs[|jobs| - 1].workspace == workspace && jobs[|jobs| - 1].op == op then Some(|jobs| - 1) else None
  }
}
