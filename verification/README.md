# Verified model of tasty's host shell

tasty is a terminal emulator whose host process owns windows, terminals, settings, remote connections and
file operations. This project models the algorithms and protocols of that host that are hard to get right,
and proves what they promise for every input and every run:

- `bezier.dfy`, `chords.dfy`, `outline.dfy`, `drawings.dfy`: icon outlines are flattened into polylines. Subdivision samples
  the curve at increasing parameters; each part of the curve is within a stated distance of the line through
  its chord, and of the polyline itself wherever the pieces stay over their chords.
- `batch_writer.dfy`, `settings_saves.dfy`, `settings_replies.dfy`: settings are saved by a background
  writer that merges requests and retries. Every request gets one result, each submit is told the truth about
  the file, and when the application believes that everything is saved, the file holds the latest settings.
- `occupancy.dfy`, `occupancy_effects.dfy`, `attach.dfy`, `attach_begins.dfy`, `attach_polls.dfy`: remote
  clients lock terminals and workspaces and wait for them to become live. Every lease is accounted for, and a
  lease is handed over as ready exactly when everything it waits for is live.
- `masker.dfy`, `masker_tokens.dfy`, `conversion_hits.dfy`: a lexer blanks out everything in Rust source that
  is not code, and a scan counts arithmetic on scale factors.
- `writer_scan.dfy`: function bodies are brace intervals, and "calls a state writer" is closed over calls.
- `engine_registry.dfy`: every engine is in exactly one place.
- `dag_reads.dfy`: a bounded pool of reader threads, polled and reaped by its owner.
- `explorer_files.dfy`, `explorer_starts.dfy`: file operations queue in each view and start in order, one for
  each resource, and run exactly if they could be launched.
- `reconnect.dfy`, `reconnect_records.dfy`: retrying lost connections, with a growing delay, a limit and
  timers; the records count the failures since the last success.
- `soak_trend.dfy`: the least-squares trend of the soak analysis.
- `system_notice.dfy`: repeated notices are suppressed, and only the newest are kept.

Objects that the source updates in place are classes whose methods are proved against functions on values;
the theorems are lemmas about those functions, about single steps, and about all runs of those steps.
Threads, the operating system, the network and the clock are parameters: what a worker has sent, whether
a process could be started, which file content a failed write leaves, what time it is.

## Findings

- Giving up a waiting workspace attach can end the lease of a different client. `Attach.FreeIsExact` and
  `Attach.FreeAndOthers` say exactly when (a terminal of the workspace is held under another grant);
  `Attach.ReleaseCanEndAnothersLease` gives the run. A surface attach never does. Evicting a client that is
  gone does the same to a living one: `OccupancyEffects.GoneTakesLivingLock` says exactly when.
- It can also leave a lock behind that is not ready and that no request waits for:
  `Attach.FreeLeavesNothing` says exactly when (a surface was moved out of the workspace under the same
  grant, or the client holds a whole workspace and the attach given up is to one surface of it, which shares
  its grant), `Attach.ReleaseCanLeaveALock` gives a run of the first kind.
- A reconnection whose connection is discarded while it is being made leaves its anchor counted as active,
  and it is never tried again: `Reconnect.ActiveIsAttended`, `Reconnect.WaitingIsDueOrArmed` and
  `Reconnect.StrandedStays` say exactly when, `Reconnect.SessionCanBeStranded` gives the run. The stage
  before, which looks for the endpoint, clears the anchor when its result is discarded.
- The flatness test measures the distance to the infinite line through the ends of a piece, so a flat piece
  may run past its chord by any length: `Chords.FlatCurveCanOvershoot`. `Chords.StaysOverExact` and
  `Chords.SegmentCoversArcExact` say exactly which pieces stay over their chords, and for those
  `Chords.PieceIsNear` bounds the distance to the segment; `Chords.ArcIsNearExact` says exactly which points
  of a flat piece are near its segment, and `Chords.OvershootIsFar` that none is which overshoots by more than
  the tolerance. `Chords.ForwardCurveIsNear` gives a condition on the curve itself under which all of it is
  near the polyline.
- At shutdown the settings are collected and then retried. A failed save whose result arrives between the two
  counts as still on its way, the one retry is used up without effect, and the settings stay unsaved:
  `SettingsSaves.RetryOutcome` says exactly when, `SettingsSaves.FailureBeforeRetry` gives the run.
- The header of `src/system_notice.rs` calls notices the same when source, level, title and body agree.
  The code compares the surface too. `SystemNotices.HeaderRuleAgrees` says exactly when the two rules
  decide alike, `SystemNotices.SurfaceTellsApart` gives the case. The model follows the code.
- In the explorer a local job whose thread cannot be made still uses up the one local turn of that poll.
  `ExplorerFiles.PollIdleExactlyAfterFailure` says exactly when a local request is left waiting with no
  local job, `ExplorerFiles.FailedLaunchLeavesIdle` gives the run.

## Model

| member | source | states |
|---|---|---|
| Bezier.FlattenCubic | crates/tasty-plugin-clipboard-viewer/build.rs:130-152 | the recursion appends exactly the points of the subdivision tree and keeps what was there |
| Bezier.FlattenQuad | crates/tasty-plugin-clipboard-viewer/build.rs:154-165 | the same for quadratic curves |
| Bezier.AtBernstein | crates/tasty-plugin-clipboard-viewer/build.rs:130-165 | evaluation by repeated interpolation is the Bernstein polynomial of the control points |
| Bezier.Halves | crates/tasty-plugin-clipboard-viewer/build.rs:143-149 | the two halves trace the curve over the first and the second half of its parameters |
| Bezier.LeavesTile | crates/tasty-plugin-clipboard-viewer/build.rs:130-165 | the unsplit pieces cover the parameters from 0 to 1 without gap or overlap, in order |
| Bezier.LeafIsArc | crates/tasty-plugin-clipboard-viewer/build.rs:130-165 | each piece, at every depth, is the arc of the original curve over its own interval |
| Bezier.LeafStop | crates/tasty-plugin-clipboard-viewer/build.rs:137-142 | a piece is left unsplit only if it is flat or the depth cap is reached |
| Bezier.PointsAreLeafEnds | crates/tasty-plugin-clipboard-viewer/build.rs:140 | the appended points are the end points of the pieces, one for each |
| Bezier.PointCount | crates/tasty-plugin-clipboard-viewer/build.rs:110-165 | at least one and at most 2^(16-depth) points |
| Bezier.FlatArcIsNear | crates/tasty-plugin-clipboard-viewer/build.rs:117-128 | the whole arc of a flat curve lies within 3/4 (cubic) or 1/2 (quadratic) of the tolerance of the line through its chord, or within the tolerance of its start when the chord is degenerate |
| Bezier.LeafError | crates/tasty-plugin-clipboard-viewer/build.rs:117-165 | the same bound, to the chord line, for the arc of the original curve under each flat piece |
| Bezier.HalvingQuartersBend | crates/tasty-plugin-clipboard-viewer/build.rs:143-149 | each halving divides the second differences by at least four |
| Bezier.LittleBendIsFlat | crates/tasty-plugin-clipboard-viewer/build.rs:117-142 | second differences of at most 3/64 pass the flatness test |
| Bezier.BoundedBend | crates/tasty-plugin-clipboard-viewer/build.rs:110-165 | n halvings suffice for second differences up to 3/64 times 4^n: the recursion never goes deeper than n, gives at most 2^n points, and every piece is flat |
| Bezier.ViewBoxLeaves | crates/tasty-plugin-clipboard-viewer/build.rs:24-165 | a curve drawn in the 24 by 24 view box is never split deeper than 5, so the cap of 16 is never what stops it, and gives at most 32 points |
| Bezier.FlattenSamplesCurve | crates/tasty-plugin-clipboard-viewer/build.rs:130-165 | for every curve the points sample it at strictly increasing parameters ending at 1, and between samples it stays near the chord line unless the depth cap cut that piece |
| Bezier.ViewBoxFlattening | crates/tasty-plugin-clipboard-viewer/build.rs:24-165 | for icon curves the recursion never passes depth 5 and gives at most 32 points, and each part of the curve is near the line through its chord |
| Chords.FlatCurveCanOvershoot | crates/tasty-plugin-clipboard-viewer/build.rs:117-142 | a curve in the view box that passes the flatness test at once, although its middle is more than 17.5 units from the one segment drawn |
| Chords.StaysOverExact | crates/tasty-plugin-clipboard-viewer/build.rs:117-142 | all perpendiculars from a piece meet its chord between the ends if and only if its inner control points satisfy a condition on where theirs meet it |
| Chords.SegmentCoversArcExact | crates/tasty-plugin-clipboard-viewer/build.rs:130-165 | the same, exactly, for the arc of the original curve under each piece of the subdivision |
| Chords.PieceIsNear | crates/tasty-plugin-clipboard-viewer/build.rs:130-165 | a flat piece that satisfies it (or has a degenerate chord): its arc is within the tolerance of its own segment of the polyline |
| Chords.NearSegmentExact | crates/tasty-plugin-clipboard-viewer/build.rs:117-128 | a point beside a chord is near it if and only if it is near its line, and a point before or beyond it if and only if it is near that end |
| Chords.ArcIsNearExact | crates/tasty-plugin-clipboard-viewer/build.rs:130-165 | exactly those points of the arc under a flat piece are near its segment that are beside it, or within the tolerance of the end they are before or beyond |
| Chords.OvershootIsFar | crates/tasty-plugin-clipboard-viewer/build.rs:117-128 | a point near a chord overshoots it by no more than the tolerance |
| Chords.PolylineIsNear | crates/tasty-plugin-clipboard-viewer/build.rs:130-165 | if all pieces are flat and satisfy it, every point of the curve is within the tolerance of the polyline |
| Chords.HalvesGoForward | crates/tasty-plugin-clipboard-viewer/build.rs:143-149 | halving keeps a control polygon from turning back |
| Chords.ForwardCurveIsNear | crates/tasty-plugin-clipboard-viewer/build.rs:24-165 | a curve of the view box no two legs of whose control polygon point away from each other: every point of it is within the tolerance of the polyline |
| Outline.FlattenPath | crates/tasty-plugin-clipboard-viewer/build.rs:62-104 | one path adds the polylines of its groups of commands with at least two points, and fails exactly when a curve comes before any start point |
| Outline.FlattenTree | crates/tasty-plugin-clipboard-viewer/build.rs:55-108 | all paths in order; fails exactly when one of them does |
| Outline.GroupsPartition | crates/tasty-plugin-clipboard-viewer/build.rs:64-70 | the groups are the path, cut before each move and nowhere else |
| Outline.TraceEmpty | crates/tasty-plugin-clipboard-viewer/build.rs:72-99 | nothing has been drawn only while the path held nothing but closes |
| Outline.KeptAreLines | crates/tasty-plugin-clipboard-viewer/build.rs:65-104 | every polyline has at least two points |
| Outline.TraceKeepsPoints | crates/tasty-plugin-clipboard-viewer/build.rs:70-99 | a subpath starts at its move and drawing never drops or moves a point |
| Drawings.PenIsLast | crates/tasty-plugin-clipboard-viewer/build.rs:70-99 | the points of a subpath begin at its first point and end where its last command does, which after a close is its start; nothing is drawn exactly if all is closes |
| Drawings.CommandAdds | crates/tasty-plugin-clipboard-viewer/build.rs:70-99 | each command adds behind the others: a line its end, a curve samples of that curve from where the pen stands through its control points, a close the start |
| Drawings.KeptInOrder | crates/tasty-plugin-clipboard-viewer/build.rs:65-104 | exactly the groups that draw at least two points are kept, each in its place |
| Drawings.TreeKeeps | crates/tasty-plugin-clipboard-viewer/build.rs:55-108 | the polylines of a tree are those of the subpaths of its paths, path after path |
| BatchWriter.Coalesce | crates/tasty-utils/src/batch_writer/worker.rs:226-260 | each request is replaced exactly by the last one of the batch with its key |
| BatchWriter.RunsIffLast | crates/tasty-utils/src/batch_writer/worker.rs:226-260 | a request runs if and only if no later one has its key |
| BatchWriter.ReplacedByItsKind | crates/tasty-utils/src/batch_writer/worker.rs:226-260 | a save is replaced only by a save or by a request that writes the same file, a request without a key by none |
| BatchWriter.Finish | crates/tasty-utils/src/batch_writer/worker.rs:399-427 | a result reaches its request and everything that request replaced, whatever order swap_remove leaves |
| BatchWriter.RunRounds | crates/tasty-utils/src/batch_writer/worker.rs:322-397 | for any executor, with busy retries, poisoned requests that fail alone, and ends for all: every request of a batch gets exactly one result, its own or that of the one which replaced it |
| BatchWriter.OneCallAnswers | crates/tasty-utils/src/batch_writer/worker.rs:355-394 | whatever was not poisoned is answered by one and the same call, the last: nothing runs again after it was answered, and the calls are bounded by the requests and the waits |
| BatchWriter.RunBatch | crates/tasty-utils/src/batch_writer/worker.rs:322-397 | with the executor of files, each request's result comes from its own attempt or from that of the one which replaced it |
| BatchWriter.EachOutcomeIsTold | crates/tasty-utils/src/batch_writer/worker.rs:322-397 | each outcome of an attempt has its own answer: saved, under its revision, failed, unknown after a panic, lost without an attempt; whoever was replaced is told the same, without the revision |
| SettingsSaves.BatchResult | src/app/file_writer.rs:135-153 | a queued save is told that it succeeded only if its revision replaced the file, which then holds exactly its settings, or if a newer revision was written |
| SettingsSaves.Writer.Accept | crates/tasty-utils/src/batch_writer.rs:343-392 | admission gives a new receipt and appends to the queue, or refuses without effect |
| SettingsSaves.Writer.TryTake | crates/tasty-utils/src/batch_writer/slot.rs:195-199 | a receipt yields its result once |
| SettingsSaves.Writer.RunFirst | crates/tasty-utils/src/batch_writer/worker.rs:322-389 | a batch moves queue, results and file as the model's step says |
| SettingsSaves.Saves.ConfirmRevision | src/app/file_writer.rs:432-437 | the committed revision becomes the larger of the two and never passes the visible one, and the unsaved time ends exactly when it catches up |
| SettingsSaves.Saves.EnqueueSave | src/app/file_writer.rs:379-403 | a save is queued and remembered, or refused and settled at once |
| SettingsSaves.Saves.SubmitSettings | src/app/file_writer.rs:360-377 | a submit makes a new visible revision, starts the unsaved time if all was clean, and enqueues; afterwards the object is still reliable: if it says that all is saved, the file holds the latest settings |
| SettingsSaves.Saves.CollectCompleted | src/app/file_writer.rs:410-430 | the index and swap_remove loop equals the recursive collection and leaves the object reliable |
| SettingsSaves.Saves.ReapSettled | src/app/file_writer.rs:405-408 | collects, then hands every settled answer over once, and stays reliable |
| SettingsSaves.Saves.RetryLatestBeforeShutdown | src/app/file_writer.rs:457-478 | at most one retry, only for an unsaved latest revision that is not already on its way; it sees to that revision exactly when no failure waits uncollected |
| SettingsSaves.RunInv | src/app/file_writer.rs:360-493 | the protocol invariant holds in every run of submits, batches, failures, lost workers, collections and retries |
| SettingsSaves.CommittedIsOnDisk | src/app/file_writer.rs:360-437 | whenever the committed revision is the visible one the file holds exactly the settings submitted last |
| SettingsSaves.CommittedWasWritten | src/app/file_writer.rs:410-446 | committed never passes visible and names a revision that really replaced the file; clean exactly when equal |
| SettingsSaves.EverySubmitAnsweredOnce | src/app/file_writer.rs:379-430 | no submit is answered twice, and all are answered once nothing is pending |
| SettingsSaves.SuccessIsTrue | src/app/file_writer.rs:485-493 | a submit told it is saved was: its revision or a newer one replaced the file |
| SettingsSaves.SupersededConfirmsNothing | src/app/file_writer.rs:410-430 | a replaced save reports success only if a newer one was written, and by itself advances nothing |
| SettingsReplies.ToldWhatHappened | src/app/file_writer.rs:405-493 | in every run a submit is told that it is saved if and only if its own attempt replaced the file, or that of the request which replaced it in its batch |
| SettingsReplies.ReplacedMeansOnDisk | src/app/file_writer.rs:135-153 | a batch that replaces the file leaves the settings of its last save in it; one that does not writes no revision |
| SettingsReplies.EnqueueTells | src/app/file_writer.rs:379-403 | a save is queued last, or told at once that it was not saved; without a writer it is told the truth about the file at once |
| SettingsSaves.CollectSpec | src/app/file_writer.rs:410-430 | one collection visits every pending request once, removes exactly those with results, and confirms the largest revision among them |
| SettingsSaves.CommittedIsLargestConfirmed | src/app/file_writer.rs:410-437 | in every run the committed revision is the largest one that was directly confirmed |
| SettingsSaves.RetryOutcome | src/app/file_writer.rs:457-478 | the retry runs once, and leaves the latest revision saved, its success about to be collected, a save on its way, or plainly refused, if and only if no failure of its last save waits uncollected; then it does nothing |
| SettingsSaves.RetryAfterCollect | src/app/services.rs:245-260 | right after a collection the retry always sees to the latest revision |
| SettingsSaves.FailureBeforeRetry | src/app/services.rs:245-260 | a run in which a failure arrives between the collection and the retry, and the latest settings stay unsaved with the retry used up |
| SettingsSaves.DirtySinceFirstSubmit | src/app/file_writer.rs:360-446 | the unsaved time is that of the first submit after the last moment at which all was saved |
| Occupancy.OccupancyRegistry.AcquireSurface | src/core/attach.rs:167-190 | a lock is returned, granted with the next number, or refused, with dead holders evicted |
| OccupancyEffects.AcquireExactly | src/core/attach.rs:167-190 | a surface is refused exactly if a living other client holds it, and the refusal names it; who holds it keeps its lock, anybody else gets a ready lock with the next number, and nothing changes but what a gone holder had |
| Occupancy.OccupancyRegistry.AcquireWorkspaceFor | src/core/attach.rs:320-362 | the same for a workspace with its terminals and members |
| OccupancyEffects.AcquireWorkspaceExactly | src/core/attach.rs:320-362 | a workspace is granted exactly if the client has it, or no living other client has it and none of its terminals is held by one when it is looked at (evicting a gone client for an earlier terminal can free it); a grant covers the workspace and all terminals, lists all members, and takes nothing from anybody but with a client that is gone |
| OccupancyEffects.AddMemberExactly | src/core/attach.rs:366-385 | a surface that joins a held workspace is listed there; a terminal nobody has locked takes the lock of the workspace over, and no lock is replaced |
| OccupancyEffects.SetReadyExactly | src/core/attach.rs:394-404 | exactly the locks of one client and one grant change their readiness, and nothing else about them |
| OccupancyEffects.SurfaceGivenUp | src/core/attach.rs:193-285 | a release takes the lock only of its holder, a forced detach of anybody, and a closed surface is not listed any more; nothing else changes |
| OccupancyEffects.GoneMakeWay | src/core/attach.rs:167-235 | a surface is granted exactly if nobody holds it, the asker does, or its holder is known to be gone |
| Occupancy.OccupancyRegistry.EvictIfDead | src/core/attach.rs:228-234 | only a holder marked as gone is evicted, and then all it held |
| Occupancy.OccupancyRegistry.ReleaseAllForClient | src/core/attach.rs:237-274 | frees the client's workspaces with their members and its surfaces, so that the client holds nothing; the numbering stays sound and no grant comes back |
| OccupancyEffects.ReleaseAllExactly | src/core/attach.rs:237-274 | exactly the workspaces of the client, their listings, and the locks of the client and of whatever is listed under it are gone |
| OccupancyEffects.GoneTakesLivingLock | src/core/attach.rs:228-274 | giving up a client that is gone takes a living client's lock away exactly if that is on a surface listed in a workspace of the first |
| Occupancy.OccupancyRegistry.ForceDetachWorkspaceOf | src/core/attach.rs:447-474 | nobody holds the workspace and nothing is listed in it any more; the locks of its listed members are gone, whoever held them; no other lock or listing changes; the numbering stays sound and no grant comes back |
| Occupancy.ApplyStep | src/core/attach.rs:112-474 | every operation keeps the grants numbered soundly and never brings a grant back |
| Occupancy.ReleasedGrantNeverReturns | src/core/attach.rs:167-474 | over any run, a grant that no lock carries any more is never carried again |
| Attach.FreeIsExact | src/app/attach_activation.rs:39-77 | freeing ends the request's own lease, only removes locks, and takes another grant's lock exactly when the target is a workspace with a member locked under that grant |
| Attach.FreeAndOthers | src/app/attach_activation.rs:59-77 | another client's current lease survives unless it is a surface listed in the freed workspace |
| Attach.ReleaseCanEndAnothersLease | src/runtime/structure_observation.rs:75-98 | a run from the start, by two begins, a surface moved into the waiting workspace, and a poll, after which giving up one request has ended another client's current lease |
| Attach.FreeLeavesNothing | src/app/attach_activation.rs:39-77 | giving a lease up leaves no lock of its grant behind exactly when every lock of the grant is on the target or listed in the workspace |
| Attach.ReleaseCanLeaveALock | src/runtime/structure_observation.rs:75-98 | a run from the start after which a lock of a given-up grant stays behind, not ready, with no request waiting for it |
| Attach.PolledLeavesLive | src/app/attach_activation.rs:213-262 | after a poll without failure every leaf with a terminal has the generation and activation that is live now |
| Attach.MembersSameSet | src/app/attach_activation.rs:291-320 | for distinct ids the length-and-containment test is equality with the set captured at the start |
| Attach.LeavingAccountsForLease | src/app/attach_activation.rs:264-350 | a kept request still has its lease; one that leaves has handed it over or has it no longer |
| Attach.ReadyOnlyWhenLive | src/app/attach_activation.rs:264-350 | a lease is handed over as ready only when current, uncancelled, bound, with every leaf live and the members unchanged |
| Attach.TurnsReady | src/app/attach_activation.rs:264-350 | a poll turns no lock ready but those of a lease that is current, uncancelled and bound, with every leaf live and the members unchanged, also when the publication fails afterwards |
| Attach.PollTurnsReady | src/app/attach_activation.rs:264-350 | the same over the whole list: each lock that turned ready belongs to a request that showed all this at its turn |
| AttachPolls.PollsExactly | src/app/attach_activation.rs:213-350 | each way a poll can end for a request, with exactly its condition: handed over ready if and only if its lease is current, it is bound and not cancelled, nothing halts, its members are unchanged and each leaf is live or reported live by its receipt |
| AttachPolls.ArrivedNeverRefused | src/app/attach_activation.rs:213-262 | a request whose leaves are all live or reported live never leaves with a leaf failure |
| AttachPolls.HandsOverExactly | src/app/attach_activation.rs:264-350 | the same over every poll of every run, for each request at its turn |
| AttachBegins.CancelledNeverReady | src/app/attach_activation.rs:31-290 | once a client has cancelled, whatever a poll finds, its requests are released and none is handed over; those of others are as they were |
| Attach.PollListOk | src/app/attach_activation.rs:264-350 | polling the whole list keeps one request for each client and engine, and only shrinks it |
| Attach.PollAccounts | src/app/attach_activation.rs:264-350 | after a poll every request whose lease is still current was kept or handed it over, whatever the others did |
| Attach.DrainOk | src/app/attach_activation.rs:100-112 | a new attach cancels the client's other requests, releases those on the same engine, and keeps all other clients' requests as they are |
| AttachBegins.DrainExactly | src/app/attach_activation.rs:100-112 | the requests that stay keep their order, and exactly the locks and listings go that the leases of the replaced requests covered |
| Attach.CancelEngineOk | src/app/attach_activation.rs:352-369 | closing an engine releases exactly its requests and keeps all the others |
| AttachBegins.CloseExactly | src/app/attach_activation.rs:352-369 | the same for the requests of an engine that is closed |
| Attach.BeginOk | src/app/attach_activation.rs:80-210 | at most 64 requests, at most one uncancelled for each client |
| Attach.BeginHoldsLease | src/app/attach_activation.rs:80-210 | a request that starts to wait holds a current lease that is not ready: a fresh one, or the one its client held on that target already |
| AttachBegins.BeginExactly | src/app/attach_activation.rs:80-210 | an attach starts to wait exactly if its client is connected and does not wait for the target already, fewer than 64 others wait, and the target is there, fits and can be had; it then stands last and waits for its terminals as they were found |
| AttachBegins.AttachedOnTheSpot | src/app/attach_activation.rs:113-133 | a surface that is no terminal is attached at once and makes no request wait |
| Attach.EveryRunIsOk | src/app/attach_activation.rs:80-369 | these bounds, the numbering of grants and one open engine for each request hold in every run of begins, polls, cancellations, closed engines and takeovers |
| Attach.EveryLeaseIsAccountedFor | src/app/attach_activation.rs:80-369 | at every step of every run each waiting request stays, hands its lease over ready in a poll, has no current lease any more, or loses its engine |
| Attach.Server.PollAll | src/app/attach_activation.rs:264-350 | the loop that drains and rebuilds the list equals the model's poll; the invariant holds again, and every request waits on, hands over ready, or has no current lease any more |
| Attach.Server.CloseEngine | src/app/attach_activation.rs:352-369 | the loop of cancel_engine equals the model's; the requests of that engine, and no others, are gone, and the invariant holds again |
| Attach.Server.BeginAttach | src/app/attach_activation.rs:80-210 | begin equals the model's, for one engine, and leaves the others alone; the invariant holds again and every earlier request is accounted for |
| Masker.ScanBlockComment | src/dpi_conversion_guard.rs:89-107 | the depth counter finds the end of the nested comment: the first closing that balances all openings, its own included, or the end of the text |
| Masker.CommentEndsBalanced | src/dpi_conversion_guard.rs:89-107 | read in pairs from left to right without overlap, a comment ends with the first closing at which closings equal openings, or with the text when there is none |
| Masker.ScanRaw | src/dpi_conversion_guard.rs:109-135 | a raw string ends at the first quote followed by its number of hashes |
| Masker.ScanQuoted | src/dpi_conversion_guard.rs:137-162 | a literal ends just after its first quote with an even run of backslashes before it, or with the text when there is none |
| Masker.EndsAtFirstUnescaped | src/dpi_conversion_guard.rs:137-162 | skipping two characters at a backslash and counting the backslashes before a quote find the same end |
| Masker.ScanToken | src/dpi_conversion_guard.rs:76-166 | each branch of the lexer finds the token that the specification names, and its kind |
| Masker.MaskNonCode | src/dpi_conversion_guard.rs:65-168 | the index loop equals the recursive, token by token specification |
| MaskerTokens.TokenExactly | src/dpi_conversion_guard.rs:76-166 | at every position the lexer finds the kind of token that the characters there open, and ends it where that kind ends |
| MaskerTokens.OneToken | src/dpi_conversion_guard.rs:76-166 | and no other token stands there |
| MaskerTokens.MaskShowsCode | src/dpi_conversion_guard.rs:65-168 | if a text is cut into tokens, masking keeps exactly the characters of the code tokens |
| MaskerTokens.Tokenise | src/dpi_conversion_guard.rs:65-168 | every text can be cut into tokens |
| MaskerTokens.OneTokenisation | src/dpi_conversion_guard.rs:65-168 | in one way only |
| Masker.MaskKeepsLayout | src/dpi_conversion_guard.rs:65-168 | same length, newlines exactly preserved, every other character kept or blanked, kept only if code |
| Masker.MaskedIsCode | src/dpi_conversion_guard.rs:65-168 | the output holds no quote and no comment opening |
| Masker.MaskIdempotent | src/dpi_conversion_guard.rs:65-168 | masking twice is masking once |
| ConversionHits.ConversionHitsOf | src/dpi_conversion_guard.rs:171-211 | the scan that jumps past each match counts the hits at all positions |
| ConversionHits.HitExactly | src/dpi_conversion_guard.rs:171-211 | a whole word is a hit exactly if a sign of multiplication or division is the last visible character before the longest path of names and dots in front of it, or the first one behind it, and it is not the argument of a conversion |
| ConversionHits.OverlapNeverHits | src/dpi_conversion_guard.rs:175-209 | a match inside another one is never a whole word, so nothing is lost by jumping |
| ConversionHits.OneWordPerPlace | src/dpi_conversion_guard.rs:171-211 | two whole words at one place are the same word |
| ConversionHits.EachWordOnce | src/dpi_conversion_guard.rs:214-225 | summed over all names, each whole word of a line counts at most once |
| ConversionHits.Violations | src/dpi_conversion_guard.rs:214-225 | the report lists the line numbers in order, one for each hit |
| ConversionHits.ReportCounts | src/dpi_conversion_guard.rs:214-225 | a line number occurs as often as the line has scale words next to an operator |
| WriterScan.MatchClose | scripts/lib/core_writer_scan.py:154-166 | the first position where the depth returns to zero by a closing bracket, or none |
| WriterScan.DepthCounts | scripts/lib/core_writer_scan.py:154-166 | the depth counter is the number of opening brackets passed minus that of closing ones |
| WriterScan.StartsInsideEndsInside | scripts/lib/core_writer_scan.py:154-193 | a bracket interval that starts inside another ends inside it |
| WriterScan.BodyOfMatch | scripts/lib/core_writer_scan.py:172-188 | finds the body of a declaration exactly if there is one |
| WriterScan.Functions | scripts/lib/core_writer_scan.py:169-193 | the bodies of the declarations that have one, in order |
| WriterScan.FunctionsAreBodies | scripts/lib/core_writer_scan.py:184-193 | every listed interval runs from an opening brace to the brace that closes it |
| WriterScan.Enclosing | scripts/lib/core_writer_scan.py:196-201 | the largest start that contains the position belongs to the innermost body, inside all the others |
| WriterScan.CloseOverCalls | scripts/lib/core_writer_scan.py:278-292 | the loop ends and marks exactly the least set that holds the direct writers and is closed under calls by name, although names grow within a pass |
| WriterScan.LeastIsUnique | scripts/lib/core_writer_scan.py:278-292 | there is only one such set |
| Engines.InsertPendingExact | src/app/engine_registry.rs:65-76 | adding an engine keeps the partition exactly when its id is new |
| Engines.AttachWindowExact | src/app/engine_registry.rs:104-110 | attaching keeps the partition exactly when the engine was pending or parked and the window free, or the window shows it already |
| Engines.ParkKeeps | src/app/engine_registry.rs:113-118 | parking keeps the partition and loses no session |
| Engines.UnparkKeeps | src/app/engine_registry.rs:122-129 | so does bringing one back |
| Engines.RetireWindowKeeps | src/app/engine_registry.rs:132-136 | so does retiring a window, or preserving its view |
| Engines.RetirementKeeps | src/app/engine_registry.rs:79-86 | so do the retirement steps; only the last removes a session, and only its own |
| Engines.EveryRunPartitions | src/app/engine_registry.rs:488-529 | in every run each session is in exactly one of window, parked, pending or retiring, and parked views wait in park order |
| Engines.UnparkIsOldest | src/app/engine_registry.rs:120-129 | the engine brought back is the one parked longest |
| Engines.StepMoves | src/app/engine_registry.rs:65-167 | every event moves the one engine it names to the place it names, and no other engine changes its place; only the end of a retirement takes an engine out of the table |
| Engines.OnePlace | src/app/engine_registry.rs:488-529 | an engine has at most one place |
| Engines.TableIsPlaces | src/app/engine_registry.rs:488-529 | an engine is in the table exactly when it has a place |
| Engines.ParkThenReopen | src/app/engine_registry.rs:104-129 | after parking any windows, the i-th window opened shows the i-th engine of the queue of everything parked, the rest of the queue waits on, and no other window changes |
| Engines.ParkAndReopen | src/app/engine_registry.rs:104-129 | parking any windows while nothing is parked, and reopening them in that order, restores the registry |
| Engines.EngineRegistry.TryInsertPending | src/app/engine_registry.rs:65-76 | the engine appears as pending, unless there is one, and no other moves; the partition survives exactly if the id is new |
| Engines.EngineRegistry.RetirePending | src/app/engine_registry.rs:79-86 | only the pending engine moves, to the retiring ones; partition and order are kept |
| Engines.EngineRegistry.Attach | src/app/engine_registry.rs:104-110 | the retain loop moves a waiting or parked engine to a free window and no other; otherwise the partition survives only if the window shows that engine already |
| Engines.EngineRegistry.ParkWindow | src/app/engine_registry.rs:113-118 | the window's engine, and no other, goes behind everything that is parked |
| Engines.EngineRegistry.Unpark | src/app/engine_registry.rs:122-129 | of all that is parked the engine with the smallest stamp becomes the pending one, and no other moves; nothing happens exactly if one is pending or none is parked |
| Engines.EngineRegistry.RetireWindowOf | src/app/engine_registry.rs:132-190 | the window's engine, and no other, becomes a retiring one |
| Engines.EngineRegistry.Finish | src/app/engine_registry.rs:156-167 | a retiring engine leaves the table and has no place left; all others keep theirs |
| DagReads.Stamp | src/app/dag_reads.rs:54-64 | the loop over the targets equals its specification |
| DagReads.PublishedOnlyIfCurrent | src/app/dag_reads.rs:54-64 | a list is published exactly when every target is current, and then nothing but the runners changes |
| DagReads.ReapAnswers | src/app/dag_reads.rs:38-67 | after a reap every request whose worker has sent something is answered with just that: its error, its list with the runners of now, that a target has retired, or nothing if the worker was stopped |
| DagReads.Workers.IsAvailable | src/app/dag_reads.rs:87-91 | a slot is free if not stopping, fewer than four run, and none for this engine |
| DagReads.Workers.Begin | src/app/dag_reads.rs:92-128 | a job starts, or the request is refused at once |
| DagReads.Workers.Publish | src/app/dag_reads.rs:39-67 | one look at one channel consumes a result at most once |
| DagReads.Workers.Look | src/app/dag_reads.rs:132-144 | one turn of the reap loop, with swap_remove |
| DagReads.Workers.Reap | src/app/dag_reads.rs:129-147 | every job is visited once; those neither waiting nor running leave, those delivered are settled, in the order of the visit |
| DagReads.Workers.Poll | src/app/dag_reads.rs:240-273 | sessions take turns by the cursor, and each free one starts its request |
| DagReads.Workers.PollShutdown | src/app/dag_reads.rs:148-155 | stops, reaps with nothing current, and counts what remains |
| DagReads.ReapKeeps | src/app/dag_reads.rs:129-147 | a reap keeps the pool invariant although threads go on between its two looks |
| DagReads.EveryRunIsSafe | src/app/dag_reads.rs:38-155 | in every run: at most four jobs, distinct engines, no request settled twice, no thread joined before its result is consumed, no thread forgotten |
| DagReads.SettledOrWaiting | src/app/dag_reads.rs:87-147 | in every run a request that was handed over is settled, or a thread is at work for it, and never both |
| DagReads.StartedOrRefused | src/app/dag_reads.rs:92-128 | a thread starts exactly if the engine has none, there is room and no failure; otherwise the request is refused at once with the reason |
| DagReads.NothingStartsAfterShutdown | src/app/dag_reads.rs:87-155 | after shutdown begins nothing starts for the rest of the run |
| DagReads.LeftAfterReap | src/app/dag_reads.rs:132-144 | a reap empties the pool exactly when every thread has ended and had its result received |
| DagReads.ShutdownPublishesNothing | src/app/dag_reads.rs:151-155 | during shutdown a list is only published for a request without targets |
| DagReads.PollKeeps | src/app/dag_reads.rs:240-273 | a whole poll keeps the pool invariant |
| DagReads.PollNeverFull | src/app/dag_reads.rs:247-273 | a poll refuses no request for lack of capacity |
| DagReads.PollTakesUp | src/app/dag_reads.rs:240-273 | a poll leaves a request alone only if its engine has a thread, all threads are taken, or the pool is stopping |
| DagReads.OwnerlessIsRetired | src/app/dag_reads.rs:247-273 | a request for a workspace without owner is told that its target has retired |
| DagReads.FirstInTurnStarts | src/app/dag_reads.rs:240-273 | the session whose turn it is starts when it is free |
| DagReads.EachIsFirstOnce | src/app/dag_reads.rs:240-245 | in as many polls as there are sessions each session is first in the rotated list exactly once, wherever the cursor starts |
| ExplorerFiles.App.EnqueueExplorerFile | src/app/explorer_files.rs:439-531 | a request is ignored, refused, or queued under the next number |
| ExplorerStarts.TakenOnExactly | src/app/explorer_files.rs:439-531 | a request is taken on exactly if a user may ask for it there, fewer than eight wait and it is not too large; then it waits last under the next number, and otherwise nothing changes |
| ExplorerFiles.App.RemoveRequest | src/app/explorer_files.rs:334-337 | only the named request leaves the queue |
| ExplorerFiles.App.StartWaiting | src/app/explorer_files.rs:870-973 | the index and remove loop ends and equals one pass over the queue |
| ExplorerFiles.App.StartExplorerFile | src/app/explorer_files.rs:858-976 | all windows in turn, sharing the one local slot |
| ExplorerFiles.App.TakeFinishedJob | src/app/explorer_files.rs:565-591 | the job leaves only when its thread has ended; then its request has ended, only remote jobs run, no other request has moved, and the invariant holds |
| ExplorerFiles.App.PollRemoteJobs | src/app/explorer_files/remote.rs:269-335 | messages, lost connections and the split give each remote job its result |
| ExplorerFiles.App.PollExplorerFiles | src/app/explorer_files.rs:721-744 | finished jobs first, then new ones unless stopping; the invariant of the queues and jobs holds again, and no request goes back |
| ExplorerFiles.ScanKeeps | src/app/explorer_files.rs:870-973 | a pass keeps one local job and one remote job for each workspace; each request is kept, started, dropped as stale, or could not be sent, and nothing else changes |
| ExplorerStarts.ScanDecides | src/app/explorer_files.rs:870-973 | after a pass a request is dropped if stale, waits on, or was tried: it found its workspace or the local slot free, and runs if and only if its launch succeeded, in the local slot or as a new job of the workspace it was seen with, under a new number |
| ExplorerStarts.PollDecides | src/app/explorer_files.rs:721-976 | the same for a whole poll over all windows |
| ExplorerFiles.NothingOvertakes | src/app/explorer_files.rs:870-914 | within one pass over a view, a request that waits keeps every later one for its resource waiting |
| ExplorerFiles.NothingOvertakesInRuns | src/app/explorer_files.rs:327-976 | in every run: of two requests of a view for one resource the later is not tried while the earlier waits |
| ExplorerFiles.NothingWaitsIdly | src/app/explorer_files.rs:886-894 | a request left waiting could not start: its workspace has a job or the local turn is taken |
| ExplorerFiles.PollLeavesNoneIdle | src/app/explorer_files.rs:858-976 | the same over all windows at the end of a poll |
| ExplorerFiles.PollIdleExactlyAfterFailure | src/app/explorer_files.rs:858-976 | a poll leaves a local request waiting without any local job exactly when none went on and the first of at least two local requests could not be started |
| ExplorerFiles.FailedLaunchLeavesIdle | src/app/explorer_files.rs:936-948 | a run with such a poll |
| ExplorerFiles.EndsOrWaits | src/app/explorer_files/remote.rs:318-335 | each remote job ends or waits on unchanged, never both |
| ExplorerFiles.WaitsForItsServer | src/app/explorer_files/remote.rs:270-335 | a job waits on exactly when nothing was reported about it and its connection lives |
| ExplorerStarts.EndsWithLastReport | src/app/explorer_files/remote.rs:269-335 | a job ends with the last report on it; without one it is lost if its connection is gone |
| ExplorerStarts.PollEnds | src/app/explorer_files.rs:721-744 | a poll ends the local request exactly if its thread has ended and a remote one exactly if its job is over, and every other runs on where it ran; while stopping nothing else happens |
| ExplorerFiles.EveryRunIsOk | src/app/explorer_files.rs:327-976 | in every run: queues of at most eight in order of number, a request queued exactly if it stands in its queue, running exactly if it is in one job slot, started at most once, and final once ended, dropped, removed or discarded |
| Reconnect.DelayDoubles | crates/tasty-ssh/src/tunnel.rs:136-167 | the delay after n failures is half a second times 2^n up to half a minute, reached at six |
| Reconnect.EveryRunIsOk | src/app/auto_attach.rs:218-286 | in every run: given up exactly at twenty failures, no reconnection in flight for a given-up anchor, at most one attempt for each anchor, at most 64 in all |
| Reconnect.TriggerStarts | src/app/auto_attach.rs:218-286 | a reconnection starts exactly when none is active, it is due or its user turned to it, and nothing stands in the way; a given-up one only after its record is cleared |
| Reconnect.GivenUpWaitsForUser | src/app/auto_attach.rs:205-240 | a given-up anchor is left alone by polls until its user turns to it |
| Reconnect.LateResultIgnored | crates/tasty-remote/src/outbound.rs:425-434 | the result of a cancelled or replaced attempt changes nothing |
| Reconnect.DelayAfterFailure | src/app/auto_attach.rs:566-586 | the next try waits the grown delay, or half a minute after a conflict, within a fifth |
| Reconnect.FailuresInARow | src/app/auto_attach.rs:566-586 | failures count to twenty and the delay is that of as many doublings, or the longest for good after a conflict |
| ReconnectRecords.RecordIsOfFailures | src/app/auto_attach.rs:566-586 | in every run the record of an anchor is that of exactly its failures since it was last connected, abandoned or started over, in their order; without such a failure there is none |
| ReconnectRecords.RecordCounts | src/app/auto_attach.rs:566-586 | its attempts are the number of those failures, and it is given up exactly at twenty |
| ReconnectRecords.RetryIsOfFailures | crates/tasty-remote/src/outbound.rs:94-120 | in every run the retry record of an anchor is that of exactly its failed first attaches since it was last connected, abandoned or pruned |
| ReconnectRecords.FirstDelayDoubles | crates/tasty-remote/src/outbound.rs:94-120 | the delay before the next first attach is that of as many doublings as the same mapping has failed in a row |
| ReconnectRecords.LiveHasNoRecord | src/app/attach_client/pending.rs:300-316 | in every run an anchor whose session is live has no record of either kind |
| Reconnect.ActiveIsAttended | src/app/attach_client/pending.rs:228-237 | in every run an anchor that counts as active has an attempt in flight or a live connection, except exactly those whose connection was discarded while it was being made |
| Reconnect.WaitingIsDueOrArmed | src/app/auto_attach.rs:99-126 | in every run a waiting anchor is due, has a timer by its next time, is given up, or has an attempt in flight, if and only if its connection was not discarded like that |
| Reconnect.StrandedStays | src/app/auto_attach.rs:218-286 | an anchor left behind like that is never tried again until it is closed |
| Reconnect.SessionCanBeStranded | src/app/attach_client/pending.rs:228-237 | a run of seven steps in which it happens |
| Reconnect.WoundUp | src/app/auto_attach.rs:575-580 | the loop after a conflict ends at the longest delay |
| Reconnect.AttemptBegins | crates/tasty-remote/src/outbound.rs:380-420 | a new attempt replaces all of its anchor and no other; it is turned away by a refusal, which changes nothing, or exactly when 64 others are in flight, and then its anchor has none left |
| Reconnect.Connections.BeginAttempt | crates/tasty-remote/src/outbound.rs:380-420 | cancels the anchor's older attempts, then starts one if there is room; the invariant is lost only by reconnecting a given-up anchor |
| Reconnect.Connections.CancelAttempt | crates/tasty-remote/src/outbound.rs:421-424 | removes that attempt only, and keeps the invariant |
| Reconnect.Connections.TriggerReconnectAnchor | src/app/auto_attach.rs:218-286 | the method with its early returns equals the transition, and keeps the invariant |
| Reconnect.Connections.MaybeTriggerReconnect | src/app/auto_attach.rs:205-216 | all waiting anchors in order, and the invariant is kept |
| Reconnect.Connections.OnReconnectAttemptFailed | src/app/auto_attach.rs:566-586 | the method with its winding loop equals the transition; the invariant is kept exactly for an anchor that is not given up and, at the twentieth failure, has no other reconnection in flight |
| Reconnect.Connections.SyncReconnectTimers | src/app/auto_attach.rs:99-126 | one wakeup for each anchor that needs one, at the earlier of its two times, and none for others |
| SoakTrend.SlopeIsLeastSquares | scripts/soak/analyze.py:52-67 | of all lines the trend has the least residual sum of squares, and is the only one |
| SoakTrend.R2IsExplainedPart | scripts/soak/analyze.py:63-67 | r2 is one minus the unexplained part of the spread, between 0 and 1 |
| SoakTrend.FlatTrend | scripts/soak/analyze.py:55-66 | (0, 0) for fewer than three points, constant x or constant y |
| SoakTrend.VanishingSums | scripts/soak/analyze.py:60-66 | the sums tested against zero vanish exactly for constant x and constant y |
| SystemNotices.SystemInbox.OfferNotice | src/system_notice.rs:67-86 | the method with its pruning equals the model, and reports whether the notice was taken |
| SystemNotices.SystemInbox.TakeAll | src/system_notice.rs:125-127 | hands over the newest notices accepted since the last fetch, and empties the box |
| SystemNotices.SystemInbox.Post | src/system_notice.rs:115-122 | the clock is read under the lock and never goes back: in every run a notice is taken exactly if the same one was not taken less than a window ago |
| SystemNotices.HistoryRuleExact | src/system_notice.rs:67-73 | for any times at all: with these times the pruned list decides the last offer like the full history, whatever the notices, if and only if no window that had passed is open again |
| SystemNotices.AcceptsByHistory | src/system_notice.rs:67-73 | while the clock does not go back no window reopens, and the pruned list decides like the full history |
| SystemNotices.HeaderRuleAgrees | src/system_notice.rs:5-29 | the code decides as its header says exactly when the box does not remember the same notice for another surface, or remembers this one too; no window may reopen, as none does in the program |
| SystemNotices.RecentIsFresh | src/system_notice.rs:67-74 | for any clock the list holds exactly what was accepted and has been within the window at every offer since |
| SystemNotices.ForgottenWhenClockGoesBack | src/system_notice.rs:68-73 | three times at which a window reopens, and notices for which the two rules then differ |
| SystemNotices.PendingIsNewest | src/system_notice.rs:75-84 | what waits is the last 32 notices accepted since the last fetch, or all of them |
| SystemNotices.SurfaceTellsApart | src/system_notice.rs:20-29 | a notice repeated for another surface is accepted, which the header rules out |

## Left out

- Rounding: curves and trends use exact real numbers, and distances are compared by their squares. Nothing is claimed about floating point.
- BatchWriter.RunRounds: how long a busy store is waited for is a number of waits; where a batch is cut (flush points, barriers, byte limits, waiting time) is left open, and every cut is covered.
- SettingsSaves.BatchResult: the file is one value; temporary files, other programs that write it, and the format are not modelled.
- SettingsSaves.Writer.Accept: byte budgets are one yes or no for each request; the statistics counters are not modelled.
- Occupancy.ApplyStep: soft occupancy appears only through the number it takes; publication handles and their retirement are not modelled.
- Attach.BeginOk: the weight limit of waiting requests is a yes or no of the call; rejection messages and the texts of reasons are not modelled.
- Attach.EveryRunIsOk: the terminals themselves are what each poll finds out about them.
- Masker.MaskNonCode: which characters may stand in a word is a parameter with the properties that the source's test has.
- ConversionHits.ConversionHitsOf: a name is a non-empty word, as every name of the source's list is.
- ConversionHits.Violations: the lines are given; splitting the source into lines, the table of allowed counts and the verdict over files are left out.
- WriterScan.Functions: the matches of the declaration pattern are given, and so is which body calls which name; names and visibility are not computed.
- Engines.EngineRegistry.Finish: processes that a released engine has not returned are not modelled. A counter of parks was added so that park order can be stated.
- DagReads.Workers.Reap: a thread is what the owner sees at its two looks; what it reads from the store, and the wake-ups, are left out. The queue of waiting requests is one request on offer for each session.
- ExplorerFiles.App.EnqueueExplorerFile: the size and kind of an operation are parameters; what an operation does to files, its history, its undo and its dialogs are left out.
- ExplorerFiles.NothingOvertakes: order is stated for one view; between views the order in which windows are visited decides.
- Outline.FlattenTree: whether the path library ever hands over a curve without a start point is open; the failure is stated for any path.
- Reconnect.EveryRunIsOk: results of attempts are modelled on values, not as methods; a resynchronisation of a session that is still attached, and the replacement of a connection by a newer one while it is being made, are left out. First attaches are started by any step that finds the anchor inactive, more often than the source does.
- Reconnect.Connections.SyncReconnectTimers: the timer hub, which moves a time that has passed to a little later, is not modelled; waiting sessions have distinct anchors.
- The rest of the host: windows, rendering, tray, web views, menus, SSH, sockets, the database, start-up phases and repository lint policy.
