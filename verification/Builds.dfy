/**
 The build lifecycle of one author: builds, the outputs (targets) they belong to, the projects
 those belong to, the concurrency cap, and the background work that moves builds along.

 A `World` is everything the database and the job queue hold for that author, and `Step` is one
 atomic step of one of the actors. A build's primary key and its `created_at` are the same
 number here, because creation times are strictly increasing. What another process decides -- a
 reply of the build server, whether an import has stalled -- is part of the `Action`.

 Work that spans a round trip to the build server is split where the wait is: the first half
 leaves a `Job` behind, and any other step may run before the second half picks it up.
 */
module Builds {
  import opened Options
  import opened Texts
  import AnsiLog

  type Stamp = nat
  type TargetId = nat
  type ProjectId = nat

  datatype Status =
    | Pending | InProgress | Success | Failed
    | SentToServer | ReceivedFromServer | Canceled | Queued

  /** Occupies one of the author's concurrent-build slots (`Target::IN_FLIGHT`). */
  predicate InFlight(s: Status) {
    s.Pending? || s.InProgress? || s.SentToServer? || s.ReceivedFromServer?
  }

  /** Has not reached an outcome (`Target::UNRESOLVED`). */
  predicate Unresolved(s: Status) { InFlight(s) || s.Queued? }

  predicate Terminal(s: Status) { !Unresolved(s) }

  /** Can still use an answer from the build server: the webhook's guard. */
  predicate Waiting(s: Status) { s.Pending? || s.InProgress? || s.SentToServer? }

  datatype Build = Build(
    target: TargetId,
    status: Status,
    completedWithErrors: bool,
    errorsAccepted: bool,
    hasStatusUrl: bool,
    log: string)
  {
    /** Imported output a public link may serve: the `live_candidates` scope. */
    predicate Live() { status.Success? && (!completedWithErrors || errorsAccepted) }

    predicate BuiltWithErrors() { status.Success? && completedWithErrors }

    predicate AwaitingReview() { BuiltWithErrors() && !errorsAccepted }
  }

  datatype Target = Target(
    project: ProjectId,
    published: bool,
    latest: Option<Stamp>,
    current: Option<Stamp>)

  datatype Visibility = Private | Unlisted | Public

  /** `outputs` are the project's targets in dashboard order. */
  datatype Project = Project(visibility: Visibility, sourceUpdatedAt: Stamp, outputs: seq<TargetId>)

  /** Work enqueued, or past its first half and waiting for the build server. */
  datatype Job =
    | SubmitJob(build: Stamp)
    | Submitting(build: Stamp)
    | ImportJob(build: Stamp)
    | Importing(build: Stamp, seen: Build)
    | LogJob(build: Stamp)
    | RecheckJob(build: Stamp, attempt: nat)
    | Checking(build: Stamp)
    | Canceling(build: Stamp)

  /**
   What has happened so far, for stating theorems about whole runs. `started` lists the builds
   handed to `start!`, in order. Per build, `resubmitted` counts outcomes put back to waiting for
   the build server, `lateClaims` outcomes claimed for import, `reopened` builds already claimed
   that were put back to waiting, and `imports` artifact imports enqueued. `dropped` is how many
   builds were destroyed while they occupied a slot, and `idle` how many of those slots may still
   be standing empty.
   */
  datatype History = History(
    started: seq<Stamp>,
    resubmitted: multiset<Stamp>,
    lateClaims: multiset<Stamp>,
    reopened: multiset<Stamp>,
    imports: multiset<Stamp>,
    dropped: nat,
    idle: nat)
  {
    /** Outcomes that turned back into something in flight. */
    function Revived(): multiset<Stamp> { resubmitted + lateClaims }

    /** Times a build came to wait for the build server again. */
    function Reentered(): multiset<Stamp> { resubmitted + reopened }
  }

  const NO_HISTORY := History([], multiset{}, multiset{}, multiset{}, multiset{}, 0, 0)

  datatype World = World(
    cap: nat,
    clock: Stamp,
    builds: map<Stamp, Build>,
    targets: map<TargetId, Target>,
    projects: map<ProjectId, Project>,
    jobs: multiset<Job>,
    history: History)

  // ---- Queries ----

  function InFlightIn(builds: map<Stamp, Build>): set<Stamp> {
    set b | b in builds && InFlight(builds[b].status)
  }

  function QueuedIn(builds: map<Stamp, Build>): set<Stamp> {
    set b | b in builds && builds[b].status.Queued?
  }

  function BuildsOf(builds: map<Stamp, Build>, t: TargetId): set<Stamp> {
    set b | b in builds && builds[b].target == t
  }

  function LiveOf(builds: map<Stamp, Build>, t: TargetId): set<Stamp> {
    set b | b in builds && builds[b].target == t && builds[b].Live()
  }

  predicate IsNewest(x: Stamp, s: set<Stamp>) { x in s && forall y :: y in s ==> y <= x }

  predicate IsOldest(x: Stamp, s: set<Stamp>) { x in s && forall y :: y in s ==> x <= y }

  lemma {:induction false} NewestExists(s: set<Stamp>)
    requires s != {}
    ensures exists x :: IsNewest(x, s)
  {
    var x :| x in s;
    var rest := s - {x};
    if rest == {} {
      assert s == {x};
      assert IsNewest(x, s);
    } else {
      NewestExists(rest);
      var m :| IsNewest(m, rest);
      assert s == rest + {x};
      assert IsNewest(if m < x then x else m, s);
    }
  }

  lemma {:induction false} OldestExists(s: set<Stamp>)
    requires s != {}
    ensures exists x :: IsOldest(x, s)
  {
    var x :| x in s;
    var rest := s - {x};
    if rest == {} {
      assert s == {x};
      assert IsOldest(x, s);
    } else {
      OldestExists(rest);
      var m :| IsOldest(m, rest);
      assert s == rest + {x};
      assert IsOldest(if x < m then x else m, s);
    }
  }

  /** `order(created_at: :desc).first` */
  function Newest(s: set<Stamp>): (r: Option<Stamp>)
    ensures r.None? <==> s == {}
    ensures r.Some? ==> IsNewest(r.value, s)
  {
    if s == {} then None
    else
      NewestExists(s);
      var x :| IsNewest(x, s);
      Some(x)
  }

  /** `reorder(created_at: :asc).first` */
  function Oldest(s: set<Stamp>): (r: Option<Stamp>)
    ensures r.None? <==> s == {}
    ensures r.Some? ==> IsOldest(r.value, s)
  {
    if s == {} then None
    else
      OldestExists(s);
      var x :| IsOldest(x, s);
      Some(x)
  }

  /** Newest first. */
  function Descending(s: set<Stamp>): (r: seq<Stamp>)
    ensures forall x :: x in r <==> x in s
    ensures forall i, j :: 0 <= i < j < |r| ==> r[j] < r[i]
  {
    if s == {} then [] else var m := Newest(s).value; [m] + Descending(s - {m})
  }

  predicate SlotAvailable(w: World) { |InFlightIn(w.builds)| < w.cap }

  // ---- Text of the log ----

  const NO_LOG := "(No log returned from server.)"
  const CANCEL_LOG := "Build canceled."
  const TIMEOUT_LOG :=
    "Couldn't download the finished output from the build server (timed out). " +
    "The build itself completed -- please try building again."
  const STALLED_LOG :=
    "The build finished, but importing its output into PreTeXt.Plus stopped part way. " +
    "Please try building again."
  const MAX_ATTEMPTS: nat := 11

  /** `payload["log_tail"].presence || NO_LOG` */
  function InlineLog(tail: string): string { if Blank(tail) then NO_LOG else tail }

  /** `[ log, note ].compact_blank.join("\n\n")` */
  function Appended(log: string, note: string): string {
    if Blank(log) then note else log + "\n\n" + note
  }

  // ---- The funnel every status change passes through ----

  /** The extra columns a caller of `mark!` writes; the flags are only ever raised. */
  datatype Changes = Changes(
    log: Option<string>,
    completedWithErrors: bool,
    errorsAccepted: bool,
    statusUrl: bool)

  const NOTHING_ELSE := Changes(None, false, false, false)

  function LogOnly(log: string): Changes { Changes(Some(log), false, false, false) }

  function Patched(b: Build, s: Status, ch: Changes): Build {
    b.(status := s,
       log := if ch.log.Some? then AnsiLog.Scrub(ch.log.value) else b.log,
       completedWithErrors := b.completedWithErrors || ch.completedWithErrors,
       errorsAccepted := b.errorsAccepted || ch.errorsAccepted,
       hasStatusUrl := b.hasStatusUrl || ch.statusUrl)
  }

  function CountedIf(counted: bool, m: multiset<Stamp>, id: Stamp): multiset<Stamp> {
    if counted then m + multiset{id} else m
  }

  function Recorded(h: History, id: Stamp, before: Status, after: Status): History {
    h.(resubmitted := CountedIf(Terminal(before) && Waiting(after), h.resubmitted, id),
       lateClaims := CountedIf(Terminal(before) && after.ReceivedFromServer?, h.lateClaims, id),
       reopened := CountedIf(before.ReceivedFromServer? && Waiting(after), h.reopened, id))
  }

  /** `update_columns`: the row alone, without the pointers. */
  function Written(w: World, id: Stamp, s: Status, ch: Changes): World
    requires id in w.builds
  {
    w.(builds := w.builds[id := Patched(w.builds[id], s, ch)],
       history := Recorded(w.history, id, w.builds[id].status, s))
  }

  /** `Target#sync_from_builds!` */
  function Synced(w: World, t: TargetId): World {
    if t !in w.targets then w
    else
      w.(targets := w.targets[t := w.targets[t].(
        latest := Newest(BuildsOf(w.builds, t)),
        current := Newest(LiveOf(w.builds, t)))])
  }

  function WrittenAndSynced(w: World, id: Stamp, s: Status, ch: Changes): World {
    if id in w.builds then Synced(Written(w, id, s, ch), w.builds[id].target) else w
  }

  function FreeSlots(w: World): nat {
    if SlotAvailable(w) then w.cap - |InFlightIn(w.builds)| else 0
  }

  function Min(a: nat, b: nat): nat { if a < b then a else b }

  /** `Build#start!`: submission and the first recheck. */
  function Started(w: World, id: Stamp): World {
    w.(jobs := w.jobs + multiset{SubmitJob(id), RecheckJob(id, 1)},
       history := w.history.(started := w.history.started + [id], idle := Min(w.history.idle, FreeSlots(w))))
  }

  /** `Build#promote_next_queued_build!` */
  function Promoted(w: World): World {
    if !SlotAvailable(w) || QueuedIn(w.builds) == {} then w
    else
      var next := Oldest(QueuedIn(w.builds)).value;
      Started(WrittenAndSynced(w, next, Pending, NOTHING_ELSE), next)
  }

  /**
   `Build#mark!`. A build another step has destroyed meanwhile is still marked by whoever holds
   it in memory; no row changes then, but a queued build may be promoted all the same.
   */
  function Marked(w: World, id: Stamp, s: Status, ch: Changes): World {
    var w1 := WrittenAndSynced(w, id, s, ch);
    if InFlight(s) then w1 else Promoted(w1)
  }

  function FreshBuild(w: World, t: TargetId): Build {
    Build(t, if SlotAvailable(w) then Pending else Queued, false, false, false, "")
  }

  /** The new row and the `after_create` sync. */
  function Inserted(w: World, t: TargetId): World {
    Synced(w.(clock := w.clock + 1, builds := w.builds[w.clock := FreshBuild(w, t)]), t)
  }

  /** `BuildsController#queue_or_start_build` */
  function Created(w: World, t: TargetId): World {
    if SlotAvailable(w) then Started(Inserted(w, t), w.clock) else Inserted(w, t)
  }

  /** `destroy!` followed by the `after_destroy` sync: no promotion. */
  function Destroyed(w: World, id: Stamp): World {
    if id !in w.builds then w
    else
      var b := w.builds[id];
      Synced(w.(builds := w.builds - {id},
                history := HistoryAfterDestroy(w.history, b.status)),
             b.target)
  }

  function HistoryAfterDestroy(h: History, s: Status): History {
    if InFlight(s) then h.(dropped := h.dropped + 1, idle := h.idle + 1) else h
  }

  function DestroyedEach(w: World, ids: seq<Stamp>): World {
    if ids == [] then w else Destroyed(DestroyedEach(w, ids[..|ids| - 1]), ids[|ids| - 1])
  }

  // ---- Retention ----

  function SuccessesOf(builds: map<Stamp, Build>, t: TargetId): set<Stamp> {
    set b | b in builds && builds[b].target == t && builds[b].status.Success?
  }

  function UnresolvedOf(builds: map<Stamp, Build>, t: TargetId): set<Stamp> {
    set b | b in builds && builds[b].target == t && Unresolved(builds[b].status)
  }

  function Singleton(o: Option<Stamp>): set<Stamp> { if o.Some? then {o.value} else {} }

  /** The two newest (`Target::KEPT_SUCCESSES`). */
  function NewestTwo(s: set<Stamp>): set<Stamp> {
    var first := Singleton(Newest(s));
    first + Singleton(Newest(s - first))
  }

  function Kept(w: World, t: TargetId): set<Stamp> {
    NewestTwo(SuccessesOf(w.builds, t))
    + UnresolvedOf(w.builds, t)
    + Singleton(Newest(BuildsOf(w.builds, t)))
    + (if t in w.targets then Singleton(w.targets[t].current) else {})
  }

  /** What `prune_builds!` destroys, in the order it does. */
  function Surplus(w: World, t: TargetId): seq<Stamp> {
    Descending(BuildsOf(w.builds, t) - Kept(w, t))
  }

  /** `Target#prune_builds!` */
  function Pruned(w: World, t: TargetId): World { DestroyedEach(w, Surplus(w, t)) }

  /** A pruning that gets through its first `k` destroys only. */
  function PrunedUpTo(w: World, t: TargetId, k: nat): World {
    var surplus := Surplus(w, t);
    DestroyedEach(w, surplus[..Min(k, |surplus|)])
  }

  // ---- What a dashboard row says, and building in bulk ----

  datatype RowState =
    | NeverBuilt | RowQueued | Building | RowFailed | RowCanceled
    | NeedsReview | Stale | Warned | Current

  /** `Target#state` */
  function RowStateOf(w: World, t: TargetId): RowState
    requires t in w.targets
  {
    var row := w.targets[t];
    if row.latest.None? || row.latest.value !in w.builds then NeverBuilt
    else
      var latest := w.builds[row.latest.value];
      if latest.status.Queued? then RowQueued
      else if InFlight(latest.status) then Building
      else if latest.status.Failed? then RowFailed
      else if latest.status.Canceled? then RowCanceled
      else if latest.AwaitingReview() then NeedsReview
      else if row.current.None? || row.current.value !in w.builds then NeverBuilt
      else if row.project in w.projects && row.current.value < w.projects[row.project].sourceUpdatedAt then Stale
      else if w.builds[row.current.value].BuiltWithErrors() then Warned
      else Current
  }

  function RowsIn(w: World, ts: seq<TargetId>, state: RowState): seq<TargetId> {
    if ts == [] then []
    else
      var t := ts[|ts| - 1];
      RowsIn(w, ts[..|ts| - 1], state)
      + if t in w.targets && RowStateOf(w, t) == state then [t] else []
  }

  /** `Target.bulk_build_candidates` */
  function BulkCandidates(w: World, p: ProjectId): seq<TargetId>
    requires p in w.projects
  {
    var never := RowsIn(w, w.projects[p].outputs, NeverBuilt);
    if never != [] then never else RowsIn(w, w.projects[p].outputs, Stale)
  }

  function CreatedEach(w: World, ts: seq<TargetId>): World {
    if ts == [] then w else Created(CreatedEach(w, ts[..|ts| - 1]), ts[|ts| - 1])
  }

  /** `BuildsController#build_all` */
  function BuiltAll(w: World, p: ProjectId): World {
    if p !in w.projects then w else CreatedEach(w, BulkCandidates(w, p))
  }

  // ---- Steps of the actors ----

  /** What the build server says about a finished build, by webhook or when asked. */
  datatype Report =
    | Succeeded(tail: string)
    | FailedWithOutput(tail: string)
    | FailedWithoutOutput(tail: string)
    | SomethingElse

  datatype CheckAnswer = Unreachable | Answer(report: Report)

  datatype SubmitAnswer = Accepted(statusUrl: bool) | Rejected

  /** `CrashedAfterSuccess`: an exception once the build was marked, after some of the pruning. */
  datatype ImportOutcome = Imported | DownloadFailed | TimedOut | Crashed | CrashedAfterSuccess(pruned: nat)

  datatype Action =
    | CreateBuild(target: TargetId)
    | BuildAll(project: ProjectId)
    | RequestCancel(build: Stamp)
    | CancelReply(build: Stamp, stopped: bool)
    | AcceptErrors(build: Stamp)
    | DeleteBuild(build: Stamp)
    | Revert(target: TargetId)
    | Publish(target: TargetId, published: bool)
    | SetVisibility(project: ProjectId, visibility: Visibility)
    | EditSource(project: ProjectId)
    | AddTarget(project: ProjectId)
    | Submit(build: Stamp)
    | SubmitReply(build: Stamp, answer: SubmitAnswer)
    | Callback(build: Stamp, report: Report, moreLog: bool)
    | RequestCheck(build: Stamp)
    | CheckReply(build: Stamp, reply: CheckAnswer)
    | Recheck(build: Stamp, attempt: nat, stalled: bool)
    | BeginImport(build: Stamp)
    | EndImport(build: Stamp, seen: Build, outcome: ImportOutcome)
    | FetchLog(build: Stamp, body: Option<string>)

  /** A step of the author; the others are the background jobs' and the build server's. */
  predicate FromAuthor(a: Action) {
    a.CreateBuild? || a.BuildAll? || a.RequestCancel? || a.CancelReply? || a.AcceptErrors? || a.DeleteBuild?
    || a.Revert? || a.Publish? || a.SetVisibility? || a.EditSource? || a.AddTarget?
  }

  function WithJob(w: World, j: Job): World { w.(jobs := w.jobs + multiset{j}) }

  function WithoutJob(w: World, j: Job): World { w.(jobs := w.jobs - multiset{j}) }

  /** Claiming a finished build's output: the mark, then the import that will fetch it. */
  function Claimed(w: World, id: Stamp, tail: string, flagged: bool): World {
    var w1 := Marked(w, id, ReceivedFromServer, Changes(Some(InlineLog(tail)), flagged, false, false));
    w1.(jobs := w1.jobs + multiset{ImportJob(id)},
        history := w1.history.(imports := w1.history.imports + multiset{id}))
  }

  /** What webhook and poll do alike with a report. */
  function Reported(w: World, id: Stamp, r: Report): World {
    match r
    case Succeeded(tail) => Claimed(w, id, tail, false)
    case FailedWithOutput(tail) => Claimed(w, id, tail, true)
    case FailedWithoutOutput(tail) => Marked(w, id, Failed, LogOnly(InlineLog(tail)))
    case SomethingElse => w
  }

  /** `BuildCallbacksController#create`, for a request whose signature is valid. */
  function CalledBack(w: World, id: Stamp, r: Report, moreLog: bool): World {
    if id !in w.builds || !Waiting(w.builds[id].status) then w
    else
      var w1 := Reported(w, id, r);
      if moreLog && !r.SomethingElse? then WithJob(w1, LogJob(id)) else w1
  }

  /** `BuildStatusChecker#check!` up to its request to the build server. */
  function CheckRequested(w: World, id: Stamp): World {
    if id !in w.builds then w
    else
      var b := w.builds[id];
      if b.status.Success? || b.status.Failed? || b.status.Canceled? || !b.hasStatusUrl then w
      else WithJob(w, Checking(id))
  }

  /** ... and from the reload after the answer on. */
  function CheckAnswered(w: World, id: Stamp, a: CheckAnswer): World {
    if Checking(id) !in w.jobs then w
    else
      var w1 := WithoutJob(w, Checking(id));
      if a.Unreachable? || id !in w.builds || w.builds[id].status.ReceivedFromServer? then w1
      else Reported(w1, id, a.report)
  }

  /** `BuildCanceller#cancel!` up to its request to the build server. */
  function CancelRequested(w: World, id: Stamp): World {
    if id !in w.builds || !Unresolved(w.builds[id].status) then w
    else if !w.builds[id].hasStatusUrl then Marked(w, id, Canceled, LogOnly(CANCEL_LOG))
    else WithJob(w, Canceling(id))
  }

  function CancelAnswered(w: World, id: Stamp, stopped: bool): World {
    if Canceling(id) !in w.jobs then w
    else
      var w1 := WithoutJob(w, Canceling(id));
      if stopped then Marked(w1, id, Canceled, LogOnly(CANCEL_LOG)) else w1
  }

  /** `BuildsController#accept` */
  function ErrorsAccepted(w: World, id: Stamp): World {
    if id !in w.builds || !w.builds[id].AwaitingReview() then w
    else Marked(w, id, Success, Changes(None, false, true, false))
  }

  /** `FullBuildJob#perform` up to the submission request. */
  function Submitted(w: World, id: Stamp): World {
    if SubmitJob(id) !in w.jobs then w
    else
      var w1 := WithoutJob(w, SubmitJob(id));
      if id !in w.builds then w1
      else Marked(WithJob(w1, Submitting(id)), id, InProgress, NOTHING_ELSE)
  }

  function SubmitAnswered(w: World, id: Stamp, a: SubmitAnswer): World {
    if Submitting(id) !in w.jobs then w
    else
      var w1 := WithoutJob(w, Submitting(id));
      match a
      case Accepted(url) => Marked(w1, id, SentToServer, Changes(None, false, false, url))
      case Rejected => Marked(w1, id, Failed, NOTHING_ELSE)
  }

  /** `BuildRecheckJob#advance` */
  function Advanced(w: World, id: Stamp, stalled: bool): World
    requires id in w.builds
  {
    var b := w.builds[id];
    if b.status.SentToServer? then CheckRequested(w, id)
    else if b.status.ReceivedFromServer? && stalled then
      Marked(w, id, Failed, LogOnly(Appended(b.log, STALLED_LOG)))
    else w
  }

  /** `BuildRecheckJob#perform` */
  function Rechecked(w: World, id: Stamp, attempt: nat, stalled: bool): World {
    if RecheckJob(id, attempt) !in w.jobs then w
    else
      var w1 := WithoutJob(w, RecheckJob(id, attempt));
      if id !in w.builds then w1
      else
        var w2 := Advanced(w1, id, stalled);
        if id in w2.builds && InFlight(w2.builds[id].status) && attempt < MAX_ATTEMPTS
        then WithJob(w2, RecheckJob(id, attempt + 1)) else w2
  }

  /** `FullBuildArtifactJob#perform` up to the download. */
  function ImportBegun(w: World, id: Stamp): World {
    if ImportJob(id) !in w.jobs then w
    else
      var w1 := WithoutJob(w, ImportJob(id));
      if id !in w.builds || w.builds[id].status.Success? || w.builds[id].status.Canceled? then w1
      else WithJob(w1, Importing(id, w.builds[id]))
  }

  /** The target an import prunes: its build's, which the job still knows if the build is gone. */
  function PruningTarget(w: World, id: Stamp, seen: Build): TargetId {
    if id in w.builds then w.builds[id].target else seen.target
  }

  /** ... and from the download on. `seen` is the build as the job read it when it began. */
  function ImportEnded(w: World, id: Stamp, seen: Build, o: ImportOutcome): World {
    if Importing(id, seen) !in w.jobs then w
    else
      var w1 := WithoutJob(w, Importing(id, seen));
      match o
      case Imported =>
        Pruned(Marked(w1, id, Success, NOTHING_ELSE), PruningTarget(w, id, seen))
      case DownloadFailed => Marked(w1, id, Failed, NOTHING_ELSE)
      case TimedOut => Marked(w1, id, Failed, LogOnly(Appended(seen.log, TIMEOUT_LOG)))
      case Crashed => Marked(w1, id, Failed, NOTHING_ELSE)
      case CrashedAfterSuccess(k) =>
        var w2 := Marked(w1, id, Success, NOTHING_ELSE);
        Marked(PrunedUpTo(w2, PruningTarget(w, id, seen), k), id, Failed, NOTHING_ELSE)
  }

  /** `FullBuildLogJob#perform` */
  function LogFetched(w: World, id: Stamp, body: Option<string>): World {
    if LogJob(id) !in w.jobs then w
    else
      var w1 := WithoutJob(w, LogJob(id));
      if body.None? || Blank(body.value) || id !in w.builds then w1
      else Marked(w1, id, w.builds[id].status, LogOnly(body.value))
  }

  /** `Target#previous_successful_build` */
  function PreviousLive(builds: map<Stamp, Build>, t: TargetId): Option<Stamp> {
    var live := LiveOf(builds, t);
    Newest(live - Singleton(Newest(live)))
  }

  /** `TargetsController#revert` */
  function Reverted(w: World, t: TargetId): World {
    if t !in w.targets || PreviousLive(w.builds, t).None? || w.targets[t].current.None? then w
    else Destroyed(w, w.targets[t].current.value)
  }

  /** `TargetsController#publish`, with `Target#unlist_project_if_needed` after it. */
  function Published(w: World, t: TargetId, published: bool): World {
    if t !in w.targets || (published && w.targets[t].current.None?) then w
    else
      var row := w.targets[t];
      var w1 := w.(targets := w.targets[t := row.(published := published)]);
      if published && !row.published && row.project in w.projects && w.projects[row.project].visibility.Private?
      then w1.(projects := w.projects[row.project := w.projects[row.project].(visibility := Unlisted)])
      else w1
  }

  /** `Project#update` of `visibility`, with `unpublish_targets_if_private` after it. */
  function VisibilitySet(w: World, p: ProjectId, v: Visibility): World {
    if p !in w.projects || w.projects[p].visibility == v then w
    else
      var w1 := w.(projects := w.projects[p := w.projects[p].(visibility := v)]);
      if v.Private? then
        w1.(targets := map t | t in w.targets ::
          if w.targets[t].project == p then w.targets[t].(published := false) else w.targets[t])
      else w1
  }

  function SourceEdited(w: World, p: ProjectId): World {
    if p !in w.projects then w
    else w.(clock := w.clock + 1, projects := w.projects[p := w.projects[p].(sourceUpdatedAt := w.clock)])
  }

  function TargetAdded(w: World, p: ProjectId): World {
    if p !in w.projects then w
    else
      w.(clock := w.clock + 1,
         targets := w.targets[w.clock := Target(p, false, None, None)],
         projects := w.projects[p := w.projects[p].(outputs := w.projects[p].outputs + [w.clock])])
  }

  function Step(w: World, a: Action): World {
    match a
    case CreateBuild(t) => if t in w.targets then Created(w, t) else w
    case BuildAll(p) => BuiltAll(w, p)
    case RequestCancel(b) => CancelRequested(w, b)
    case CancelReply(b, stopped) => CancelAnswered(w, b, stopped)
    case AcceptErrors(b) => ErrorsAccepted(w, b)
    case DeleteBuild(b) => Destroyed(w, b)
    case Revert(t) => Reverted(w, t)
    case Publish(t, published) => Published(w, t, published)
    case SetVisibility(p, v) => VisibilitySet(w, p, v)
    case EditSource(p) => SourceEdited(w, p)
    case AddTarget(p) => TargetAdded(w, p)
    case Submit(b) => Submitted(w, b)
    case SubmitReply(b, answer) => SubmitAnswered(w, b, answer)
    case Callback(b, report, moreLog) => CalledBack(w, b, report, moreLog)
    case RequestCheck(b) => CheckRequested(w, b)
    case CheckReply(b, reply) => CheckAnswered(w, b, reply)
    case Recheck(b, attempt, stalled) => Rechecked(w, b, attempt, stalled)
    case BeginImport(b) => ImportBegun(w, b)
    case EndImport(b, seen, outcome) => ImportEnded(w, b, seen, outcome)
    case FetchLog(b, body) => LogFetched(w, b, body)
  }

  /** The world after the steps of `actions`, in order. */
  function Run(w: World, actions: seq<Action>): World {
    if actions == [] then w else Step(Run(w, actions[..|actions| - 1]), actions[|actions| - 1])
  }

  /** An author with projects but no outputs yet, and so nothing built. */
  predicate Fresh(w: World) {
    && w.clock == 0
    && w.builds == map[]
    && w.targets == map[]
    && w.jobs == multiset{}
    && w.history == NO_HISTORY
    && forall p :: p in w.projects ==> w.projects[p].outputs == []
  }
}
