/**
 Concrete runs showing what the guards of the code do not rule out, each from an author's very
 first output: the conditions in the theorems are there because these runs exist.
 */
module LateAnswers {
  import opened Options
  import opened Builds
  import opened BuildFacts
  import opened Outcomes
  import opened BuildRows
  import opened Retention

  // ---- What one step surely does ----

  lemma MarkKeepsJobs(w: World, id: Stamp, s: Status, ch: Changes)
    requires !s.Queued?
    ensures w.jobs <= Marked(w, id, s, ch).jobs
    ensures Marked(w, id, s, ch).history.imports == w.history.imports
  {
    hide Marked;
    MarkStartsAtMostOne(w, id, s, ch);
  }

  /** `b` is the only build, has status `s`, and `n` imports of it were enqueued. */
  predicate Only(w: World, b: Stamp, s: Status, n: nat) {
    w.builds.Keys == {b} && w.builds[b].status == s && w.history.imports[b] == n
  }

  lemma AfterMark(w: World, b: Stamp, s: Status, ch: Changes)
    requires w.builds.Keys == {b} && !s.Queued?
    ensures Only(Marked(w, b, s, ch), b, s, w.history.imports[b])
    ensures Marked(w, b, s, ch).builds[b] == Patched(w.builds[b], s, ch)
    ensures w.jobs <= Marked(w, b, s, ch).jobs
  {
    hide Marked;
    MarkKeepsJobs(w, b, s, ch);
    MarkKeepsRows(w, b, s, ch);
    MarkingItself(w, b, s, ch);
  }

  lemma AfterSubmit(w: World, b: Stamp, n: nat)
    requires Only(w, b, Pending, n) && SubmitJob(b) in w.jobs
    ensures Only(Submitted(w, b), b, InProgress, n) && Submitting(b) in Submitted(w, b).jobs
  {
    hide Marked;
    AfterMark(WithJob(WithoutJob(w, SubmitJob(b)), Submitting(b)), b, InProgress, NOTHING_ELSE);
  }

  lemma AfterSubmitAccepted(w: World, b: Stamp, s: Status, n: nat)
    requires Only(w, b, s, n) && Submitting(b) in w.jobs
    ensures Only(SubmitAnswered(w, b, Accepted(true)), b, SentToServer, n)
    ensures SubmitAnswered(w, b, Accepted(true)).builds[b].hasStatusUrl
    ensures s.ReceivedFromServer? ==>
      SubmitAnswered(w, b, Accepted(true)).history.reopened[b] == w.history.reopened[b] + 1
  {
    hide Marked;
    AfterMark(WithoutJob(w, Submitting(b)), b, SentToServer, Changes(None, false, false, true));
    MarkingItself(WithoutJob(w, Submitting(b)), b, SentToServer, Changes(None, false, false, true));
  }

  const OK_REPORT := Succeeded("ok")

  lemma AfterClaim(w: World, b: Stamp, s: Status, n: nat)
    requires Only(w, b, s, n) && Waiting(s)
    ensures var w' := CalledBack(w, b, OK_REPORT, false);
      Only(w', b, ReceivedFromServer, n + 1) && ImportJob(b) in w'.jobs && w.jobs <= w'.jobs
  {
    hide Marked, InlineLog;
    AfterMark(w, b, ReceivedFromServer, Changes(Some(InlineLog("ok")), false, false, false));
  }

  lemma AfterRequests(w: World, b: Stamp, n: nat)
    requires Only(w, b, SentToServer, n) && w.builds[b].hasStatusUrl
    ensures Only(CheckRequested(w, b), b, SentToServer, n) && Checking(b) in CheckRequested(w, b).jobs
    ensures Only(CancelRequested(w, b), b, SentToServer, n) && Canceling(b) in CancelRequested(w, b).jobs
  {
    hide Marked;
  }

  lemma AfterLateCheck(w: World, b: Stamp, n: nat)
    requires Only(w, b, Success, n) && Checking(b) in w.jobs
    ensures Only(CheckAnswered(w, b, Answer(OK_REPORT)), b, ReceivedFromServer, n + 1)
  {
    hide Marked, InlineLog;
    AfterMark(WithoutJob(w, Checking(b)), b, ReceivedFromServer, Changes(Some(InlineLog("ok")), false, false, false));
  }

  lemma AfterLateCancel(w: World, b: Stamp, n: nat)
    requires Only(w, b, Success, n) && Canceling(b) in w.jobs
    ensures Only(CancelAnswered(w, b, true), b, Canceled, n)
  {
    hide Marked;
    AfterMark(WithoutJob(w, Canceling(b)), b, Canceled, LogOnly(CANCEL_LOG));
  }

  lemma AfterBegin(w: World, b: Stamp, j: Job, n: nat)
    requires Only(w, b, ReceivedFromServer, n) && ImportJob(b) in w.jobs && j in w.jobs && !j.ImportJob?
    ensures var w' := ImportBegun(w, b);
      Only(w', b, ReceivedFromServer, n) && Importing(b, w'.builds[b]) in w'.jobs && j in w'.jobs
  {
  }

  lemma AfterImport(w: World, b: Stamp, j: Job, n: nat, seen: Build)
    requires Only(w, b, ReceivedFromServer, n) && Importing(b, seen) in w.jobs && j in w.jobs && !j.Importing?
    ensures var w' := ImportEnded(w, b, seen, Imported); Only(w', b, Success, n) && j in w'.jobs
  {
    hide Marked, Pruned;
    var w1 := WithoutJob(w, Importing(b, seen));
    AfterMark(w1, b, Success, NOTHING_ELSE);
    OnlyBuildIsKept(Marked(w1, b, Success, NOTHING_ELSE), b);
  }

  /** Which function each of the steps below is. */
  lemma TheSteps(w: World, b: Stamp)
    ensures Step(w, Submit(b)) == Submitted(w, b)
    ensures forall x :: Step(w, SubmitReply(b, x)) == SubmitAnswered(w, b, x)
    ensures forall x :: Step(w, CheckReply(b, x)) == CheckAnswered(w, b, x)
    ensures Step(w, RequestCheck(b)) == CheckRequested(w, b)
    ensures Step(w, RequestCancel(b)) == CancelRequested(w, b)
    ensures forall x :: Step(w, CancelReply(b, x)) == CancelAnswered(w, b, x)
  {
    hide Submitted, SubmitAnswered, CheckAnswered, CheckRequested, CancelRequested, CancelAnswered;
  }

  /** The build as a job that begins now reads it. */
  function SeenIn(w: World, b: Stamp): Build {
    if b in w.builds then w.builds[b] else Build(0, Pending, false, false, false, "")
  }

  /** The steps of a success reported, fetched and imported. */
  function Succeeding(w: World, b: Stamp): World {
    var w1 := Step(Step(w, Callback(b, OK_REPORT, false)), BeginImport(b));
    Step(w1, EndImport(b, SeenIn(w1, b), Imported))
  }

  /** A job waiting for its answer goes on waiting while the build succeeds. */
  lemma AfterSucceeding(w: World, b: Stamp, j: Job, n: nat)
    requires Only(w, b, SentToServer, n) && j in w.jobs && (j.Checking? || j.Canceling?)
    ensures Only(Succeeding(w, b), b, Success, n + 1) && j in Succeeding(w, b).jobs
  {
    var w1 := CalledBack(w, b, OK_REPORT, false);
    assert Step(w, Callback(b, OK_REPORT, false)) == w1 by { hide CalledBack; }
    hide CalledBack, Step;
    AfterClaim(w, b, SentToServer, n);
    AfterFetching(w1, b, j, n + 1);
  }

  lemma AfterFetching(w: World, b: Stamp, j: Job, n: nat)
    requires Only(w, b, ReceivedFromServer, n) && ImportJob(b) in w.jobs && j in w.jobs && !j.ImportJob?
      && !j.Importing?
    ensures var w1 := Step(w, BeginImport(b));
      && b in w1.builds
      && var w2 := Step(w1, EndImport(b, w1.builds[b], Imported)); Only(w2, b, Success, n) && j in w2.jobs
  {
    hide ImportBegun, ImportEnded;
    var w1 := ImportBegun(w, b);
    assert Step(w, BeginImport(b)) == w1;
    AfterBegin(w, b, j, n);
    assert forall seen :: Step(w1, EndImport(b, seen, Imported)) == ImportEnded(w1, b, seen, Imported);
    hide Step;
    AfterImport(w1, b, j, n, w1.builds[b]);
  }

  // ---- The runs ----

  /** An author with one slot, one project, and nothing else yet. */
  predicate Ready(w: World) { Fresh(w) && 0 in w.projects && w.cap == 1 }

  /** The first output (number 0) and its first build (number 1), about to be submitted. */
  function FirstBuild(w: World): World { Step(Step(w, AddTarget(0)), CreateBuild(0)) }

  lemma FirstBuildRuns(w: World)
    requires Ready(w)
    ensures var w' := FirstBuild(w);
      && w'.clock == 2 && w'.cap == 1 && w'.targets.Keys == {0}
      && w'.builds == map[1 := Build(0, Pending, false, false, false, "")]
      && w'.jobs == multiset{SubmitJob(1), RecheckJob(1, 1)}
      && w'.history == NO_HISTORY.(started := [1])
  {
    var w1 := Step(w, AddTarget(0));
    assert InFlightIn(w1.builds) == {};
    assert SlotAvailable(w1);
    InsertFacts(w1, 0);
  }

  /** ... and then accepted by the build server. */
  function Sent(w: World): World { SentOn(FirstBuild(w)) }

  function SentOn(w: World): World { Step(Step(w, Submit(1)), SubmitReply(1, Accepted(true))) }

  lemma AfterSending(w: World)
    requires Only(w, 1, Pending, 0) && SubmitJob(1) in w.jobs
    ensures Only(SentOn(w), 1, SentToServer, 0) && SentOn(w).builds[1].hasStatusUrl
  {
    hide Step, Submitted, SubmitAnswered;
    TheSteps(w, 1);
    TheSteps(Submitted(w, 1), 1);
    AfterSubmit(w, 1, 0);
    AfterSubmitAccepted(Submitted(w, 1), 1, InProgress, 0);
  }

  lemma SentBuildWaits(w: World)
    requires Ready(w)
    ensures Only(Sent(w), 1, SentToServer, 0) && Sent(w).builds[1].hasStatusUrl
  {
    FirstBuildRuns(w);
    assert Only(FirstBuild(w), 1, Pending, 0) && SubmitJob(1) in FirstBuild(w).jobs;
    hide FirstBuild, SentOn, Ready, Step;
    AfterSending(FirstBuild(w));
  }

  /**
   A status check asked for while the build was out, and answered only after the webhook and the
   import have run, claims the same build again and enqueues a second import of it.
   */
  lemma LateCheckImportsTwice(w: World)
    requires Ready(w)
    ensures var w1 := Succeeding(Step(Sent(w), RequestCheck(1)), 1);
      Only(w1, 1, Success, 1) && Only(Step(w1, CheckReply(1, Answer(OK_REPORT))), 1, ReceivedFromServer, 2)
  {
    hide Sent, Succeeding, Step, Ready, CheckRequested, CheckAnswered;
    SentBuildWaits(w);
    TheSteps(Sent(w), 1);
    var w0 := CheckRequested(Sent(w), 1);
    AfterRequests(Sent(w), 1, 0);
    AfterSucceeding(w0, 1, Checking(1), 0);
    AfterLateCheck(Succeeding(w0, 1), 1, 1);
    TheSteps(Succeeding(w0, 1), 1);
  }

  /** A cancel asked for in time but answered late turns an imported success into a canceled build. */
  lemma LateCancelOverwritesSuccess(w: World)
    requires Ready(w)
    ensures var w1 := Succeeding(Step(Sent(w), RequestCancel(1)), 1);
      Only(w1, 1, Success, 1) && Only(Step(w1, CancelReply(1, true)), 1, Canceled, 1)
  {
    hide Sent, Succeeding, Step, Ready, CancelRequested, CancelAnswered;
    SentBuildWaits(w);
    TheSteps(Sent(w), 1);
    var w0 := CancelRequested(Sent(w), 1);
    AfterRequests(Sent(w), 1, 0);
    AfterSucceeding(w0, 1, Canceling(1), 0);
    AfterLateCancel(Succeeding(w0, 1), 1, 1);
    TheSteps(Succeeding(w0, 1), 1);
  }

  /**
   A webhook that is faster than the answer to the submission, and is sent again: the answer
   overwrites the claim, so the second callback claims the build and imports it once more.
   */
  lemma RepeatedCallbackImportsTwice(w: World)
    requires Ready(w)
    ensures var w1 := Step(FirstBuild(w), Submit(1));
      var w2 := Step(w1, Callback(1, OK_REPORT, false));
      var w3 := Step(w2, SubmitReply(1, Accepted(true)));
      && Only(w2, 1, ReceivedFromServer, 1)
      && Only(w3, 1, SentToServer, 1) && w3.history.reopened[1] == w2.history.reopened[1] + 1
      && Only(Step(w3, Callback(1, OK_REPORT, false)), 1, ReceivedFromServer, 2)
  {
    hide Ready, FirstBuild, Step, Submitted, SubmitAnswered, CalledBack;
    FirstBuildWaits(w);
    var w0 := FirstBuild(w);
    var w1 := Submitted(w0, 1);
    var w2 := CalledBack(w1, 1, OK_REPORT, false);
    var w3 := SubmitAnswered(w2, 1, Accepted(true));
    TheSteps(w0, 1);
    AfterSubmit(w0, 1, 0);
    CallbackSteps(w1);
    AfterClaim(w1, 1, InProgress, 0);
    TheSteps(w2, 1);
    AfterSubmitAccepted(w2, 1, ReceivedFromServer, 1);
    CallbackSteps(w3);
    AfterClaim(w3, 1, SentToServer, 1);
  }

  lemma FirstBuildWaits(w: World)
    requires Ready(w)
    ensures Only(FirstBuild(w), 1, Pending, 0) && SubmitJob(1) in FirstBuild(w).jobs
  {
    FirstBuildRuns(w);
    hide FirstBuild, Ready;
  }

  lemma CallbackSteps(w: World)
    ensures Step(w, Callback(1, OK_REPORT, false)) == CalledBack(w, 1, OK_REPORT, false)
  {
    hide CalledBack;
  }

  /** The first build, canceled before anything ran, and a second one (number 2) in its slot. */
  function SecondBuild(w: World): World { SecondBuildOn(FirstBuild(w)) }

  function SecondBuildOn(w: World): World { Step(Step(w, RequestCancel(1)), CreateBuild(0)) }

  lemma AfterCancel(w: World)
    requires w.clock == 2 && w.cap == 1 && w.targets.Keys == {0} && w.builds.Keys == {1} && SubmitJob(1) in w.jobs
    ensures var w' := Marked(w, 1, Canceled, LogOnly(CANCEL_LOG));
      && w'.clock == 2 && w'.cap == 1 && w'.targets.Keys == {0} && w'.builds.Keys == {1} && SubmitJob(1) in w'.jobs
      && w'.builds[1].status == Canceled
  {
    hide Marked;
    AfterMark(w, 1, Canceled, LogOnly(CANCEL_LOG));
    MarkKeepsShape(w, 1, Canceled, LogOnly(CANCEL_LOG));
  }

  lemma AfterCreate(w: World)
    requires w.clock == 2 && w.cap == 1 && w.targets.Keys == {0} && w.builds.Keys == {1} && SubmitJob(1) in w.jobs
    requires w.builds[1].status == Canceled
    ensures var w' := Created(w, 0);
      && w'.cap == 1 && w'.builds.Keys == {1, 2} && SubmitJob(1) in w'.jobs
      && w'.builds[1].status == Canceled && w'.builds[2].status == Pending
  {
    assert InFlightIn(w.builds) == {};
    InsertFacts(w, 0);
  }

  lemma FirstCancelIsImmediate(w: World)
    requires w.builds == map[1 := Build(0, Pending, false, false, false, "")]
    ensures CancelRequested(w, 1) == Marked(w, 1, Canceled, LogOnly(CANCEL_LOG))
  {
    hide Marked;
  }

  lemma CreatingSteps(w: World)
    requires 0 in w.targets
    ensures Step(w, CreateBuild(0)) == Created(w, 0)
  {
    hide Created;
  }

  lemma AfterTwo(w: World)
    requires w.clock == 2 && w.cap == 1 && w.targets.Keys == {0} && SubmitJob(1) in w.jobs
    requires w.builds == map[1 := Build(0, Pending, false, false, false, "")]
    ensures var w' := SecondBuildOn(w);
      && w'.cap == 1 && w'.builds.Keys == {1, 2} && SubmitJob(1) in w'.jobs
      && w'.builds[1].status == Canceled && w'.builds[2].status == Pending
  {
    hide Marked, Created, Step;
    var w1 := Marked(w, 1, Canceled, LogOnly(CANCEL_LOG));
    FirstCancelIsImmediate(w);
    hide CancelRequested;
    TheSteps(w, 1);
    AfterCancel(w);
    CreatingSteps(w1);
    AfterCreate(w1);
  }

  lemma SecondBuildRuns(w: World)
    requires Ready(w)
    ensures var w' := SecondBuild(w);
      && w'.cap == 1 && w'.builds.Keys == {1, 2} && SubmitJob(1) in w'.jobs
      && w'.builds[1].status == Canceled && w'.builds[2].status == Pending
  {
    FirstBuildRuns(w);
    hide FirstBuild, SecondBuildOn, Ready;
    AfterTwo(FirstBuild(w));
  }

  /**
   A build canceled before its submission job ran is put back in flight by that job, beside the
   build that has meanwhile been given its slot: two run under a cap of one.
   */
  lemma SubmissionRevivesCanceledBuild(w: World)
    requires Ready(w)
    ensures var w' := Step(SecondBuild(w), Submit(1)); w'.cap == 1 && {1, 2} <= InFlightIn(w'.builds)
  {
    hide SecondBuild, Step, Ready;
    SecondBuildRuns(w);
    RevivedBySubmission(SecondBuild(w));
  }

  lemma RevivedBySubmission(w: World)
    requires w.cap == 1 && w.builds.Keys == {1, 2} && SubmitJob(1) in w.jobs
    requires w.builds[1].status == Canceled && w.builds[2].status == Pending
    ensures var w' := Step(w, Submit(1)); w'.cap == 1 && {1, 2} <= InFlightIn(w'.builds)
  {
    hide Marked, Step;
    var w1 := WithJob(WithoutJob(w, SubmitJob(1)), Submitting(1));
    TheSteps(w, 1);
    assert Submitted(w, 1) == Marked(w1, 1, InProgress, NOTHING_ELSE);
    hide Submitted;
    MarkingItself(w1, 1, InProgress, NOTHING_ELSE);
    MarkingAnother(w1, 1, InProgress, NOTHING_ELSE, 2);
    MarkKeepsRows(w1, 1, InProgress, NOTHING_ELSE);
    MarkKeepsShape(w1, 1, InProgress, NOTHING_ELSE);
  }

  predicate SameShape(w: World, w': World) {
    w'.cap == w.cap && w'.targets.Keys == w.targets.Keys && w'.clock == w.clock
  }

  lemma WriteKeepsShape(w: World, id: Stamp, s: Status, ch: Changes)
    ensures SameShape(w, WrittenAndSynced(w, id, s, ch))
  {
    hide Newest, BuildsOf, LiveOf, Patched, Recorded;
  }

  lemma MarkKeepsShape(w: World, id: Stamp, s: Status, ch: Changes)
    ensures SameShape(w, Marked(w, id, s, ch))
  {
    var w1 := WrittenAndSynced(w, id, s, ch);
    hide WrittenAndSynced, Oldest, QueuedIn, SlotAvailable;
    WriteKeepsShape(w, id, s, ch);
    if SlotAvailable(w1) && QueuedIn(w1.builds) != {} {
      WriteKeepsShape(w1, Oldest(QueuedIn(w1.builds)).value, Pending, NOTHING_ELSE);
    }
  }

  /** The first build running, and a second one (number 2) waiting for its slot. */
  function OneWaits(w: World): World { Step(FirstBuild(w), CreateBuild(0)) }

  /** Deleting the running build leaves the only slot idle and the other build waiting for it. */
  lemma DeleteLeavesSlotIdle(w: World)
    requires Ready(w)
    ensures QueuedIn(OneWaits(w).builds) == {2} && InFlightIn(OneWaits(w).builds) == {1} && OneWaits(w).cap == 1
    ensures var w' := Step(OneWaits(w), DeleteBuild(1));
      QueuedIn(w'.builds) == {2} && SlotAvailable(w') && 0 in w'.targets
  {
    FirstBuildRuns(w);
    var w0 := FirstBuild(w);
    hide FirstBuild, Ready;
    CreatingSteps(w0);
    SecondWaits(w0);
    hide Step, Created;
    DeletingFirst(OneWaits(w));
  }

  lemma SecondWaits(w: World)
    requires w.clock == 2 && w.cap == 1 && 0 in w.targets
    requires w.builds == map[1 := Build(0, Pending, false, false, false, "")]
    ensures var w' := Created(w, 0);
      0 in w'.targets && w'.cap == 1 && w'.builds.Keys == {1, 2} && w'.builds[1].status.Pending?
        && w'.builds[2].status.Queued?
  {
    assert InFlightIn(w.builds) == {1};
    InsertFacts(w, 0);
  }

  lemma DeletingFirst(w: World)
    requires w.cap == 1 && 0 in w.targets
    requires w.builds.Keys == {1, 2} && w.builds[1].status.Pending? && w.builds[2].status.Queued?
    ensures QueuedIn(w.builds) == {2} && InFlightIn(w.builds) == {1}
    ensures var w' := Step(w, DeleteBuild(1)); QueuedIn(w'.builds) == {2} && SlotAvailable(w') && 0 in w'.targets
  {
    assert Step(w, DeleteBuild(1)).builds == w.builds - {1};
    assert InFlightIn(w.builds - {1}) == {};
  }
}
