/**
 What each step writes to the build it is about, and which work it enqueues or takes: every column
 of the row and every job, for every action.
 */
module StepEffects {
  import opened Options
  import opened Builds
  import opened BuildFacts
  import opened BuildRows
  import opened Outcomes
  import opened Texts
  import AnsiLog

  /** Of the jobs about `b`, those in `gone` were taken and those in `more` enqueued, and no other moved. */
  ghost predicate JobsMoved(w: World, w': World, b: Stamp, gone: multiset<Job>, more: multiset<Job>) {
    forall j: Job :: j.build == b ==> w'.jobs[j] == (w.jobs - gone + more)[j]
  }

  /** Build `b` reads `x` afterwards, and its jobs have moved as stated. */
  ghost predicate Left(w: World, w': World, b: Stamp, x: Build, gone: multiset<Job>, more: multiset<Job>) {
    b in w'.builds && w'.builds[b] == x && JobsMoved(w, w', b, gone, more)
  }

  lemma PromotionKeepsJobsOf(w: World, b: Stamp)
    requires b !in QueuedIn(w.builds)
    ensures forall j: Job :: j.build == b ==> Promoted(w).jobs[j] == w.jobs[j]
  {
    hide Promoted, SlotAvailable, FreeSlots, Min, InFlightIn, QueuedIn;
    PromotionEffects(w);
    if Promoted(w) != w {
      var q :| PromotedTo(w, Promoted(w), q);
      assert Promoted(w).jobs == w.jobs + multiset{SubmitJob(q), RecheckJob(q, 1)} && q in QueuedIn(w.builds);
      hide PromotedTo;
    }
  }

  /** A mark moves no job of its own build. */
  lemma MarkKeepsOwnJobs(w: World, id: Stamp, s: Status, ch: Changes)
    requires !s.Queued?
    ensures forall j: Job :: j.build == id ==> Marked(w, id, s, ch).jobs[j] == w.jobs[j]
  {
    var w1 := WrittenAndSynced(w, id, s, ch);
    WriteFacts(w, id, s, ch);
    assert id !in QueuedIn(w1.builds);
    hide WrittenAndSynced, Promoted;
    PromotionKeepsJobsOf(w1, id);
  }

  /** Taking and adding jobs, then marking the build. */
  lemma MarkLeaves(w: World, w1: World, b: Stamp, s: Status, ch: Changes, gone: multiset<Job>, more: multiset<Job>)
    requires b in w.builds && w1.builds == w.builds && w1.jobs == w.jobs - gone + more && !s.Queued?
    ensures Left(w, Marked(w1, b, s, ch), b, Patched(w.builds[b], s, ch), gone, more)
  {
    hide Marked, Patched;
    MarkKeepsOwnJobs(w1, b, s, ch);
    MarkingItself(w1, b, s, ch);
  }

  // ---- A report of the build server ----

  /** The tail of the log it sent, or that it sent none, without its control sequences. */
  function TailKept(tail: string): string {
    AnsiLog.Scrub(if Blank(tail) then "(No log returned from server.)" else tail)
  }

  /** A build once `r` has been recorded in it; a failure with output is flagged, and nothing else is. */
  function Told(x: Build, r: Report): Build {
    match r
    case Succeeded(tail) => x.(status := ReceivedFromServer, log := TailKept(tail))
    case FailedWithOutput(tail) => x.(status := ReceivedFromServer, completedWithErrors := true, log := TailKept(tail))
    case FailedWithoutOutput(tail) => x.(status := Failed, log := TailKept(tail))
    case SomethingElse => x
  }

  function ImportOf(b: Stamp, r: Report): multiset<Job> {
    match r
    case Succeeded(_) => multiset{ImportJob(b)}
    case FailedWithOutput(_) => multiset{ImportJob(b)}
    case FailedWithoutOutput(_) => multiset{}
    case SomethingElse => multiset{}
  }

  lemma ClaimLeaves(w: World, w1: World, b: Stamp, tail: string, flagged: bool, gone: multiset<Job>)
    requires b in w.builds && w1.builds == w.builds && w1.jobs == w.jobs - gone
    ensures Left(w, Claimed(w1, b, tail, flagged), b,
      w.builds[b].(status := ReceivedFromServer, completedWithErrors := w.builds[b].completedWithErrors || flagged,
        log := TailKept(tail)), gone, multiset{ImportJob(b)})
  {
    hide Marked, AnsiLog.Scrub;
    var ch := Changes(Some(InlineLog(tail)), flagged, false, false);
    MarkLeaves(w, w1, b, ReceivedFromServer, ch, gone, multiset{});
  }

  lemma ReportLeaves(w: World, w1: World, b: Stamp, r: Report, gone: multiset<Job>)
    requires b in w.builds && w1.builds == w.builds && w1.jobs == w.jobs - gone
    ensures Left(w, Reported(w1, b, r), b, Told(w.builds[b], r), gone, ImportOf(b, r))
  {
    hide Marked, Claimed, AnsiLog.Scrub, Left;
    match r {
      case Succeeded(tail) => ClaimLeaves(w, w1, b, tail, false, gone);
      case FailedWithOutput(tail) => ClaimLeaves(w, w1, b, tail, true, gone);
      case FailedWithoutOutput(tail) => MarkLeaves(w, w1, b, Failed, LogOnly(InlineLog(tail)), gone, multiset{});
      case SomethingElse => assert Left(w, w1, b, w.builds[b], gone, multiset{}) by { SameLeaves(w, w1, b, gone); }
    }
  }

  lemma SameLeaves(w: World, w1: World, b: Stamp, gone: multiset<Job>)
    requires b in w.builds && w1.builds == w.builds && w1.jobs == w.jobs - gone
    ensures Left(w, w1, b, w.builds[b], gone, multiset{})
  {
  }

  /**
   A callback for a build that waits records what it reports -- the flag exactly if it reports a
   failure with output -- and asks for the import if there is output, and for the rest of the log
   if there is more of it. Any other callback does nothing.
   */
  lemma CallbackRecords(w: World, b: Stamp, r: Report, moreLog: bool)
    ensures var w' := Step(w, Callback(b, r, moreLog));
      if b in w.builds && w.builds[b].status in {Pending, InProgress, SentToServer} then
        Left(w, w', b, Told(w.builds[b], r), multiset{},
          ImportOf(b, r) + if moreLog && !r.SomethingElse? then multiset{LogJob(b)} else multiset{})
      else w' == w
  {
    hide Reported, Told, ImportOf;
    if b in w.builds { ReportLeaves(w, w, b, r, multiset{}); }
  }

  /**
   The answer to a status check records the same for a build that is there and not already
   received, whatever else became of it, and asks for the import alike, but for no log. For any
   other build, or without an answer, only the check is over.
   */
  lemma CheckReplyRecords(w: World, b: Stamp, reply: CheckAnswer)
    ensures var w', check := Step(w, CheckReply(b, reply)), multiset{Checking(b)};
      if Checking(b) !in w.jobs then w' == w
      else if b in w.builds && reply.Answer? && w.builds[b].status != ReceivedFromServer then
        Left(w, w', b, Told(w.builds[b], reply.report), check, ImportOf(b, reply.report))
      else w' == w.(jobs := w.jobs - check)
  {
    hide Reported, Told, ImportOf;
    if b in w.builds && reply.Answer? {
      ReportLeaves(w, WithoutJob(w, Checking(b)), b, reply.report, multiset{Checking(b)});
    }
  }

  /** A check is asked for exactly of a build that is not decided and has an address to ask at. */
  lemma CheckRequestAsks(w: World, b: Stamp)
    ensures Step(w, RequestCheck(b)) ==
      if b in w.builds && w.builds[b].hasStatusUrl && w.builds[b].status !in {Success, Failed, Canceled}
      then w.(jobs := w.jobs + multiset{Checking(b)}) else w
  {
  }

  // ---- The recheck job ----

  /** A build still on its way: in one of the four statuses that hold a slot. */
  predicate UnderWay(x: Build) { x.status in {Pending, InProgress, SentToServer, ReceivedFromServer} }

  /** What a recheck makes of a build: a failure, if it finds its import dead. */
  function Rested(x: Build, stalled: bool): Build {
    if x.status.ReceivedFromServer? && stalled then
      x.(status := Failed, log := AnsiLog.Scrub(if Blank(x.log) then STALLED_LOG else x.log + "\n\n" + STALLED_LOG))
    else x
  }

  /** The check a recheck asks for. */
  function CheckOf(b: Stamp, x: Build): multiset<Job> {
    if x.status.SentToServer? && x.hasStatusUrl then multiset{Checking(b)} else multiset{}
  }

  lemma LookingLeaves(w: World, b: Stamp, k: nat, stalled: bool)
    requires b in w.builds
    ensures var w', x := Advanced(WithoutJob(w, RecheckJob(b, k)), b, stalled), w.builds[b];
      Left(w, w', b, Rested(x, stalled), multiset{RecheckJob(b, k)}, CheckOf(b, x))
  {
    var w1, look := WithoutJob(w, RecheckJob(b, k)), multiset{RecheckJob(b, k)};
    hide Marked, AnsiLog.Scrub, Blank;
    if w.builds[b].status.ReceivedFromServer? && stalled {
      MarkLeaves(w, w1, b, Failed, LogOnly(Appended(w.builds[b].log, STALLED_LOG)), look, multiset{});
    }
  }

  lemma OneJobMore(w: World, w1: World, b: Stamp, x: Build, gone: multiset<Job>, more: multiset<Job>, j: Job)
    requires Left(w, w1, b, x, gone, more)
    ensures Left(w, WithJob(w1, j), b, x, gone, more + multiset{j})
  {
  }

  /**
   A recheck asks the server exactly about a build that was sent to it and has an address, fails
   exactly a build whose import has stalled, and comes back, with the next number, exactly while
   the build is there and on its way and there are attempts left: eleven in all.
   */
  lemma RecheckLooksAndComesBack(w: World, b: Stamp, k: nat, stalled: bool)
    requires RecheckJob(b, k) in w.jobs
    ensures var w', look := Step(w, Recheck(b, k, stalled)), multiset{RecheckJob(b, k)};
      if b !in w.builds then w' == w.(jobs := w.jobs - look)
      else
        var x := Rested(w.builds[b], stalled);
        Left(w, w', b, x, look,
          CheckOf(b, x) + if UnderWay(x) && k < 11 then multiset{RecheckJob(b, k + 1)} else multiset{})
  {
    RecheckStep(w, b, k, stalled);
    hide Step, Advanced, Left, UnderWay;
    if b in w.builds {
      var x, y := w.builds[b], Rested(w.builds[b], stalled);
      var w2 := Advanced(WithoutJob(w, RecheckJob(b, k)), b, stalled);
      assert CheckOf(b, y) == CheckOf(b, x) && CheckOf(b, x) + multiset{} == CheckOf(b, x);
      hide Rested, CheckOf;
      LookingLeaves(w, b, k, stalled);
      LeftReads(w, w2, b, y, multiset{RecheckJob(b, k)}, CheckOf(b, x));
      OneJobMore(w, w2, b, y, multiset{RecheckJob(b, k)}, CheckOf(b, x), RecheckJob(b, k + 1));
    }
  }

  lemma LeftReads(w: World, w1: World, b: Stamp, x: Build, gone: multiset<Job>, more: multiset<Job>)
    requires Left(w, w1, b, x, gone, more)
    ensures b in w1.builds && w1.builds[b] == x
  {
  }

  lemma RecheckStep(w: World, b: Stamp, k: nat, stalled: bool)
    requires RecheckJob(b, k) in w.jobs
    ensures var w', w1 := Step(w, Recheck(b, k, stalled)), w.(jobs := w.jobs - multiset{RecheckJob(b, k)});
      if b !in w.builds then w' == w1
      else
        var w2 := Advanced(w1, b, stalled);
        w' == if b in w2.builds && UnderWay(w2.builds[b]) && k < 11 then WithJob(w2, RecheckJob(b, k + 1)) else w2
  {
    hide Advanced;
  }

  // ---- Submission ----

  /** The submission job marks its build in progress whatever its status; what follows waits for the answer. */
  lemma SubmissionMarks(w: World, b: Stamp)
    ensures var w', job := Step(w, Submit(b)), multiset{SubmitJob(b)};
      if SubmitJob(b) !in w.jobs then w' == w
      else if b !in w.builds then w' == w.(jobs := w.jobs - job)
      else Left(w, w', b, w.builds[b].(status := InProgress), job, multiset{Submitting(b)})
  {
    hide Marked;
    if b in w.builds {
      MarkLeaves(w, WithJob(WithoutJob(w, SubmitJob(b)), Submitting(b)), b, InProgress, NOTHING_ELSE,
        multiset{SubmitJob(b)}, multiset{Submitting(b)});
    }
  }

  /** Its answer marks the build sent, with the address if one came, or failed; again whatever its status. */
  lemma SubmissionAnswerMarks(w: World, b: Stamp, answer: SubmitAnswer)
    requires b in w.builds && Submitting(b) in w.jobs
    ensures var w', x, job := Step(w, SubmitReply(b, answer)), w.builds[b], multiset{Submitting(b)};
      match answer
      case Accepted(url) =>
        Left(w, w', b, x.(status := SentToServer, hasStatusUrl := x.hasStatusUrl || url), job, multiset{})
      case Rejected => Left(w, w', b, x.(status := Failed), job, multiset{})
  {
    hide Marked;
    var w1 := WithoutJob(w, Submitting(b));
    match answer {
      case Accepted(url) =>
        MarkLeaves(w, w1, b, SentToServer, Changes(None, false, false, url), multiset{Submitting(b)}, multiset{});
      case Rejected => MarkLeaves(w, w1, b, Failed, NOTHING_ELSE, multiset{Submitting(b)}, multiset{});
    }
  }

  // ---- Cancel and accept ----

  /** A cancel asks the server if there is an address, and otherwise is carried out; decided builds it leaves. */
  lemma CancelRequestAsks(w: World, b: Stamp)
    ensures var w' := Step(w, RequestCancel(b));
      if b !in w.builds || w.builds[b].status in {Success, Failed, Canceled} then w' == w
      else if w.builds[b].hasStatusUrl then w' == w.(jobs := w.jobs + multiset{Canceling(b)})
      else
        var x := w.builds[b].(status := Canceled, log := AnsiLog.Scrub("Build canceled."));
        Left(w, w', b, x, multiset{}, multiset{})
  {
    hide Marked, AnsiLog.Scrub;
    if b in w.builds { MarkLeaves(w, w, b, Canceled, LogOnly(CANCEL_LOG), multiset{}, multiset{}); }
  }

  lemma CancelAnswerMarks(w: World, b: Stamp, stopped: bool)
    requires b in w.builds && Canceling(b) in w.jobs
    ensures var w', job := Step(w, CancelReply(b, stopped)), multiset{Canceling(b)};
      if stopped then
        Left(w, w', b, w.builds[b].(status := Canceled, log := AnsiLog.Scrub("Build canceled.")), job, multiset{})
      else w' == w.(jobs := w.jobs - job)
  {
    hide Marked, AnsiLog.Scrub;
    MarkLeaves(w, WithoutJob(w, Canceling(b)), b, Canceled, LogOnly(CANCEL_LOG), multiset{Canceling(b)}, multiset{});
  }

  /** Accepting raises the second flag, exactly on a success with the first and without the second. */
  lemma AcceptingFlags(w: World, b: Stamp)
    ensures var w' := Step(w, AcceptErrors(b));
      if b in w.builds && w.builds[b].status.Success? && w.builds[b].completedWithErrors && !w.builds[b].errorsAccepted
      then Left(w, w', b, w.builds[b].(errorsAccepted := true), multiset{}, multiset{})
      else w' == w
  {
    hide Marked;
    if b in w.builds { MarkLeaves(w, w, b, Success, Changes(None, false, true, false), multiset{}, multiset{}); }
  }

  // ---- Import and log ----

  /** An import begins exactly for a build that is there and neither a success nor canceled. */
  lemma ImportBegins(w: World, b: Stamp)
    requires ImportJob(b) in w.jobs
    ensures Step(w, BeginImport(b)) ==
      if b in w.builds && w.builds[b].status !in {Success, Canceled}
      then w.(jobs := w.jobs - multiset{ImportJob(b)} + multiset{Importing(b, w.builds[b])})
      else w.(jobs := w.jobs - multiset{ImportJob(b)})
  {
  }

  /** The status and log an import leaves its build with, unless a pruning has removed it. */
  function Outcome(x: Build, seen: Build, o: ImportOutcome): Build {
    match o
    case Imported => x.(status := Success)
    case TimedOut =>
      x.(status := Failed,
         log := AnsiLog.Scrub(if Blank(seen.log) then TIMEOUT_LOG else seen.log + "\n\n" + TIMEOUT_LOG))
    case _ => x.(status := Failed)
  }

  lemma ImportLeaves(w: World, b: Stamp, seen: Build, o: ImportOutcome)
    requires b in w.builds && Importing(b, seen) in w.jobs
    ensures var w' := Step(w, EndImport(b, seen, o));
      && (b in w'.builds ==> w'.builds[b] == Outcome(w.builds[b], seen, o))
      && (o.DownloadFailed? || o.TimedOut? || o.Crashed? ==> b in w'.builds)
      && JobsMoved(w, w', b, multiset{Importing(b, seen)}, multiset{})
  {
    var w1, job := WithoutJob(w, Importing(b, seen)), multiset{Importing(b, seen)};
    hide Marked, AnsiLog.Scrub, Blank, Surplus, DestroyedEach;
    match o {
      case DownloadFailed => MarkLeaves(w, w1, b, Failed, NOTHING_ELSE, job, multiset{});
      case Crashed => MarkLeaves(w, w1, b, Failed, NOTHING_ELSE, job, multiset{});
      case TimedOut => MarkLeaves(w, w1, b, Failed, LogOnly(Appended(seen.log, TIMEOUT_LOG)), job, multiset{});
      case Imported => ImportedLeaves(w, b, seen);
      case CrashedAfterSuccess(k) => CrashLeaves(w, b, seen, k);
    }
  }

  lemma ImportedLeaves(w: World, b: Stamp, seen: Build)
    requires b in w.builds && Importing(b, seen) in w.jobs
    ensures var w' := Step(w, EndImport(b, seen, Imported));
      && (b in w'.builds ==> w'.builds[b] == w.builds[b].(status := Success))
      && JobsMoved(w, w', b, multiset{Importing(b, seen)}, multiset{})
  {
    hide Marked, Surplus, DestroyedEach;
    var w1, job := WithoutJob(w, Importing(b, seen)), multiset{Importing(b, seen)};
    var w2 := Marked(w1, b, Success, NOTHING_ELSE);
    MarkLeaves(w, w1, b, Success, NOTHING_ELSE, job, multiset{});
    DestroyedRows(w2, Surplus(w2, w.builds[b].target));
    DestroyingKeepsJobs(w2, Surplus(w2, w.builds[b].target));
  }

  lemma CrashLeaves(w: World, b: Stamp, seen: Build, k: nat)
    requires b in w.builds && Importing(b, seen) in w.jobs
    ensures var w' := Step(w, EndImport(b, seen, CrashedAfterSuccess(k)));
      && (b in w'.builds ==> w'.builds[b] == w.builds[b].(status := Failed))
      && JobsMoved(w, w', b, multiset{Importing(b, seen)}, multiset{})
  {
    hide Marked, Surplus, DestroyedEach;
    var w1, job := WithoutJob(w, Importing(b, seen)), multiset{Importing(b, seen)};
    var w2 := Marked(w1, b, Success, NOTHING_ELSE);
    var surplus := Surplus(w2, w.builds[b].target);
    var w3 := PrunedUpTo(w2, w.builds[b].target, k);
    MarkLeaves(w, w1, b, Success, NOTHING_ELSE, job, multiset{});
    DestroyedRows(w2, surplus[..Min(k, |surplus|)]);
    DestroyingKeepsJobs(w2, surplus[..Min(k, |surplus|)]);
    MarkKeepsOwnJobs(w3, b, Failed, NOTHING_ELSE);
    MarkKeepsRows(w3, b, Failed, NOTHING_ELSE);
    if b in w3.builds { MarkingItself(w3, b, Failed, NOTHING_ELSE); }
  }

  /** The whole log replaces what is kept of it, unless what came is blank; the status stays. */
  lemma FetchedLogIsKept(w: World, b: Stamp, body: Option<string>)
    requires b in w.builds && LogJob(b) in w.jobs && !w.builds[b].status.Queued?
    ensures var w', job := Step(w, FetchLog(b, body)), multiset{LogJob(b)};
      if body.Some? && !Blank(body.value) then
        Left(w, w', b, w.builds[b].(log := AnsiLog.Scrub(body.value)), job, multiset{})
      else w' == w.(jobs := w.jobs - job)
  {
    hide Marked, AnsiLog.Scrub, Blank;
    if body.Some? {
      var w1, job := WithoutJob(w, LogJob(b)), multiset{LogJob(b)};
      MarkLeaves(w, w1, b, w.builds[b].status, LogOnly(body.value), job, multiset{});
    }
  }

  // ---- Rows made and removed ----

  /** A new build of `t` is on its way, with its submission and first recheck, if fewer run than may; else queued. */
  lemma CreatingAdds(w: World, t: TargetId)
    requires t in w.targets
    ensures var w', starts := Step(w, CreateBuild(t)), |InFlightIn(w.builds)| < w.cap;
      && w'.clock == w.clock + 1 && w'.projects == w.projects && w'.targets.Keys == w.targets.Keys
      && w'.builds == w.builds[w.clock := Build(t, if starts then Pending else Queued, false, false, false, "")]
      && w'.jobs == w.jobs + if starts then multiset{SubmitJob(w.clock), RecheckJob(w.clock, 1)} else multiset{}
  {
    InsertFacts(w, t);
    hide Inserted, FreeSlots, Min;
  }

  /** A deleted build is gone, and nothing else is but the pointers to it; its jobs go on without it. */
  lemma DeletingRemoves(w: World, b: Stamp)
    ensures var w' := Step(w, DeleteBuild(b));
      && w'.builds == w.builds - {b} && w'.jobs == w.jobs && w'.projects == w.projects
      && w'.targets.Keys == w.targets.Keys
      && forall t :: t in w.targets ==>
           w'.targets[t].project == w.targets[t].project && w'.targets[t].published == w.targets[t].published
  {
    hide Newest;
    if b !in w.builds { assert w.builds - {b} == w.builds; }
  }

  // ---- Outputs and projects ----

  /**
   Publishing an output that serves nothing is refused. Otherwise its flag is set, and a private
   project whose output was not published before becomes unlisted; nothing else changes.
   */
  lemma PublishingSets(w: World, t: TargetId, published: bool)
    requires t in w.targets && w.targets[t].project in w.projects
    ensures var w', row := Step(w, Publish(t, published)), w.targets[t];
      var p := w.projects[row.project];
      if published && row.current.None? then w' == w
      else
        && w' == w.(targets := w'.targets, projects := w'.projects)
        && w'.targets == w.targets[t := row.(published := published)]
        && w'.projects == w.projects[row.project :=
             if published && !row.published && p.visibility.Private? then p.(visibility := Unlisted) else p]
  {
    assert w.projects[w.targets[t].project := w.projects[w.targets[t].project]] == w.projects;
  }

  /** Setting a visibility sets it, and going private unpublishes exactly the outputs of that project. */
  lemma VisibilitySets(w: World, p: ProjectId, v: Visibility)
    requires p in w.projects && w.projects[p].visibility != v
    ensures var w' := Step(w, SetVisibility(p, v));
      && w' == w.(targets := w'.targets, projects := w'.projects)
      && w'.projects == w.projects[p := w.projects[p].(visibility := v)]
      && w'.targets.Keys == w.targets.Keys
      && forall t :: t in w.targets ==>
           w'.targets[t] ==
             (if v == Private && w.targets[t].project == p then w.targets[t].(published := false) else w.targets[t])
  {
  }

  /** An edit stamps its project with the time, which is later than that of every build so far. */
  lemma EditingStamps(w: World, p: ProjectId)
    requires p in w.projects
    ensures Step(w, EditSource(p)) ==
      w.(clock := w.clock + 1, projects := w.projects[p := w.projects[p].(sourceUpdatedAt := w.clock)])
  {
  }

  /** A new output comes last on its project's dashboard, unpublished, with nothing built. */
  lemma AddingAppends(w: World, p: ProjectId)
    requires p in w.projects
    ensures var outputs := w.projects[p].outputs + [w.clock];
      Step(w, AddTarget(p)) ==
        w.(clock := w.clock + 1, targets := w.targets[w.clock := Target(p, false, None, None)],
           projects := w.projects[p := w.projects[p].(outputs := outputs)])
  {
  }
}
