/**
 Who may claim a finished build's output, and how often. Webhook and poll are told about the same
 build any number of times; what lets one of them claim it again is a step that put the build back
 to waiting, or an answer to a status check that was asked for before the build was decided.
 */
module Claims {
  import opened Options
  import opened Builds
  import opened Texts
  import opened BuildFacts
  import opened BuildQueue
  import opened BuildRuns
  import opened ImportAccounting
  import opened Outcomes
  import opened BuildRows

  // ---- What puts a build back in flight ----

  /** A submission job running, or getting its answer: neither looks at what became of the build. */
  predicate Resubmitting(w: World, a: Action, b: Stamp) {
    || (a == Submit(b) && SubmitJob(b) in w.jobs)
    || (a.SubmitReply? && a.build == b && a.answer.Accepted? && Submitting(b) in w.jobs)
  }

  /** The answer to a status check saying that there is output to import. */
  predicate ClaimingByCheck(w: World, a: Action, b: Stamp) {
    && a.CheckReply? && a.build == b && Checking(b) in w.jobs
    && a.reply.Answer? && (a.reply.report.Succeeded? || a.reply.report.FailedWithOutput?)
  }

  lemma AfterResubmitting(w: World, a: Action, b: Stamp)
    requires b in w.builds && Resubmitting(w, a, b)
    ensures var w' := Step(w, a);
      b in w'.builds && Waiting(w'.builds[b].status)
        && Counted(w.history, w'.history, b, w.builds[b].status, w'.builds[b].status)
  {
    hide Marked;
    if a.Submit? {
      MarkingItself(WithJob(WithoutJob(w, SubmitJob(b)), Submitting(b)), b, InProgress, NOTHING_ELSE);
    } else {
      MarkingItself(WithoutJob(w, Submitting(b)), b, SentToServer, Changes(None, false, false, a.answer.statusUrl));
    }
  }

  lemma AfterClaimByCheck(w: World, a: Action, b: Stamp)
    requires b in w.builds && ClaimingByCheck(w, a, b)
    ensures var w' := Step(w, a);
      b in w'.builds && w'.builds[b].status.ReceivedFromServer?
        && Counted(w.history, w'.history, b, w.builds[b].status, ReceivedFromServer)
  {
    hide Marked, InlineLog;
    if !w.builds[b].status.ReceivedFromServer? {
      var r := a.reply.report;
      MarkingItself(WithoutJob(w, Checking(b)), b, ReceivedFromServer,
        Changes(Some(InlineLog(r.tail)), r.FailedWithOutput?, false, false));
    }
  }

  /**
   An outcome is put back to waiting, a claimed build is put back to waiting, and an outcome is
   claimed, exactly by the steps named; by nothing else, and by those whatever else is going on.
   */
  lemma BackInFlightExactlyWhen(w: World, a: Action, b: Stamp)
    requires Orderly(w) && b in w.builds
    ensures var h, h', s := w.history, Step(w, a).history, w.builds[b].status;
      && (h'.resubmitted[b] > h.resubmitted[b] <==> Terminal(s) && Resubmitting(w, a, b))
      && (h'.reopened[b] > h.reopened[b] <==> s.ReceivedFromServer? && Resubmitting(w, a, b))
      && (h'.lateClaims[b] > h.lateClaims[b] <==> Terminal(s) && ClaimingByCheck(w, a, b))
  {
    hide Orderly, Step;
    EveryChangeIsExplained(w, a, b);
    if Resubmitting(w, a, b) {
      AfterResubmitting(w, a, b);
    } else if ClaimingByCheck(w, a, b) {
      AfterClaimByCheck(w, a, b);
    } else if b in Step(w, a).builds && Step(w, a).builds[b].status != w.builds[b].status {
      OtherCauses(w, a, b, Step(w, a).builds[b].status);
    }
  }

  /** The other causes of a change of status bring no outcome and no claimed build back. */
  lemma OtherCauses(w: World, a: Action, b: Stamp, after: Status)
    requires b in w.builds && !Resubmitting(w, a, b) && !ClaimingByCheck(w, a, b)
    requires (Caused(w, a, b, w.builds[b], after) && Subject(a) == Some(b))
      || (w.builds[b].status.Queued? && after.Pending?)
    ensures var s := w.builds[b].status;
      !(Terminal(s) && InFlight(after)) && !(s.ReceivedFromServer? && Waiting(after))
  {
  }

  // ---- Callbacks ----

  predicate AwaitsAnswer(w: World, b: Stamp) { b in w.builds && Waiting(w.builds[b].status) }

  lemma AfterRecording(w: World, b: Stamp, r: Report, moreLog: bool)
    requires AwaitsAnswer(w, b) && !r.SomethingElse?
    ensures var once := CalledBack(w, b, r, moreLog); b in once.builds && once.builds[b].status == StatusReported(r)
  {
    hide Marked, InlineLog;
    match r {
      case Succeeded(tail) =>
        MarkingItself(w, b, ReceivedFromServer, Changes(Some(InlineLog(tail)), false, false, false));
      case FailedWithOutput(tail) =>
        MarkingItself(w, b, ReceivedFromServer, Changes(Some(InlineLog(tail)), true, false, false));
      case FailedWithoutOutput(tail) => MarkingItself(w, b, Failed, LogOnly(InlineLog(tail)));
    }
  }

  /** A callback that carries an outcome does nothing at all exactly when its build is not waiting. */
  lemma CallbackDoesNothingExactlyWhen(w: World, b: Stamp, r: Report, moreLog: bool)
    requires !r.SomethingElse?
    ensures CalledBack(w, b, r, moreLog) == w <==> !AwaitsAnswer(w, b)
  {
    if AwaitsAnswer(w, b) { AfterRecording(w, b, r, moreLog); }
    hide Reported;
  }

  /** Gone, or past waiting for an answer. */
  predicate Answered(w: World, b: Stamp) {
    b in w.builds ==> !Waiting(w.builds[b].status) && !w.builds[b].status.Queued?
  }

  lemma AnsweredUnlessResubmitted(w: World, a: Action, b: Stamp)
    requires Orderly(w) && b < w.clock && Answered(w, b) && !(b in w.builds && Resubmitting(w, a, b))
    ensures Answered(Step(w, a), b) && b < Step(w, a).clock
  {
    StepAdvancesClock(w, a);
    if b in w.builds { EveryChangeIsExplained(w, a, b); } else { NothingReturns(w, a, b); }
    hide Orderly, Step;
    var w' := Step(w, a);
    if b in w.builds && b in w'.builds && w'.builds[b].status != w.builds[b].status {
      CausesThatWait(w, a, b, w'.builds[b].status);
    }
  }

  lemma CausesThatWait(w: World, a: Action, b: Stamp, after: Status)
    requires b in w.builds && Caused(w, a, b, w.builds[b], after) && Subject(a) == Some(b)
    ensures !after.Queued? && (Waiting(after) ==> Resubmitting(w, a, b))
  {
  }

  /** Step `k` of the run is one that puts the build back to waiting. */
  predicate ResubmittedAt(w: World, actions: seq<Action>, k: nat, b: Stamp) {
    && k < |actions|
    && b in Run(w, actions[..k]).builds && Resubmitting(Run(w, actions[..k]), actions[k], b)
  }

  lemma {:induction false} AnsweredUpTo(w: World, actions: seq<Action>, k: nat, b: Stamp)
    requires Invariant(w) && b < w.clock && Answered(w, b) && k <= |actions|
    requires forall j: nat :: j < k ==> !ResubmittedAt(w, actions, j, b)
    ensures Answered(Run(w, actions[..k]), b) && b < Run(w, actions[..k]).clock
  {
    if k > 0 {
      var front := actions[..k - 1];
      AnsweredUpTo(w, actions, k - 1, b);
      assert actions[..k][..k - 1] == front;
      assert Run(w, actions[..k]) == Step(Run(w, front), actions[k - 1]);
      assert !ResubmittedAt(w, actions, k - 1, b);
      assert Orderly(Run(w, front)) by { RunKeepsInvariant(w, front); }
      hide Invariant, Orderly, Step, Answered, Resubmitting;
      AnsweredUnlessResubmitted(Run(w, front), actions[k - 1], b);
    }
  }

  lemma WaitingAfterResubmitted(w: World, actions: seq<Action>, k: nat, b: Stamp)
    requires ResubmittedAt(w, actions, k, b)
    ensures AwaitsAnswer(Run(w, actions[..k + 1]), b)
  {
    assert actions[..k + 1][..k] == actions[..k];
    AfterResubmitting(Run(w, actions[..k]), actions[k], b);
    hide Step;
  }

  /**
   Once a callback has recorded an outcome, callbacks of that build do nothing at any point of
   what follows, exactly if no step puts the build back to waiting.
   */
  lemma LaterCallbacksDoNothingExactlyWhen(w: World, b: Stamp, r: Report, moreLog: bool,
                                           actions: seq<Action>, again: Report, moreLogAgain: bool)
    requires Invariant(w) && AwaitsAnswer(w, b) && !r.SomethingElse? && !again.SomethingElse?
    ensures var once := CalledBack(w, b, r, moreLog);
      (forall k: nat :: k <= |actions| ==>
         CalledBack(Run(once, actions[..k]), b, again, moreLogAgain) == Run(once, actions[..k]))
      <==> forall k: nat :: !ResubmittedAt(once, actions, k, b)
  {
    hide CalledBack, Run, ResubmittedAt, Answered, Invariant, AwaitsAnswer;
    RecordingAnswers(w, b, r, moreLog);
    CallbacksDoNothingExactlyWhen(CalledBack(w, b, r, moreLog), b, actions, again, moreLogAgain);
  }

  lemma RecordingAnswers(w: World, b: Stamp, r: Report, moreLog: bool)
    requires Invariant(w) && AwaitsAnswer(w, b) && !r.SomethingElse?
    ensures var once := CalledBack(w, b, r, moreLog); Invariant(once) && b < once.clock && Answered(once, b)
  {
    hide CalledBack, Invariant;
    InvariantAfterCallback(w, b, r, moreLog);
    AfterRecording(w, b, r, moreLog);
    BuildsAreOlder(CalledBack(w, b, r, moreLog), b);
  }

  lemma BuildsAreOlder(w: World, b: Stamp)
    requires Invariant(w) && b in w.builds
    ensures b < w.clock
  {
    hide Invariant;
    InvariantIsOrderly(w);
  }

  lemma CallbacksDoNothingExactlyWhen(w: World, b: Stamp, actions: seq<Action>, r: Report, moreLog: bool)
    requires Invariant(w) && b < w.clock && Answered(w, b) && !r.SomethingElse?
    ensures (forall k: nat :: k <= |actions| ==>
               CalledBack(Run(w, actions[..k]), b, r, moreLog) == Run(w, actions[..k]))
      <==> forall k: nat :: !ResubmittedAt(w, actions, k, b)
  {
    assert forall k: nat :: ResubmittedAt(w, actions, k, b) ==> k < |actions|;
    hide Invariant, CalledBack, Run, ResubmittedAt, AwaitsAnswer, Answered;
    if forall k: nat :: !ResubmittedAt(w, actions, k, b) {
      forall k: nat | k <= |actions| ensures CalledBack(Run(w, actions[..k]), b, r, moreLog) == Run(w, actions[..k]) {
        AnsweredUpTo(w, actions, k, b);
        AnsweredIsNotWaiting(Run(w, actions[..k]), b);
        CallbackDoesNothingExactlyWhen(Run(w, actions[..k]), b, r, moreLog);
      }
    } else {
      var k: nat :| ResubmittedAt(w, actions, k, b);
      WaitingAfterResubmitted(w, actions, k, b);
      CallbackDoesNothingExactlyWhen(Run(w, actions[..k + 1]), b, r, moreLog);
    }
  }

  lemma AnsweredIsNotWaiting(w: World, b: Stamp)
    requires Answered(w, b)
    ensures !AwaitsAnswer(w, b)
  {
  }

  // ---- Jobs for a status check, and imports ----

  /** No check of `b` asked for or answered, and nothing imported. */
  ghost predicate ClaimsNothing(w: World, w': World, b: Stamp) {
    w'.jobs[Checking(b)] == w.jobs[Checking(b)] && w'.history.imports == w.history.imports
  }

  lemma MarkClaimsNothing(w: World, id: Stamp, s: Status, ch: Changes, b: Stamp)
    requires s.Queued? && id in w.builds ==> w.builds[id].status.Queued?
    ensures ClaimsNothing(w, Marked(w, id, s, ch), b)
  {
    hide Marked;
    MarkStartsAtMostOne(w, id, s, ch);
  }

  /** A report imports once if it comes with output, and asks for no check. */
  lemma ReportImports(w: World, id: Stamp, r: Report, b: Stamp)
    ensures var w' := Reported(w, id, r);
      && w'.jobs[Checking(b)] == w.jobs[Checking(b)]
      && w'.history.imports == CountedIf(r.Succeeded? || r.FailedWithOutput?, w.history.imports, id)
  {
    hide Marked, InlineLog;
    match r {
      case Succeeded(tail) =>
        MarkClaimsNothing(w, id, ReceivedFromServer, Changes(Some(InlineLog(tail)), false, false, false), b);
      case FailedWithOutput(tail) =>
        MarkClaimsNothing(w, id, ReceivedFromServer, Changes(Some(InlineLog(tail)), true, false, false), b);
      case FailedWithoutOutput(tail) => MarkClaimsNothing(w, id, Failed, LogOnly(InlineLog(tail)), b);
      case SomethingElse =>
    }
  }

  lemma {:induction false} CreatingClaimsNothing(w: World, ts: seq<TargetId>, b: Stamp)
    ensures ClaimsNothing(w, CreatedEach(w, ts), b)
  {
    if ts != [] {
      CreatingClaimsNothing(w, ts[..|ts| - 1], b);
      InsertFacts(CreatedEach(w, ts[..|ts| - 1]), ts[|ts| - 1]);
    }
  }

  lemma ImportClaimsNothing(w: World, id: Stamp, seen: Build, o: ImportOutcome, b: Stamp)
    ensures ClaimsNothing(w, ImportEnded(w, id, seen, o), b)
  {
    hide Marked, Surplus, Appended, DestroyedEach;
    var w1 := WithoutJob(w, Importing(id, seen));
    var w2 := Marked(w1, id, Success, NOTHING_ELSE);
    MarkClaimsNothing(w1, id, Success, NOTHING_ELSE, b);
    MarkClaimsNothing(w1, id, Failed, NOTHING_ELSE, b);
    MarkClaimsNothing(w1, id, Failed, LogOnly(Appended(seen.log, TIMEOUT_LOG)), b);
    MarkClaimsNothing(w2, id, Failed, NOTHING_ELSE, b);
    var t := PruningTarget(w, id, seen);
    var surplus := Surplus(w2, t);
    DestroyingKeepsJobs(w2, surplus);
    if o.CrashedAfterSuccess? {
      DestroyingKeepsJobs(w2, surplus[..Min(o.pruned, |surplus|)]);
      MarkClaimsNothing(PrunedUpTo(w2, t, o.pruned), id, Failed, NOTHING_ELSE, b);
    }
  }

  lemma ChangingRowsClaimsNothing(w: World, a: Action, b: Stamp)
    requires a.CreateBuild? || a.BuildAll? || a.DeleteBuild? || a.Revert?
    ensures ClaimsNothing(w, Step(w, a), b)
  {
    hide CreatedEach, BulkCandidates, Synced, FreeSlots, PreviousLive;
    match a {
      case CreateBuild(t) => InsertFacts(w, t);
      case BuildAll(p) => if p in w.projects { CreatingClaimsNothing(w, BulkCandidates(w, p), b); }
      case _ => DestroyedClaimsNothing(w);
    }
  }

  lemma DestroyedClaimsNothing(w: World)
    ensures forall id, b :: ClaimsNothing(w, Destroyed(w, id), b)
  {
  }

  lemma CancelingClaimsNothing(w: World, id: Stamp, stopped: bool, b: Stamp)
    ensures ClaimsNothing(w, CancelRequested(w, id), b) && ClaimsNothing(w, CancelAnswered(w, id, stopped), b)
  {
    hide Marked;
    MarkClaimsNothing(w, id, Canceled, LogOnly(CANCEL_LOG), b);
    MarkClaimsNothing(WithoutJob(w, Canceling(id)), id, Canceled, LogOnly(CANCEL_LOG), b);
  }

  lemma AcceptingClaimsNothing(w: World, id: Stamp, b: Stamp)
    ensures ClaimsNothing(w, ErrorsAccepted(w, id), b)
  {
    hide Marked;
    MarkClaimsNothing(w, id, Success, Changes(None, false, true, false), b);
  }

  lemma AuthorsClaimNothing(w: World, a: Action, b: Stamp)
    requires FromAuthor(a)
    ensures ClaimsNothing(w, Step(w, a), b)
  {
    if a.CreateBuild? || a.BuildAll? || a.DeleteBuild? || a.Revert? {
      hide Step;
      ChangingRowsClaimsNothing(w, a, b);
    } else {
      hide CancelRequested, CancelAnswered, ErrorsAccepted;
      match a {
        case RequestCancel(id) => CancelingClaimsNothing(w, id, false, b);
        case CancelReply(id, stopped) => CancelingClaimsNothing(w, id, stopped, b);
        case AcceptErrors(id) => AcceptingClaimsNothing(w, id, b);
        case _ =>
      }
    }
  }

  /** How many checks of `b` wait for their answer; a new one only while the build is undecided. */
  ghost predicate ChecksMoved(w: World, w': World, b: Stamp) {
    var n, n' := w.jobs[Checking(b)], w'.jobs[Checking(b)];
    && w'.history.imports == w.history.imports
    && (n' == n || (n' == n + 1 && b in w'.builds && !Terminal(w'.builds[b].status)))
  }

  lemma AdvanceMovesChecks(w: World, id: Stamp, stalled: bool, b: Stamp)
    requires id in w.builds
    ensures ChecksMoved(w, Advanced(w, id, stalled), b)
  {
    hide Marked, Appended;
    MarkClaimsNothing(w, id, Failed, LogOnly(Appended(w.builds[id].log, STALLED_LOG)), b);
  }

  lemma RecheckMovesChecks(w: World, id: Stamp, k: nat, stalled: bool, b: Stamp)
    ensures ChecksMoved(w, Rechecked(w, id, k, stalled), b)
  {
    hide Advanced;
    if id in w.builds { AdvanceMovesChecks(WithoutJob(w, RecheckJob(id, k)), id, stalled, b); }
  }

  lemma SubmittingClaimsNothing(w: World, a: Action, b: Stamp)
    requires a.Submit? || a.SubmitReply?
    ensures ClaimsNothing(w, Step(w, a), b)
  {
    hide Marked;
    match a {
      case Submit(id) =>
        MarkClaimsNothing(WithJob(WithoutJob(w, SubmitJob(id)), Submitting(id)), id, InProgress, NOTHING_ELSE, b);
      case SubmitReply(id, answer) =>
        var w1 := WithoutJob(w, Submitting(id));
        MarkClaimsNothing(w1, id, Failed, NOTHING_ELSE, b);
        if answer.Accepted? {
          MarkClaimsNothing(w1, id, SentToServer, Changes(None, false, false, answer.statusUrl), b);
        }
    }
  }

  lemma FetchingClaimsNothing(w: World, id: Stamp, body: Option<string>, b: Stamp)
    ensures ClaimsNothing(w, LogFetched(w, id, body), b)
  {
    hide Marked, Blank;
    if id in w.builds && body.Some? {
      MarkClaimsNothing(WithoutJob(w, LogJob(id)), id, w.builds[id].status, LogOnly(body.value), b);
    }
  }

  lemma RequestMovesChecks(w: World, id: Stamp, b: Stamp)
    ensures ChecksMoved(w, CheckRequested(w, id), b)
  {
  }

  lemma BeginningClaimsNothing(w: World, id: Stamp, b: Stamp)
    ensures ClaimsNothing(w, ImportBegun(w, id), b)
  {
  }

  lemma JobsMoveChecks(w: World, a: Action, b: Stamp)
    requires a.RequestCheck? || a.Recheck? || a.BeginImport? || a.EndImport? || a.FetchLog?
    ensures ChecksMoved(w, Step(w, a), b)
  {
    hide CheckRequested, ImportBegun, ImportEnded, Rechecked, LogFetched;
    match a {
      case RequestCheck(id) => RequestMovesChecks(w, id, b);
      case Recheck(id, k, stalled) => RecheckMovesChecks(w, id, k, stalled, b);
      case BeginImport(id) => BeginningClaimsNothing(w, id, b);
      case EndImport(id, seen, o) => ImportClaimsNothing(w, id, seen, o, b);
      case FetchLog(id, body) => FetchingClaimsNothing(w, id, body, b);
    }
  }

  lemma CallbackMovesChecks(w: World, id: Stamp, r: Report, moreLog: bool, b: Stamp)
    ensures var w' := CalledBack(w, id, r, moreLog);
      && w'.jobs[Checking(b)] == w.jobs[Checking(b)]
      && w'.history.imports[b] == w.history.imports[b] + One(Claiming(w, Callback(id, r, moreLog), b))
  {
    hide Marked, Reported;
    ReportImports(w, id, r, b);
  }

  lemma CheckReplyMovesChecks(w: World, id: Stamp, reply: CheckAnswer, b: Stamp)
    ensures var n, w' := w.jobs[Checking(b)], CheckAnswered(w, id, reply);
      && w'.jobs[Checking(b)] == (if id == b && n > 0 then n - 1 else n)
      && w'.history.imports[b] == w.history.imports[b] + One(Claiming(w, CheckReply(id, reply), b))
  {
    hide Marked, Reported;
    if reply.Answer? { ReportImports(WithoutJob(w, Checking(id)), id, reply.report, b); }
  }

  /** What an answer does: one check fewer waits if it answers one, and output is imported if claimed. */
  lemma AnswersMoveChecks(w: World, a: Action, b: Stamp)
    requires a.Callback? || a.CheckReply?
    ensures var n, n' := w.jobs[Checking(b)], Step(w, a).jobs[Checking(b)];
      && n' == (if a.CheckReply? && a.build == b && n > 0 then n - 1 else n)
      && Step(w, a).history.imports[b] == w.history.imports[b] + One(Claiming(w, a, b))
  {
    hide CalledBack, CheckAnswered, Claiming;
    match a {
      case Callback(id, r, moreLog) => CallbackMovesChecks(w, id, r, moreLog, b);
      case CheckReply(id, reply) => CheckReplyMovesChecks(w, id, reply, b);
    }
  }

  lemma OthersMoveChecks(w: World, a: Action, b: Stamp)
    requires !a.Callback? && !a.CheckReply?
    ensures ChecksMoved(w, Step(w, a), b)
  {
    hide Step;
    if FromAuthor(a) {
      AuthorsClaimNothing(w, a, b);
    } else if a.Submit? || a.SubmitReply? {
      SubmittingClaimsNothing(w, a, b);
    } else {
      JobsMoveChecks(w, a, b);
    }
  }

  /** A check is asked for while its build is undecided, and only an answer to one takes it away. */
  lemma ChecksAreAskedForInTime(w: World, a: Action, b: Stamp)
    ensures var n, n' := w.jobs[Checking(b)], Step(w, a).jobs[Checking(b)];
      if a.CheckReply? && a.build == b then n' == (if n > 0 then n - 1 else 0)
      else n' == n || (n' == n + 1 && b in Step(w, a).builds && !Terminal(Step(w, a).builds[b].status))
  {
    hide Step;
    if a.Callback? || a.CheckReply? { AnswersMoveChecks(w, a, b); } else { OthersMoveChecks(w, a, b); }
  }

  /** A webhook reporting output for a build that waits for it. */
  predicate ClaimingByCallback(w: World, a: Action, b: Stamp) {
    a.Callback? && a.build == b && (a.report.Succeeded? || a.report.FailedWithOutput?) && AwaitsAnswer(w, b)
  }

  /** The step claims `b`'s output. */
  predicate Claiming(w: World, a: Action, b: Stamp) {
    || ClaimingByCallback(w, a, b)
    || (ClaimingByCheck(w, a, b) && b in w.builds && !w.builds[b].status.ReceivedFromServer?)
  }

  /** A step enqueues an import of a build exactly if it claims its output, and then one. */
  lemma ImportsAreClaims(w: World, a: Action, b: Stamp)
    ensures Step(w, a).history.imports[b] == w.history.imports[b] + One(Claiming(w, a, b))
  {
    hide Step;
    if a.Callback? || a.CheckReply? { AnswersMoveChecks(w, a, b); } else { OthersMoveChecks(w, a, b); }
  }

  // ---- A build that is gone ----

  /** Nothing is counted for a build without a row. */
  lemma NothingCountedWithoutRow(w: World, a: Action, b: Stamp)
    requires b !in w.builds
    ensures SameCounts(w.history, Step(w, a).history, b)
  {
    hide Created, CreatedEach, Marked, Reported, BulkCandidates, DestroyedEach, Surplus;
    if Subject(a) != Some(b) && !a.CreateBuild? && !a.BuildAll? {
      hide Step;
      StepsAboutOthers(w, a, b);
    } else {
      match a {
        case CreateBuild(t) => CreateCountsNothing(w, t);
        case BuildAll(p) => if p in w.projects { CreatingCountsNothing(w, BulkCandidates(w, p)); }
        case CancelReply(_, _) => MarkingAnother(WithoutJob(w, Canceling(b)), b, Canceled, LogOnly(CANCEL_LOG), b);
        case SubmitReply(_, answer) =>
          var w1 := WithoutJob(w, Submitting(b));
          MarkingAnother(w1, b, Failed, NOTHING_ELSE, b);
          if answer.Accepted? { MarkingAnother(w1, b, SentToServer, Changes(None, false, false, answer.statusUrl), b); }
        case EndImport(_, seen, o) => ImportCountsNothing(w, seen, o, b);
        case _ =>
      }
    }
  }

  lemma CreateCountsNothing(w: World, t: TargetId)
    ensures forall b :: SameCounts(w.history, Created(w, t).history, b)
  {
    InsertFacts(w, t);
  }

  lemma {:induction false} CreatingCountsNothing(w: World, ts: seq<TargetId>)
    ensures forall b :: SameCounts(w.history, CreatedEach(w, ts).history, b)
  {
    hide Created;
    if ts != [] {
      var w1 := CreatedEach(w, ts[..|ts| - 1]);
      CreatingCountsNothing(w, ts[..|ts| - 1]);
      CreateCountsNothing(w1, ts[|ts| - 1]);
      var w2 := Created(w1, ts[|ts| - 1]);
      assert CreatedEach(w, ts) == w2;
      forall b ensures SameCounts(w.history, w2.history, b) {
        assert SameCounts(w.history, w1.history, b) && SameCounts(w1.history, w2.history, b);
      }
    }
  }

  lemma ImportCountsNothing(w: World, seen: Build, o: ImportOutcome, b: Stamp)
    requires b !in w.builds
    ensures SameCounts(w.history, ImportEnded(w, b, seen, o).history, b)
  {
    hide Marked, Surplus, DestroyedEach, Appended;
    var w1 := WithoutJob(w, Importing(b, seen));
    var w2 := Marked(w1, b, Success, NOTHING_ELSE);
    MarkingAnother(w1, b, Success, NOTHING_ELSE, b);
    MarkingAnother(w1, b, Failed, NOTHING_ELSE, b);
    MarkingAnother(w1, b, Failed, LogOnly(Appended(seen.log, TIMEOUT_LOG)), b);
    var surplus := Surplus(w2, seen.target);
    DestroyingMany(w2, surplus, b);
    if o.CrashedAfterSuccess? {
      DestroyingMany(w2, surplus[..Min(o.pruned, |surplus|)], b);
      MarkingAnother(PrunedUpTo(w2, seen.target, o.pruned), b, Failed, NOTHING_ELSE, b);
    }
  }

  // ---- Whole runs ----

  /** Every check is answered before anything else happens: `check!` taken as one step. */
  ghost predicate PromptChecks(w: World, actions: seq<Action>, b: Stamp) {
    forall k :: 0 <= k < |actions| && Checking(b) in Run(w, actions[..k]).jobs ==>
      actions[k].CheckReply? && actions[k].build == b
  }

  /** At most one check of `b` is out, and `b` is undecided while it is. */
  predicate CheckedInTime(w: World, b: Stamp) {
    && w.jobs[Checking(b)] <= 1
    && (Checking(b) in w.jobs ==> b in w.builds && !Terminal(w.builds[b].status))
  }

  lemma PromptStepClaimsInTime(w: World, a: Action, b: Stamp)
    requires Orderly(w) && CheckedInTime(w, b)
    requires Checking(b) in w.jobs ==> a.CheckReply? && a.build == b
    ensures CheckedInTime(Step(w, a), b) && Step(w, a).history.lateClaims[b] == w.history.lateClaims[b]
  {
    ChecksAreAskedForInTime(w, a, b);
    if b in w.builds {
      BackInFlightExactlyWhen(w, a, b);
      CountsNeverFall(w, a, b);
    } else {
      NothingCountedWithoutRow(w, a, b);
    }
    hide Step, Orderly;
  }

  lemma CountsNeverFall(w: World, a: Action, b: Stamp)
    requires Orderly(w) && b in w.builds
    ensures Step(w, a).history.lateClaims[b] >= w.history.lateClaims[b]
  {
    EveryChangeIsExplained(w, a, b);
    hide Step, Orderly;
  }

  lemma {:induction false} PromptChecksClaimInTime(w: World, actions: seq<Action>, b: Stamp)
    requires Fresh(w) && PromptChecks(w, actions, b)
    ensures CheckedInTime(Run(w, actions), b) && Run(w, actions).history.lateClaims[b] == 0
  {
    if actions != [] {
      var n := |actions| - 1;
      var front, a := actions[..n], actions[n];
      var w1 := Run(w, front);
      assert forall k :: 0 <= k < n ==> front[..k] == actions[..k];
      assert Run(w, actions) == Step(w1, a);
      assert Orderly(w1) by { ReachableWorldsAreInvariant(w, front); }
      hide Step, Orderly, Run, Fresh;
      PromptChecksClaimInTime(w, front, b);
      PromptStepClaimsInTime(w1, a, b);
    }
  }

  /**
   A build's output is imported at most once, plus once for every time it came to wait for the
   build server again, plus once for every outcome a check claimed; and no check claims an
   outcome as long as each is answered before anything else happens.
   */
  lemma ImportsAreBounded(w: World, actions: seq<Action>, b: Stamp)
    requires Fresh(w)
    ensures var h := Run(w, actions).history; h.imports[b] <= 1 + h.Reentered()[b] + h.lateClaims[b]
    ensures PromptChecks(w, actions, b) ==>
      var h := Run(w, actions).history; h.imports[b] <= 1 + h.Reentered()[b]
  {
    ReachableWorldsAreInvariant(w, actions);
    var w' := Run(w, actions);
    assert Accounts(w');
    hide Invariant, Run;
    assert w'.history.imports[b] + Claimable(w'.builds, b) <= Allowance(w', b);
    if PromptChecks(w, actions, b) { PromptChecksClaimInTime(w, actions, b); }
  }
}
