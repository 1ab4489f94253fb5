/**
 When an outcome is final: exactly which jobs, still to run or to be answered, can change the
 status of a build that has one.
 */
module Finality {
  import opened Options
  import opened Builds
  import opened Texts
  import opened BuildQueue
  import opened BuildRuns
  import opened Outcomes
  import opened BuildRows
  import opened Retention

  /** A job that can still turn the outcome `s` into another status. */
  predicate CanChange(j: Job, s: Status) {
    match j
    case SubmitJob(_) => true
    case Submitting(_) => true
    case Checking(_) => true
    case Importing(_, _) => true
    case ImportJob(_) => s.Failed?
    case Canceling(_) => !s.Canceled?
    case LogJob(_) => false
    case RecheckJob(_, _) => false
  }

  predicate NoneCanChange(jobs: multiset<Job>, b: Stamp, s: Status) {
    forall j :: j in jobs && j.build == b ==> !CanChange(j, s)
  }

  /** Decided, with no job left that could decide it differently. */
  ghost predicate Final(w: World, b: Stamp)
    requires b in w.builds
  {
    Terminal(w.builds[b].status) && NoneCanChange(w.jobs, b, w.builds[b].status)
  }

  // ---- A final outcome stays ----

  lemma NoCauseWhenFinal(w: World, a: Action, b: Stamp, after: Status)
    requires b in w.builds && Final(w, b) && after != w.builds[b].status
    ensures !Caused(w, a, b, w.builds[b], after)
  {
    var s := w.builds[b].status;
    assert CanChange(SubmitJob(b), s) && CanChange(Submitting(b), s) && CanChange(Checking(b), s);
    assert forall seen :: CanChange(Importing(b, seen), s);
    assert !s.Canceled? ==> CanChange(Canceling(b), s);
  }

  /** `jobs'` has no job of `b` that `jobs` has not. */
  ghost predicate NoneAdded(jobs: multiset<Job>, jobs': multiset<Job>, b: Stamp) {
    forall j :: j in jobs' && j.build == b ==> j in jobs
  }

  lemma AcceptingAddsNoJob(w: World, b: Stamp)
    requires b in w.builds
    ensures NoneAdded(w.jobs, ErrorsAccepted(w, b).jobs, b)
  {
    hide Marked;
    MarkingItself(w, b, Success, Changes(None, false, true, false));
  }

  lemma CancelAnswerAddsNoJob(w: World, b: Stamp, stopped: bool)
    requires b in w.builds
    ensures NoneAdded(w.jobs, CancelAnswered(w, b, stopped).jobs, b)
  {
    hide Marked;
    MarkingItself(WithoutJob(w, Canceling(b)), b, Canceled, LogOnly(CANCEL_LOG));
  }

  lemma FetchingAddsNoJob(w: World, b: Stamp, body: Option<string>)
    requires b in w.builds && !w.builds[b].status.Queued?
    ensures NoneAdded(w.jobs, LogFetched(w, b, body).jobs, b)
  {
    hide Marked, Blank;
    if body.Some? { MarkingItself(WithoutJob(w, LogJob(b)), b, w.builds[b].status, LogOnly(body.value)); }
  }

  lemma RefusedWhenDecided(w: World, b: Stamp, r: Report, moreLog: bool)
    requires b in w.builds && Terminal(w.builds[b].status)
    ensures CancelRequested(w, b) == w && CalledBack(w, b, r, moreLog) == w
  {
  }

  lemma MarkedJobsOfAFinalBuild(w: World, a: Action, b: Stamp)
    requires b in w.builds && Terminal(w.builds[b].status) && NoneCanChange(w.jobs, b, w.builds[b].status)
    requires a.AcceptErrors? || a.CancelReply? || a.FetchLog? || a.RequestCancel? || a.Callback?
    requires Subject(a) == Some(b)
    ensures NoneCanChange(Step(w, a).jobs, b, w.builds[b].status)
  {
    hide NoneCanChange, NoneAdded, ErrorsAccepted, CancelAnswered, LogFetched, CancelRequested, CalledBack;
    match a {
      case AcceptErrors(_) => AcceptingAddsNoJob(w, b);
      case FetchLog(_, body) => FetchingAddsNoJob(w, b, body);
      case CancelReply(_, stopped) => CancelAnswerAddsNoJob(w, b, stopped);
      case RequestCancel(_) => RefusedWhenDecided(w, b, SomethingElse, false);
      case Callback(_, r, moreLog) => RefusedWhenDecided(w, b, r, moreLog);
    }
    if Step(w, a) != w { NoJobMore(w.jobs, Step(w, a).jobs, b, w.builds[b].status); }
  }

  lemma NoJobMore(jobs: multiset<Job>, jobs': multiset<Job>, b: Stamp, s: Status)
    requires NoneCanChange(jobs, b, s) && NoneAdded(jobs, jobs', b)
    ensures NoneCanChange(jobs', b, s)
  {
  }

  lemma QuietJobsOfAFinalBuild(w: World, a: Action, b: Stamp)
    requires b in w.builds && Terminal(w.builds[b].status) && NoneCanChange(w.jobs, b, w.builds[b].status)
    requires a.Submit? || a.SubmitReply? || a.CheckReply? || a.EndImport? || a.BeginImport? || a.RequestCheck?
      || a.Recheck?
             || a.DeleteBuild?
    requires Subject(a) == Some(b)
    ensures NoneCanChange(Step(w, a).jobs, b, w.builds[b].status)
  {
    var s := w.builds[b].status;
    assert CanChange(SubmitJob(b), s) && CanChange(Submitting(b), s) && CanChange(Checking(b), s);
    assert a.EndImport? ==> CanChange(Importing(b, a.seen), s);
    assert s.Failed? ==> CanChange(ImportJob(b), s);
    hide Marked, CanChange, Pruned, PrunedUpTo, Reported, Appended, Synced;
  }

  lemma JobsOfAFinalBuild(w: World, a: Action, b: Stamp)
    requires b in w.builds && Final(w, b) && Subject(a) == Some(b)
    ensures NoneCanChange(Step(w, a).jobs, b, w.builds[b].status)
  {
    FinalMeans(w, b);
    hide Step, Final, CanChange, NoneCanChange;
    if a.AcceptErrors? || a.CancelReply? || a.FetchLog? || a.RequestCancel? || a.Callback? {
      MarkedJobsOfAFinalBuild(w, a, b);
    } else {
      QuietJobsOfAFinalBuild(w, a, b);
    }
  }

  lemma FinalMeans(w: World, b: Stamp)
    requires b in w.builds && Final(w, b)
    ensures Terminal(w.builds[b].status) && NoneCanChange(w.jobs, b, w.builds[b].status)
  {
  }

  /** No step changes a final outcome, or leaves behind a job that could. */
  lemma FinalStaysFinal(w: World, a: Action, b: Stamp)
    requires Orderly(w) && b in w.builds && Final(w, b)
    ensures b in Step(w, a).builds ==> Final(Step(w, a), b) && Step(w, a).builds[b].status == w.builds[b].status
  {
    assert b < w.clock;
    EveryChangeIsExplained(w, a, b);
    hide Orderly, Step;
    var w' := Step(w, a);
    if b in w'.builds {
      if w'.builds[b].status != w.builds[b].status { NoCauseWhenFinal(w, a, b, w'.builds[b].status); }
      hide Explained;
      if Subject(a) == Some(b) {
        JobsOfAFinalBuild(w, a, b);
      } else {
        StepsAboutOthers(w, a, b);
      }
    }
  }

  lemma {:induction false} FinalForever(w: World, actions: seq<Action>, b: Stamp)
    requires Invariant(w) && b in w.builds && Final(w, b) && b in Run(w, actions).builds
    ensures Final(Run(w, actions), b) && Run(w, actions).builds[b].status == w.builds[b].status
  {
    if actions != [] {
      var front, a := actions[..|actions| - 1], actions[|actions| - 1];
      var w1 := Run(w, front);
      assert Run(w, actions) == Step(w1, a);
      assert Orderly(w) && Orderly(w1) by { RunKeepsInvariant(w, front); }
      hide Step, Final, Run, Invariant;
      RunOnlyMovesOn(w, actions, |front|);
      BuildStaysWhileItIsThere(w, w1, a, front, b);
      FinalForever(w, front, b);
      FinalStaysFinal(w1, a, b);
    }
  }

  lemma BuildStaysWhileItIsThere(w: World, w1: World, a: Action, front: seq<Action>, b: Stamp)
    requires Orderly(w) && b in w.builds && w1 == Run(w, front) && b in Step(w1, a).builds
    ensures b in w1.builds
  {
    assert b < w.clock;
    hide Step, Run, Orderly;
    RunOnlyMovesOn(w, front, 0);
    assert front[..0] == [] && Run(w, []) == w by { RunOfNothing(w); }
    if b !in w1.builds { NothingReturns(w1, a, b); }
  }

  lemma RunOfNothing(w: World)
    ensures Run(w, []) == w
  {
  }

  // ---- Any other does not ----

  /** Some continuation finds the build with another status. */
  ghost predicate Changeable(w: World, b: Stamp)
    requires b in w.builds
  {
    exists actions :: b in Run(w, actions).builds && Run(w, actions).builds[b].status != w.builds[b].status
  }

  lemma {:induction false} RunInTwo(w: World, xs: seq<Action>, ys: seq<Action>)
    ensures Run(w, xs + ys) == Run(Run(w, xs), ys)
  {
    if ys == [] {
      assert xs + ys == xs;
    } else {
      var front := ys[..|ys| - 1];
      assert (xs + ys)[..|xs + ys| - 1] == xs + front;
      hide Step;
      RunInTwo(w, xs, front);
    }
  }

  lemma RunOfOne(w: World, a: Action)
    ensures Run(w, [a]) == Step(w, a)
  {
    assert [a][..0] == [];
    hide Step;
  }

  lemma ChangedByOneStep(w: World, a: Action, b: Stamp)
    requires b in w.builds && b in Step(w, a).builds && Step(w, a).builds[b].status != w.builds[b].status
    ensures Changeable(w, b)
  {
    hide Step, Run;
    RunOfOne(w, a);
    assert b in Run(w, [a]).builds && Run(w, [a]).builds[b].status != w.builds[b].status;
  }

  /** Steps that leave the status may be taken first. */
  lemma ChangedLater(w: World, xs: seq<Action>, b: Stamp)
    requires b in w.builds && b in Run(w, xs).builds && Run(w, xs).builds[b].status == w.builds[b].status
    requires Changeable(Run(w, xs), b)
    ensures Changeable(w, b)
  {
    hide Run;
    var ys :| b in Run(Run(w, xs), ys).builds && Run(Run(w, xs), ys).builds[b].status != w.builds[b].status;
    RunInTwo(w, xs, ys);
    assert b in Run(w, xs + ys).builds && Run(w, xs + ys).builds[b].status != w.builds[b].status;
  }

  function Deletes(ids: seq<Stamp>): seq<Action> { seq(|ids|, i requires 0 <= i < |ids| => DeleteBuild(ids[i])) }

  lemma {:induction false} DeletingOthers(w: World, ids: seq<Stamp>)
    ensures var w' := Run(w, Deletes(ids)); w'.jobs == w.jobs && w'.builds == w.builds - (set x | x in ids)
  {
    if ids == [] {
      assert w.builds - (set x | x in ids) == w.builds;
    } else {
      var front, last := ids[..|ids| - 1], ids[|ids| - 1];
      var w1 := Run(w, Deletes(front));
      assert Deletes(ids) == Deletes(front) + [DeleteBuild(last)];
      assert Run(w, Deletes(ids)) == Step(w1, DeleteBuild(last)) by {
        RunInTwo(w, Deletes(front), [DeleteBuild(last)]);
        RunOfOne(w1, DeleteBuild(last));
      }
      hide Run, Deletes, Step;
      DeletingOthers(w, front);
      DeletingOne(w1, last);
      var gone := set x | x in front;
      assert (set x | x in ids) == gone + {last};
      assert w.builds - gone - {last} == w.builds - (gone + {last});
    }
  }

  lemma DeletingOne(w: World, id: Stamp)
    ensures var w' := Step(w, DeleteBuild(id)); w'.jobs == w.jobs && w'.builds == w.builds - {id}
  {
    assert id !in w.builds ==> w.builds - {id} == w.builds;
  }

  /** With every other build gone, an import that succeeds turns a failure into a success. */
  lemma FailureCanBeOverwritten(w: World, b: Stamp, seen: Build)
    requires b in w.builds && w.builds[b].status.Failed? && Importing(b, seen) in w.jobs
    ensures Changeable(w, b)
  {
    var others := Descending(w.builds.Keys - {b});
    var w1 := Run(w, Deletes(others));
    DeletingOthers(w, others);
    assert (set x | x in others) == w.builds.Keys - {b};
    assert w1.builds.Keys == {b} && w1.builds[b] == w.builds[b];
    hide Run, Deletes, Descending;
    OnlyBuildTurnsSuccess(w1, b, seen);
    ChangedByOneStep(w1, EndImport(b, seen, Imported), b);
    ChangedLater(w, Deletes(others), b);
  }

  lemma OnlyBuildTurnsSuccess(w: World, b: Stamp, seen: Build)
    requires w.builds.Keys == {b} && Importing(b, seen) in w.jobs
    ensures var w' := Step(w, EndImport(b, seen, Imported)); b in w'.builds && w'.builds[b].status.Success?
  {
    hide Marked, Pruned;
    var w1 := WithoutJob(w, Importing(b, seen));
    MarkKeepsRows(w1, b, Success, NOTHING_ELSE);
    MarkingItself(w1, b, Success, NOTHING_ELSE);
    OnlyBuildIsKept(Marked(w1, b, Success, NOTHING_ELSE), b);
  }

  lemma ChangedByMark(w: World, a: Action, w1: World, b: Stamp, s: Status, ch: Changes)
    requires b in w.builds && w1.builds == w.builds && !s.Queued? && s != w.builds[b].status
    requires Step(w, a) == Marked(w1, b, s, ch)
    ensures Changeable(w, b)
  {
    hide Step, Marked;
    MarkingItself(w1, b, s, ch);
    ChangedByOneStep(w, a, b);
  }

  lemma ImportingCanChange(w: World, b: Stamp, seen: Build)
    requires b in w.builds && Importing(b, seen) in w.jobs
    ensures Changeable(w, b)
  {
    hide Marked, Changeable;
    if w.builds[b].status.Failed? {
      FailureCanBeOverwritten(w, b, seen);
    } else {
      ChangedByMark(w, EndImport(b, seen, Crashed), WithoutJob(w, Importing(b, seen)), b, Failed, NOTHING_ELSE);
    }
  }

  lemma WaitingImportCanChange(w: World, b: Stamp)
    requires b in w.builds && w.builds[b].status.Failed? && ImportJob(b) in w.jobs
    ensures Changeable(w, b)
  {
    var w1 := ImportBegun(w, b);
    assert Importing(b, w1.builds[b]) in w1.jobs && w1.builds == w.builds;
    RunOfOne(w, BeginImport(b));
    hide Changeable, Run;
    ImportingCanChange(w1, b, w1.builds[b]);
    ChangedLater(w, [BeginImport(b)], b);
  }

  lemma CheckCanChange(w: World, b: Stamp)
    requires b in w.builds && Terminal(w.builds[b].status) && Checking(b) in w.jobs
    ensures Changeable(w, b)
  {
    hide Marked, InlineLog, Changeable;
    var w1 := WithoutJob(w, Checking(b));
    MarkingItself(w1, b, ReceivedFromServer, Changes(Some(InlineLog("")), false, false, false));
    ChangedByOneStep(w, CheckReply(b, Answer(Succeeded(""))), b);
  }

  lemma JobCanChange(w: World, b: Stamp, j: Job)
    requires b in w.builds && Terminal(w.builds[b].status)
    requires j in w.jobs && j.build == b && CanChange(j, w.builds[b].status)
    ensures Changeable(w, b)
  {
    hide Marked, InlineLog, Changeable;
    var w1 := WithoutJob(w, j);
    match j {
      case SubmitJob(_) => ChangedByMark(w, Submit(b), WithJob(w1, Submitting(b)), b, InProgress, NOTHING_ELSE);
      case Submitting(_) =>
        ChangedByMark(w, SubmitReply(b, Accepted(false)), w1, b, SentToServer, Changes(None, false, false, false));
      case Checking(_) => CheckCanChange(w, b);
      case Canceling(_) => ChangedByMark(w, CancelReply(b, true), w1, b, Canceled, LogOnly(CANCEL_LOG));
      case Importing(_, seen) => ImportingCanChange(w, b, seen);
      case ImportJob(_) => WaitingImportCanChange(w, b);
    }
  }

  /** A build without an outcome can always still be canceled. */
  lemma UndecidedCanChange(w: World, b: Stamp)
    requires b in w.builds && Unresolved(w.builds[b].status)
    ensures Changeable(w, b)
  {
    hide Marked, Changeable;
    if w.builds[b].hasStatusUrl {
      CancelWithUrlCanChange(w, b);
    } else {
      ChangedByMark(w, RequestCancel(b), w, b, Canceled, LogOnly(CANCEL_LOG));
    }
  }

  lemma CancelWithUrlCanChange(w: World, b: Stamp)
    requires b in w.builds && Unresolved(w.builds[b].status) && w.builds[b].hasStatusUrl
    ensures Changeable(w, b)
  {
    hide Marked, Changeable, Run;
    var w1 := CancelRequested(w, b);
    assert w1.builds == w.builds && Canceling(b) in w1.jobs;
    ChangedByMark(w1, CancelReply(b, true), WithoutJob(w1, Canceling(b)), b, Canceled, LogOnly(CANCEL_LOG));
    RunOfOne(w, RequestCancel(b));
    ChangedLater(w, [RequestCancel(b)], b);
  }

  /**
   A build keeps its status for as long as it exists, whatever happens, exactly when it is
   decided and no job is left that could decide it differently: none submitting it, checking it
   or importing it, no import waiting to run but beside a success or a cancel, which it would
   not touch, and no cancel waiting for its answer but beside a cancel.
   */
  lemma OutcomeIsFinalExactlyWhen(w: World, b: Stamp)
    requires Invariant(w) && b in w.builds
    ensures Final(w, b) <==>
      forall actions :: b in Run(w, actions).builds ==> Run(w, actions).builds[b].status == w.builds[b].status
  {
    hide Invariant, Run, Final, Changeable, CanChange;
    if Final(w, b) {
      forall actions | b in Run(w, actions).builds ensures Run(w, actions).builds[b].status == w.builds[b].status {
        FinalForever(w, actions, b);
      }
    } else {
      NotFinalCanChange(w, b);
      ChangeableMeans(w, b);
    }
  }

  lemma NotFinalCanChange(w: World, b: Stamp)
    requires b in w.builds && !Final(w, b)
    ensures Changeable(w, b)
  {
    hide Changeable, CanChange;
    if Terminal(w.builds[b].status) {
      var j :| j in w.jobs && j.build == b && CanChange(j, w.builds[b].status);
      JobCanChange(w, b, j);
    } else {
      UndecidedCanChange(w, b);
    }
  }

  lemma ChangeableMeans(w: World, b: Stamp)
    requires b in w.builds && Changeable(w, b)
    ensures exists actions :: b in Run(w, actions).builds && Run(w, actions).builds[b].status != w.builds[b].status
  {
  }
}
