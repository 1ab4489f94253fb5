/**
 What takes published output away from its readers: exactly which steps send an output back from
 the build it serves to an older one, or to none.
 */
module Serving {
  import opened Options
  import opened Builds
  import opened Texts
  import opened BuildFacts
  import opened BuildRows
  import opened BuildRuns
  import opened Outcomes
  import opened StepMeanings
  import opened TargetPointers

  /** Output `t` serves `b`. */
  predicate Serves(w: World, t: TargetId, b: Stamp) { t in w.targets && w.targets[t].current == Some(b) }

  /** Output `t` serves something older than `b`, or nothing. */
  predicate SentBack(w: World, t: TargetId, b: Stamp) {
    t in w.targets && (w.targets[t].current.None? || w.targets[t].current.value < b)
  }

  /** A job that marks `b` anew, whatever became of it meanwhile, with anything but a success. */
  predicate Overwrites(w: World, a: Action, b: Stamp) {
    match a
    case Submit(id) => id == b && SubmitJob(b) in w.jobs
    case SubmitReply(id, _) => id == b && Submitting(b) in w.jobs
    case CheckReply(id, reply) => id == b && Checking(b) in w.jobs && reply.Answer? && !reply.report.SomethingElse?
    case CancelReply(id, stopped) => id == b && Canceling(b) in w.jobs && stopped
    case EndImport(id, seen, o) => id == b && Importing(b, seen) in w.jobs && !o.Imported?
    case _ => false
  }

  /** The world an import prunes. */
  function BeforePruning(w: World, id: Stamp, seen: Build): World {
    Marked(WithoutJob(w, Importing(id, seen)), id, Success, NOTHING_ELSE)
  }

  /** What the import of another build destroys before it fails. */
  function PrunedBeforeFailing(w: World, a: Action): seq<Stamp> {
    if a.EndImport? && a.outcome.CrashedAfterSuccess? && Importing(a.build, a.seen) in w.jobs then
      var surplus := Surplus(BeforePruning(w, a.build, a.seen), PruningTarget(w, a.build, a.seen));
      surplus[..Min(a.outcome.pruned, |surplus|)]
    else []
  }

  /** The steps that send readers of `t` back from `b`. */
  predicate TakesOff(w: World, a: Action, t: TargetId, b: Stamp) {
    || a == DeleteBuild(b)
    || (a == Revert(t) && PreviousLive(w.builds, t).Some?)
    || Overwrites(w, a, b)
    || (Subject(a) != Some(b) && b in PrunedBeforeFailing(w, a))
  }

  // ---- What is live afterwards ----

  predicate LiveIn(w: World, b: Stamp) { b in w.builds && w.builds[b].Live() }

  lemma ServedIsLive(w: World, t: TargetId, b: Stamp)
    requires Agreement(w) && Serves(w, t, b)
    ensures LiveIn(w, b) && w.builds[b].target == t && b < w.clock
    ensures forall x: Stamp :: LiveIn(w, x) && w.builds[x].target == t ==> x <= b
  {
    PointersIn(w, t);
    assert b in LiveOf(w.builds, t);
    assert forall x: Stamp :: LiveIn(w, x) && w.builds[x].target == t ==> x in LiveOf(w.builds, t);
  }

  /** A live build of `t` is served, or something newer is. */
  lemma ServesAtLeast(w: World, t: TargetId, b: Stamp)
    requires Agreement(w) && t in w.targets && LiveIn(w, b) && w.builds[b].target == t
    ensures w.targets[t].current.Some? && b <= w.targets[t].current.value
  {
    PointersIn(w, t);
    assert b in LiveOf(w.builds, t);
  }

  /** Where no live build of `t` is as new as `b`, readers have been sent back. */
  lemma SentBackIf(w: World, t: TargetId, b: Stamp)
    requires Agreement(w) && t in w.targets
    requires forall x: Stamp :: LiveIn(w, x) && w.builds[x].target == t ==> x < b
    ensures SentBack(w, t, b)
  {
    PointersIn(w, t);
    hide Agreement;
    assert forall x :: x in LiveOf(w.builds, t) ==> LiveIn(w, x) && w.builds[x].target == t;
  }

  /** Another build is live afterwards only if it was. */
  lemma OtherLive(w: World, a: Action, x: Stamp)
    requires Agreement(w) && Subject(a) != Some(x) && LiveIn(Step(w, a), x)
    ensures LiveIn(w, x) && Step(w, a).builds[x].target == w.builds[x].target
  {
    assert x in w.builds ==> x < w.clock;
    hide Step, Agreement;
    if x !in w.builds { NewBuildsAreFresh(w, a, x); }
    if a.CreateBuild? || a.BuildAll? {
      CreatingKeepsBuilds(w, a, x);
    } else {
      StepsAboutOthers(w, a, x);
    }
  }

  lemma CreatingKeepsBuilds(w: World, a: Action, x: Stamp)
    requires (a.CreateBuild? || a.BuildAll?) && x in w.builds && x < w.clock
    ensures x in Step(w, a).builds && Untouched(w, Step(w, a), x)
  {
    StepsAboutOthers(w, a, x);
    hide CreatedEach, Created, BulkCandidates;
    match a {
      case CreateBuild(t) => InsertFacts(w, t); CreatingOneKeeps(w, t);
      case BuildAll(p) => if p in w.projects { CreatingKeepsRows(w, BulkCandidates(w, p)); }
    }
  }

  lemma CreatingOneKeeps(w: World, t: TargetId)
    ensures w.builds.Keys <= Created(w, t).builds.Keys
  {
    InsertFacts(w, t);
  }

  // ---- Steps about the served build ----

  lemma MarkedLive(w: World, w1: World, b: Stamp, s: Status, ch: Changes)
    requires b in w.builds && w1.builds == w.builds && !s.Queued?
    ensures var w' := Marked(w1, b, s, ch);
      && b in w'.builds && w'.builds[b].target == w.builds[b].target
      && (LiveIn(w', b) <==> Patched(w.builds[b], s, ch).Live())
  {
    hide Marked;
    MarkingItself(w1, b, s, ch);
  }

  lemma RefusedWhenLive(w: World, b: Stamp, r: Report, moreLog: bool)
    requires LiveIn(w, b)
    ensures CancelRequested(w, b) == w && ErrorsAccepted(w, b) == w && CalledBack(w, b, r, moreLog) == w
    ensures CheckRequested(w, b) == w
  {
  }

  /** `b` is where it was, and live or not as stated. */
  predicate LeftLive(w: World, w': World, b: Stamp, live: bool) {
    && (LiveIn(w', b) <==> live)
    && (b in w.builds && b in w'.builds ==> w'.builds[b].target == w.builds[b].target)
  }

  lemma SubmittingServed(w: World, b: Stamp, answer: SubmitAnswer)
    requires LiveIn(w, b)
    ensures LeftLive(w, Submitted(w, b), b, SubmitJob(b) !in w.jobs)
    ensures LeftLive(w, SubmitAnswered(w, b, answer), b, Submitting(b) !in w.jobs)
  {
    hide Marked;
    MarkedLive(w, WithJob(WithoutJob(w, SubmitJob(b)), Submitting(b)), b, InProgress, NOTHING_ELSE);
    var w1 := WithoutJob(w, Submitting(b));
    MarkedLive(w, w1, b, Failed, NOTHING_ELSE);
    if answer.Accepted? { MarkedLive(w, w1, b, SentToServer, Changes(None, false, false, answer.statusUrl)); }
  }

  lemma CancelingServed(w: World, b: Stamp, stopped: bool)
    requires LiveIn(w, b)
    ensures LeftLive(w, CancelAnswered(w, b, stopped), b, !(Canceling(b) in w.jobs && stopped))
  {
    hide Marked;
    MarkedLive(w, WithoutJob(w, Canceling(b)), b, Canceled, LogOnly(CANCEL_LOG));
  }

  lemma ReportingServed(w: World, w1: World, b: Stamp, r: Report)
    requires LiveIn(w, b) && w1.builds == w.builds
    ensures LeftLive(w, Reported(w1, b, r), b, r.SomethingElse?)
  {
    hide Marked, InlineLog;
    match r {
      case Succeeded(tail) =>
        MarkedLive(w, w1, b, ReceivedFromServer, Changes(Some(InlineLog(tail)), false, false, false));
      case FailedWithOutput(tail) =>
        MarkedLive(w, w1, b, ReceivedFromServer, Changes(Some(InlineLog(tail)), true, false, false));
      case FailedWithoutOutput(tail) => MarkedLive(w, w1, b, Failed, LogOnly(InlineLog(tail)));
      case SomethingElse =>
    }
  }

  lemma CheckingServed(w: World, b: Stamp, reply: CheckAnswer)
    requires LiveIn(w, b)
    ensures LeftLive(w, CheckAnswered(w, b, reply), b,
      !(Checking(b) in w.jobs && reply.Answer? && !reply.report.SomethingElse?))
  {
    hide Reported;
    if reply.Answer? { ReportingServed(w, WithoutJob(w, Checking(b)), b, reply.report); }
  }

  lemma RecheckingServed(w: World, b: Stamp, k: nat, stalled: bool)
    requires LiveIn(w, b)
    ensures LeftLive(w, Rechecked(w, b, k, stalled), b, true) && LeftLive(w, ImportBegun(w, b), b, true)
  {
    hide Marked, CheckRequested;
  }

  lemma FetchingServed(w: World, b: Stamp, body: Option<string>)
    requires LiveIn(w, b)
    ensures LeftLive(w, LogFetched(w, b, body), b, true)
  {
    hide Marked, Blank;
    if body.Some? { MarkedLive(w, WithoutJob(w, LogJob(b)), b, Success, LogOnly(body.value)); }
  }

  // ---- The end of an import ----

  /** Pruning a target there is not does nothing. */
  lemma PruningNothing(w: World, t: TargetId)
    requires Agreement(w) && t !in w.targets
    ensures Surplus(w, t) == []
  {
    assert BuildsOf(w.builds, t) == {};
  }

  lemma PruningKeepsTargets(w: World, t: TargetId)
    requires Agreement(w)
    ensures Pruned(w, t).targets == w.targets
  {
    hide Agreement, Surplus;
    if t in w.targets { PrunedTargets(w, t); } else { PruningNothing(w, t); }
  }

  lemma BeforePruningAgrees(w: World, id: Stamp, seen: Build)
    requires Agreement(w)
    ensures Agreement(BeforePruning(w, id, seen))
  {
    hide Agreement, Marked;
    AgreementFramed(w, WithoutJob(w, Importing(id, seen)));
    AgreementAfterMark(WithoutJob(w, Importing(id, seen)), id, Success, NOTHING_ELSE);
  }

  /** A build marked failed is not live, nor is it if it has gone. */
  lemma FailedIsNotLive(w: World, w3: World, c: Stamp)
    requires c in w.builds && (c in w3.builds ==> w3.builds[c].target == w.builds[c].target)
    ensures LeftLive(w, Marked(w3, c, Failed, NOTHING_ELSE), c, false)
  {
    hide Marked;
    MarkKeepsRows(w3, c, Failed, NOTHING_ELSE);
    if c in w3.builds { MarkingItself(w3, c, Failed, NOTHING_ELSE); }
  }

  /** The import of the served build itself. */
  lemma ImportingServed(w: World, t: TargetId, b: Stamp, seen: Build, o: ImportOutcome)
    requires Agreement(w) && Serves(w, t, b) && Importing(b, seen) in w.jobs
    ensures LeftLive(w, ImportEnded(w, b, seen, o), b, o.Imported?)
  {
    hide Agreement, Marked, PrunedUpTo, BeforePruning, Appended, LeftLive, Serves, ImportEnded, LiveIn;
    ServedIsLive(w, t, b);
    if o.Imported? {
      ServedImportedAgain(w, t, b, seen);
    } else if o.CrashedAfterSuccess? {
      ServedImportCrashes(w, b, seen, o.pruned);
    } else {
      ServedImportFails(w, b, seen, o);
    }
  }

  lemma ServedImportFails(w: World, b: Stamp, seen: Build, o: ImportOutcome)
    requires LiveIn(w, b) && Importing(b, seen) in w.jobs && (o.DownloadFailed? || o.TimedOut? || o.Crashed?)
    ensures LeftLive(w, ImportEnded(w, b, seen, o), b, false)
  {
    hide Marked, Appended;
    var w1 := WithoutJob(w, Importing(b, seen));
    MarkedLive(w, w1, b, Failed, NOTHING_ELSE);
    MarkedLive(w, w1, b, Failed, LogOnly(Appended(seen.log, TIMEOUT_LOG)));
  }

  lemma ServedImportCrashes(w: World, b: Stamp, seen: Build, k: nat)
    requires LiveIn(w, b) && Importing(b, seen) in w.jobs
    ensures LeftLive(w, ImportEnded(w, b, seen, CrashedAfterSuccess(k)), b, false)
  {
    var w2, t := BeforePruning(w, b, seen), PruningTarget(w, b, seen);
    hide Marked, Surplus, DestroyedEach, ImportEnded;
    EndOfImport(w, b, seen);
    MarkedLive(w, WithoutJob(w, Importing(b, seen)), b, Success, NOTHING_ELSE);
    DestroyedRows(w2, Surplus(w2, t)[..Min(k, |Surplus(w2, t)|)]);
    hide BeforePruning, PruningTarget;
    FailedIsNotLive(w, PrunedUpTo(w2, t, k), b);
  }

  lemma ServedImportedAgain(w: World, t: TargetId, b: Stamp, seen: Build)
    requires Agreement(w) && Serves(w, t, b) && Importing(b, seen) in w.jobs
    ensures LeftLive(w, ImportEnded(w, b, seen, Imported), b, true)
  {
    hide Step, ImportEnded, Agreement;
    ServedIsLive(w, t, b);
    assert forall c :: c in LiveOf(w.builds, t) ==> LiveIn(w, c) && w.builds[c].target == t;
    ImportServesWhatItBrings(w, b, seen);
    ImportStep(w, b, seen, Imported);
  }

  lemma ImportStep(w: World, id: Stamp, seen: Build, o: ImportOutcome)
    ensures Step(w, EndImport(id, seen, o)) == ImportEnded(w, id, seen, o)
  {
    hide ImportEnded;
  }

  // ---- One step ----

  /** The steps about the served build that never take it off, and its deletion. */
  lemma OwnQuietStep(w: World, a: Action, b: Stamp)
    requires LiveIn(w, b) && Subject(a) == Some(b)
    requires a.DeleteBuild? || a.RequestCancel? || a.AcceptErrors? || a.Callback? || a.RequestCheck? || a.Recheck?
             || a.BeginImport? || a.FetchLog?
    ensures LeftLive(w, Step(w, a), b, !a.DeleteBuild?)
  {
    assert LeftLive(w, w, b, true);
    hide LeftLive, LiveIn, Destroyed, CancelRequested, ErrorsAccepted, CalledBack, CheckRequested, Rechecked,
      ImportBegun, LogFetched;
    match a {
      case DeleteBuild(_) => DeletedIsNotLive(w, b);
      case RequestCancel(_) => RefusedWhenLive(w, b, SomethingElse, false);
      case AcceptErrors(_) => RefusedWhenLive(w, b, SomethingElse, false);
      case Callback(_, r, moreLog) => RefusedWhenLive(w, b, r, moreLog);
      case RequestCheck(_) => RefusedWhenLive(w, b, SomethingElse, false);
      case Recheck(_, k, stalled) => RecheckingServed(w, b, k, stalled);
      case BeginImport(_) => RecheckingServed(w, b, 0, false);
      case FetchLog(_, body) => FetchingServed(w, b, body);
    }
  }

  /** The steps about the served build that may take it off. */
  lemma OwnMarkingStep(w: World, a: Action, t: TargetId, b: Stamp)
    requires Agreement(w) && Serves(w, t, b) && LiveIn(w, b) && Subject(a) == Some(b)
    requires a.Submit? || a.SubmitReply? || a.CheckReply? || a.CancelReply? || a.EndImport?
    ensures LeftLive(w, Step(w, a), b, !Overwrites(w, a, b))
  {
    hide Agreement, Serves, LeftLive, LiveIn, CancelAnswered, Submitted, SubmitAnswered, CheckAnswered, ImportEnded;
    match a {
      case CancelReply(_, stopped) => CancelingServed(w, b, stopped);
      case Submit(_) => SubmittingServed(w, b, Rejected);
      case SubmitReply(_, answer) => SubmittingServed(w, b, answer);
      case CheckReply(_, reply) => CheckingServed(w, b, reply);
      case EndImport(_, seen, o) =>
        if Importing(b, seen) in w.jobs { ImportingServed(w, t, b, seen, o); } else { NoImportToEnd(w, b, seen, o); }
    }
  }

  /** A step about the served build leaves it live or not, and in its place. */
  lemma OwnStep(w: World, a: Action, t: TargetId, b: Stamp)
    requires Agreement(w) && Serves(w, t, b) && Subject(a) == Some(b)
    ensures LeftLive(w, Step(w, a), b, !(a == DeleteBuild(b) || Overwrites(w, a, b)))
  {
    hide Agreement, Serves, LeftLive, Step;
    ServedIsLive(w, t, b);
    if a.Submit? || a.SubmitReply? || a.CheckReply? || a.CancelReply? || a.EndImport? {
      OwnMarkingStep(w, a, t, b);
    } else {
      OwnQuietStep(w, a, b);
    }
  }

  lemma DeletedIsNotLive(w: World, b: Stamp)
    ensures LeftLive(w, Destroyed(w, b), b, false)
  {
    hide Destroyed;
    DestroyedRow(w, b);
  }

  lemma NoImportToEnd(w: World, id: Stamp, seen: Build, o: ImportOutcome)
    requires Importing(id, seen) !in w.jobs
    ensures ImportEnded(w, id, seen, o) == w
    ensures LeftLive(w, w, id, LiveIn(w, id))
  {
  }

  /** What a step about something else leaves of the served build. */
  lemma OtherStepsKeepServed(w: World, a: Action, t: TargetId, b: Stamp)
    requires Agreement(w) && Serves(w, t, b) && Subject(a) != Some(b) && !a.EndImport?
    requires a == Revert(t) ==> PreviousLive(w.builds, t).None?
    ensures LeftLive(w, Step(w, a), b, true)
  {
    hide Step, Agreement, Serves, PreviousLive;
    ServedIsLive(w, t, b);
    if a.CreateBuild? || a.BuildAll? {
      CreatingKeepsBuilds(w, a, b);
    } else if a.Revert? {
      RevertingKeepsServed(w, a.target, t, b);
    } else {
      StepsAboutOthers(w, a, b);
      if a.DeleteBuild? { DeletingKeepsOthers(w, a.build, b); } else { RowsStay(w, a); }
    }
  }

  lemma DeletingKeepsOthers(w: World, id: Stamp, b: Stamp)
    requires b in w.builds && b != id
    ensures b in Step(w, DeleteBuild(id)).builds
  {
    assert Step(w, DeleteBuild(id)) == Destroyed(w, id) by { hide Destroyed; }
    hide Destroyed, Step;
    DestroyedRow(w, id);
  }

  lemma RevertStep(w: World, u: TargetId)
    ensures Step(w, Revert(u)) ==
      if u in w.targets && PreviousLive(w.builds, u).Some? && w.targets[u].current.Some?
      then Destroyed(w, w.targets[u].current.value) else w
  {
    hide Destroyed, PreviousLive;
  }

  lemma RevertingKeepsServed(w: World, u: TargetId, t: TargetId, b: Stamp)
    requires Agreement(w) && Serves(w, t, b) && (u == t ==> PreviousLive(w.builds, t).None?)
    ensures LeftLive(w, Step(w, Revert(u)), b, true)
  {
    hide Destroyed, PreviousLive, Agreement, Step;
    ServedIsLive(w, t, b);
    RevertStep(w, u);
    if u != t && u in w.targets && w.targets[u].current.Some? {
      var c := w.targets[u].current.value;
      ServedIsLive(w, u, c);
      DestroyedRow(w, c);
    }
  }

  // ---- The import of another build ----

  /** What is served before the pruning: the same build, or the newer one just imported. */
  lemma ServedBeforePruning(w: World, t: TargetId, b: Stamp, c: Stamp, seen: Build)
    requires Agreement(w) && Serves(w, t, b) && c != b
    ensures var w2 := BeforePruning(w, c, seen);
      && Agreement(w2) && t in w2.targets && w2.targets[t].current.Some? && b <= w2.targets[t].current.value
      && LeftLive(w, w2, b, true)
  {
    ServedIsLive(w, t, b);
    BeforePruningAgrees(w, c, seen);
    hide Agreement, Marked;
    var w1 := WithoutJob(w, Importing(c, seen));
    var w2 := BeforePruning(w, c, seen);
    MarkKeepsRows(w1, c, Success, NOTHING_ELSE);
    MarkingAnother(w1, c, Success, NOTHING_ELSE, b);
    MarkKeepsOtherLive(w1, c, Success, NOTHING_ELSE, t);
    assert LeftLive(w, w2, b, true);
    ServesAtLeast(w2, t, b);
  }

  lemma ImportingAnotherKeepsServed(w: World, t: TargetId, b: Stamp, c: Stamp, seen: Build)
    requires Agreement(w) && Serves(w, t, b) && c != b && Importing(c, seen) in w.jobs
    ensures var w' := ImportEnded(w, c, seen, Imported);
      t in w'.targets && w'.targets[t].current.Some? && b <= w'.targets[t].current.value
  {
    hide Agreement, Marked, Surplus, DestroyedEach, BeforePruning;
    var w2 := BeforePruning(w, c, seen);
    assert ImportEnded(w, c, seen, Imported) == Pruned(w2, PruningTarget(w, c, seen)) by { EndOfImport(w, c, seen); }
    hide ImportEnded, Pruned;
    ServedBeforePruning(w, t, b, c, seen);
    PruningKeepsTargets(w2, PruningTarget(w, c, seen));
  }

  lemma EndOfImport(w: World, c: Stamp, seen: Build)
    requires Importing(c, seen) in w.jobs
    ensures var w2, t := BeforePruning(w, c, seen), PruningTarget(w, c, seen);
      && ImportEnded(w, c, seen, Imported) == Pruned(w2, t)
      && forall k ::
           ImportEnded(w, c, seen, CrashedAfterSuccess(k)) == Marked(PrunedUpTo(w2, t, k), c, Failed, NOTHING_ELSE)
  {
    hide Marked, Pruned, PrunedUpTo;
  }

  lemma FailingImportsOfOthers(w: World, t: TargetId, b: Stamp, c: Stamp, seen: Build, o: ImportOutcome)
    requires Agreement(w) && Serves(w, t, b) && c != b && Importing(c, seen) in w.jobs && !o.Imported?
    ensures LeftLive(w, ImportEnded(w, c, seen, o), b, b !in PrunedBeforeFailing(w, EndImport(c, seen, o)))
  {
    hide Agreement, ImportEnded, Step, PrunedBeforeFailing, Serves;
    ServedIsLive(w, t, b);
    StepsAboutOthers(w, EndImport(c, seen, o), b);
    ImportStep(w, c, seen, o);
    RowsAfterFailing(w, c, seen, o);
  }

  /** A failing import leaves every row but those its pruning got to. */
  lemma RowsAfterFailing(w: World, c: Stamp, seen: Build, o: ImportOutcome)
    requires Importing(c, seen) in w.jobs && !o.Imported?
    ensures ImportEnded(w, c, seen, o).builds.Keys
         == w.builds.Keys - (set x | x in PrunedBeforeFailing(w, EndImport(c, seen, o)))
  {
    if o.CrashedAfterSuccess? {
      hide ImportEnded, PrunedBeforeFailing;
      RowsAfterCrash(w, c, seen, o.pruned);
    } else {
      hide Marked, Appended, PrunedUpTo, Pruned;
      var w1 := WithoutJob(w, Importing(c, seen));
      MarkKeepsRows(w1, c, Failed, NOTHING_ELSE);
      MarkKeepsRows(w1, c, Failed, LogOnly(Appended(seen.log, TIMEOUT_LOG)));
    }
  }

  lemma RowsAfterCrash(w: World, c: Stamp, seen: Build, k: nat)
    requires Importing(c, seen) in w.jobs
    ensures var a := EndImport(c, seen, CrashedAfterSuccess(k));
      ImportEnded(w, c, seen, a.outcome).builds.Keys == w.builds.Keys - (set x | x in PrunedBeforeFailing(w, a))
  {
    hide Marked, Surplus, DestroyedEach;
    var w2, t := BeforePruning(w, c, seen), PruningTarget(w, c, seen);
    var surplus := Surplus(w2, t);
    EndOfImport(w, c, seen);
    MarkKeepsRows(WithoutJob(w, Importing(c, seen)), c, Success, NOTHING_ELSE);
    DestroyedRows(w2, surplus[..Min(k, |surplus|)]);
    MarkKeepsRows(PrunedUpTo(w2, t, k), c, Failed, NOTHING_ELSE);
  }

  /** The import that ends in a failure leaves its own build dead. */
  lemma FailedImportIsNotLive(w: World, c: Stamp, seen: Build, o: ImportOutcome)
    requires Importing(c, seen) in w.jobs && !o.Imported?
    ensures !LiveIn(ImportEnded(w, c, seen, o), c)
  {
    hide Marked, Surplus, DestroyedEach, Appended;
    var w1 := WithoutJob(w, Importing(c, seen));
    FailedIsDead(w1, c, NOTHING_ELSE);
    FailedIsDead(w1, c, LogOnly(Appended(seen.log, TIMEOUT_LOG)));
    if o.CrashedAfterSuccess? {
      FailedIsDead(PrunedUpTo(BeforePruning(w, c, seen), PruningTarget(w, c, seen), o.pruned), c, NOTHING_ELSE);
    }
  }

  lemma FailedIsDead(w: World, c: Stamp, ch: Changes)
    ensures !LiveIn(Marked(w, c, Failed, ch), c)
  {
    hide Marked;
    MarkKeepsRows(w, c, Failed, ch);
    if c in w.builds { MarkingItself(w, c, Failed, ch); }
  }

  // ---- All steps ----

  lemma MarkKeepsTargets(w: World, id: Stamp, s: Status, ch: Changes)
    ensures Marked(w, id, s, ch).targets.Keys == w.targets.Keys
  {
    hide Marked;
    MarkKeepsOtherLive(w, id, s, ch, 0);
  }

  lemma {:induction false} DestroyingKeepsTargets(w: World, ids: seq<Stamp>)
    ensures DestroyedEach(w, ids).targets.Keys == w.targets.Keys
  {
    if ids != [] {
      DestroyingKeepsTargets(w, ids[..|ids| - 1]);
      assert Destroyed(DestroyedEach(w, ids[..|ids| - 1]), ids[|ids| - 1]).targets.Keys == w.targets.Keys;
    }
  }

  lemma ImportKeepsTargets(w: World, c: Stamp, seen: Build, o: ImportOutcome)
    ensures ImportEnded(w, c, seen, o).targets.Keys == w.targets.Keys
  {
    hide Marked, Surplus, DestroyedEach, Appended;
    var w1 := WithoutJob(w, Importing(c, seen));
    var w2, t := BeforePruning(w, c, seen), PruningTarget(w, c, seen);
    MarkKeepsTargets(w1, c, Success, NOTHING_ELSE);
    MarkKeepsTargets(w1, c, Failed, NOTHING_ELSE);
    MarkKeepsTargets(w1, c, Failed, LogOnly(Appended(seen.log, TIMEOUT_LOG)));
    var surplus := Surplus(w2, t);
    DestroyingKeepsTargets(w2, surplus);
    if o.CrashedAfterSuccess? {
      DestroyingKeepsTargets(w2, surplus[..Min(o.pruned, |surplus|)]);
      MarkKeepsTargets(PrunedUpTo(w2, t, o.pruned), c, Failed, NOTHING_ELSE);
    }
  }

  lemma TargetsStay(w: World, a: Action)
    requires a.DeleteBuild? || a.EndImport?
    ensures Step(w, a).targets.Keys == w.targets.Keys
  {
    hide ImportEnded;
    if a.EndImport? { ImportKeepsTargets(w, a.build, a.seen, a.outcome); }
  }

  /** Where the step leaves `b` dead and no other build newly live, readers are sent back. */
  lemma NothingNewerIsLive(w: World, a: Action, t: TargetId, b: Stamp)
    requires Agreement(w) && Serves(w, t, b) && Agreement(Step(w, a)) && !LiveIn(Step(w, a), b)
    requires Subject(a).Some? ==> !LiveIn(Step(w, a), Subject(a).value)
    requires b in Step(w, a).builds ==> Step(w, a).builds[b].target == t
    requires b !in Step(w, a).builds ==> a.DeleteBuild? || a.EndImport?
    ensures SentBack(Step(w, a), t, b)
  {
    var w' := Step(w, a);
    assert b in w'.builds ==> t in w'.targets;
    hide Step, Agreement, LiveIn;
    if b !in w'.builds { TargetsStay(w, a); }
    ServedIsLive(w, t, b);
    forall x: Stamp | LiveIn(w', x) && w'.builds[x].target == t ensures x < b {
      OtherLive(w, a, x);
    }
    SentBackIf(w', t, b);
  }

  lemma ServedAfterOwnStep(w: World, a: Action, t: TargetId, b: Stamp)
    requires Agreement(w) && Serves(w, t, b) && Agreement(Step(w, a)) && Subject(a) == Some(b)
    ensures var w' := Step(w, a);
      if a == DeleteBuild(b) || Overwrites(w, a, b) then SentBack(w', t, b)
      else t in w'.targets && w'.targets[t].current.Some? && b <= w'.targets[t].current.value
  {
    var w' := Step(w, a);
    assert b in w'.builds ==> w'.builds[b].target in w'.targets;
    hide Step, Agreement, Overwrites;
    ServedIsLive(w, t, b);
    OwnStep(w, a, t, b);
    if a == DeleteBuild(b) || Overwrites(w, a, b) {
      if b !in w'.builds && !a.DeleteBuild? && !a.EndImport? { RowsStay(w, a); }
      NothingNewerIsLive(w, a, t, b);
    } else {
      ServesAtLeast(w', t, b);
    }
  }

  lemma ServedAfterImportOfAnother(w: World, c: Stamp, seen: Build, o: ImportOutcome, t: TargetId, b: Stamp)
    requires Agreement(w) && Serves(w, t, b) && Agreement(Step(w, EndImport(c, seen, o))) && c != b
    ensures var a := EndImport(c, seen, o); var w' := Step(w, a);
      if b in PrunedBeforeFailing(w, a) then SentBack(w', t, b)
      else t in w'.targets && w'.targets[t].current.Some? && b <= w'.targets[t].current.value
  {
    var a := EndImport(c, seen, o);
    var w' := Step(w, a);
    hide Step, Agreement, ImportEnded, PrunedBeforeFailing, LiveIn, SentBack;
    ImportStep(w, c, seen, o);
    if Importing(c, seen) !in w.jobs || o.Imported? { PrunedOnlyByFailing(w, a); }
    if Importing(c, seen) !in w.jobs {
      NoImportToEnd(w, c, seen, o);
    } else if o.Imported? {
      ImportingAnotherKeepsServed(w, t, b, c, seen);
    } else {
      ServedIsLive(w, t, b);
      FailingImportsOfOthers(w, t, b, c, seen, o);
      FailedImportIsNotLive(w, c, seen, o);
      if b in PrunedBeforeFailing(w, a) { NothingNewerIsLive(w, a, t, b); } else { StaysServed(w, w', t, b); }
    }
  }

  lemma PrunedOnlyByFailing(w: World, a: Action)
    requires a.EndImport? && (Importing(a.build, a.seen) !in w.jobs || a.outcome.Imported?)
    ensures PrunedBeforeFailing(w, a) == []
  {
  }

  lemma StaysServed(w: World, w': World, t: TargetId, b: Stamp)
    requires LiveIn(w, b) && w.builds[b].target == t && LeftLive(w, w', b, true) && Agreement(w')
    ensures t in w'.targets && w'.targets[t].current.Some? && b <= w'.targets[t].current.value
  {
    hide Agreement;
    StillThere(w', t, b);
  }

  /**
   A step sends readers of an output back, to something older than what it served or to nothing,
   exactly when it deletes or reverts what is served, marks it anew from a job that did not look,
   or fails an import after its pruning has already destroyed what was served. Any other step
   leaves it served, or serves something newer.
   */
  lemma SentBackExactlyWhen(w: World, a: Action, t: TargetId, b: Stamp)
    requires Invariant(w) && Serves(w, t, b)
    ensures var w' := Step(w, a);
      && (SentBack(w', t, b) <==> TakesOff(w, a, t, b))
      && t in w'.targets
      && (!TakesOff(w, a, t, b) ==> w'.targets[t].current.Some? && b <= w'.targets[t].current.value)
  {
    hide Step, Invariant, Agreement, PreviousLive, Overwrites, PrunedBeforeFailing, Serves;
    StepKeepsInvariant(w, a);
    InvariantAgrees(w);
    InvariantAgrees(Step(w, a));
    WhoTakesOff(w, a, b);
    if Subject(a) == Some(b) {
      ServedAfterOwnStep(w, a, t, b);
    } else if a.EndImport? {
      ServedAfterImportOfAnother(w, a.build, a.seen, a.outcome, t, b);
    } else if a == Revert(t) && PreviousLive(w.builds, t).Some? {
      RevertingSendsBack(w, t, b);
    } else {
      ServedAfterOtherStep(w, a, t, b);
    }
  }

  lemma WhoTakesOff(w: World, a: Action, b: Stamp)
    ensures Subject(a) != Some(b) ==> !Overwrites(w, a, b)
    ensures !a.EndImport? ==> PrunedBeforeFailing(w, a) == []
  {
  }

  lemma ServedAfterOtherStep(w: World, a: Action, t: TargetId, b: Stamp)
    requires Agreement(w) && Serves(w, t, b) && Agreement(Step(w, a)) && Subject(a) != Some(b) && !a.EndImport?
    requires a == Revert(t) ==> PreviousLive(w.builds, t).None?
    ensures var w' := Step(w, a); t in w'.targets && w'.targets[t].current.Some? && b <= w'.targets[t].current.value
  {
    hide Step, Agreement, PreviousLive, Serves;
    OtherStepsKeepServed(w, a, t, b);
    ServedIsLive(w, t, b);
    StillThere(Step(w, a), t, b);
  }

  lemma InvariantAgrees(w: World)
    requires Invariant(w)
    ensures Agreement(w)
  {
  }

  lemma RevertingSendsBack(w: World, t: TargetId, b: Stamp)
    requires Agreement(w) && Serves(w, t, b) && PreviousLive(w.builds, t).Some?
    ensures SentBack(Step(w, Revert(t)), t, b)
  {
    hide Agreement, PreviousLive, Destroyed;
    RevertLandsOnPreviousLive(w, t);
    assert Step(w, Revert(t)) == Reverted(w, t) by { hide Reverted; }
    hide Step, Reverted;
  }

  lemma StillThere(w: World, t: TargetId, b: Stamp)
    requires Agreement(w) && LiveIn(w, b) && w.builds[b].target == t
    ensures t in w.targets && w.targets[t].current.Some? && b <= w.targets[t].current.value
  {
    assert t in w.targets;
    hide Agreement;
    ServesAtLeast(w, t, b);
  }

  // ---- Runs ----

  /** Step `k` of the run sends readers of `t` back from what it serves just then. */
  predicate SendsBackAt(w: World, actions: seq<Action>, k: nat, t: TargetId) {
    && k < |actions|
    && var w1 := Run(w, actions[..k]);
       t in w1.targets && w1.targets[t].current.Some? && TakesOff(w1, actions[k], t, w1.targets[t].current.value)
  }

  /**
   Over any run, as long as no step is one of those, an output that serves something goes on
   serving it or something newer.
   */
  lemma {:induction false} ServedOnlyMovesForward(w: World, actions: seq<Action>, t: TargetId, b: Stamp)
    requires Invariant(w) && Serves(w, t, b) && forall k: nat :: !SendsBackAt(w, actions, k, t)
    ensures var w' := Run(w, actions);
      t in w'.targets && w'.targets[t].current.Some? && b <= w'.targets[t].current.value
  {
    if actions == [] {
    } else {
      var n := |actions| - 1;
      var front, a := actions[..n], actions[n];
      var w1 := Run(w, front);
      assert Run(w, actions) == Step(w1, a);
      hide Step, Run, Invariant, TakesOff, SentBack;
      forall k: nat ensures !SendsBackAt(w, front, k, t) {
        assert !SendsBackAt(w, actions, k, t);
        if k < n { assert front[..k] == actions[..k]; }
      }
      assert !SendsBackAt(w, actions, n, t);
      ServedOnlyMovesForward(w, front, t, b);
      RunKeepsInvariant(w, front);
      SentBackExactlyWhen(w1, a, t, w1.targets[t].current.value);
    }
  }
}
