/**
 What each step can do to one given build, and what follows: which step may cause which status
 change, that an outcome nothing is still acting on is final, and that the flags raised on a
 build stay raised and the author's approval comes from the author alone.
 */
module Outcomes {
  import opened Options
  import opened Builds
  import opened Texts
  import opened BuildFacts
  import opened BuildQueue

  predicate Promotion(before: Build, after: Build) {
    before.status.Queued? && after == before.(status := Pending)
  }

  /** Nothing was counted for `b` in between. */
  predicate SameCounts(h: History, h': History, b: Stamp) {
    && h'.resubmitted[b] == h.resubmitted[b] && h'.lateClaims[b] == h.lateClaims[b] && h'.reopened[b] == h.reopened[b]
  }

  function One(counted: bool): nat { if counted then 1 else 0 }

  /** What is counted for `b` when its status goes from `before` to `after`. */
  predicate Counted(h: History, h': History, b: Stamp, before: Status, after: Status) {
    && h'.resubmitted[b] == h.resubmitted[b] + One(Terminal(before) && Waiting(after))
    && h'.lateClaims[b] == h.lateClaims[b] + One(Terminal(before) && after.ReceivedFromServer?)
    && h'.reopened[b] == h.reopened[b] + One(before.ReceivedFromServer? && Waiting(after))
  }

  /** Nothing happened to `b` except perhaps a promotion or its removal. */
  ghost predicate Untouched(w: World, w': World, b: Stamp) {
    && w.clock <= w'.clock
    && (b in w'.builds ==> b in w.builds)
    && (b in w'.builds ==> w'.builds[b] == w.builds[b] || Promotion(w.builds[b], w'.builds[b]))
    && SameCounts(w.history, w'.history, b)
    && (forall j :: j in w'.jobs && j.build == b ==> j in w.jobs || (b in w.builds && w.builds[b].status.Queued?))
  }

  lemma Unchanged(w: World, b: Stamp)
    ensures Untouched(w, w, b)
  {
  }

  lemma UntouchedTwice(w: World, w1: World, w2: World, b: Stamp)
    requires Untouched(w, w1, b) && Untouched(w1, w2, b)
    ensures Untouched(w, w2, b)
  {
  }

  lemma PromotionEffect(w: World, b: Stamp)
    ensures Untouched(w, Promoted(w), b)
    ensures b in w.builds && !w.builds[b].status.Queued? ==>
      b in Promoted(w).builds && Promoted(w).builds[b] == w.builds[b]
    ensures forall j :: j in Promoted(w).jobs && j.build == b ==> j in w.jobs || b in QueuedIn(w.builds)
  {
    hide Promoted, FreeSlots, SlotAvailable, Min;
    PromotionEffects(w);
  }

  /** Marking one build does nothing to another but, perhaps, promote it. */
  lemma MarkingAnother(w: World, id: Stamp, s: Status, ch: Changes, b: Stamp)
    requires b != id || id !in w.builds
    ensures Untouched(w, Marked(w, id, s, ch), b)
  {
    var w1 := WrittenAndSynced(w, id, s, ch);
    WriteFacts(w, id, s, ch);
    PromotionEffect(w1, b);
    assert Untouched(w, w1, b);
    UntouchedTwice(w, w1, Promoted(w1), b);
  }

  /** Marking a build writes what was asked for, and no promotion interferes with it. */
  lemma MarkingItself(w: World, id: Stamp, s: Status, ch: Changes)
    requires id in w.builds && !s.Queued?
    ensures var w' := Marked(w, id, s, ch);
      && id in w'.builds && w'.builds[id] == Patched(w.builds[id], s, ch)
      && w'.clock == w.clock
      && Counted(w.history, w'.history, id, w.builds[id].status, s)
      && (forall j :: j in w'.jobs && j.build == id ==> j in w.jobs)
  {
    var w1 := WrittenAndSynced(w, id, s, ch);
    WriteFacts(w, id, s, ch);
    PromotionEffect(w1, id);
    PutFacts(w.builds, id, Patched(w.builds[id], s, ch));
    PromotionKeepsClock(w1);
  }

  lemma PromotionKeepsClock(w: World)
    ensures Promoted(w).clock == w.clock
  {
    hide Promoted, FreeSlots, SlotAvailable, Min, QueuedIn, InFlightIn;
    PromotionEffects(w);
  }

  lemma Destroying(w: World, id: Stamp, b: Stamp)
    ensures Untouched(w, Destroyed(w, id), b)
  {
  }

  lemma {:induction false} DestroyingMany(w: World, ids: seq<Stamp>, b: Stamp)
    ensures Untouched(w, DestroyedEach(w, ids), b)
  {
    hide Destroyed;
    if ids != [] {
      DestroyingMany(w, ids[..|ids| - 1], b);
      var w1 := DestroyedEach(w, ids[..|ids| - 1]);
      Destroying(w1, ids[|ids| - 1], b);
      UntouchedTwice(w, w1, Destroyed(w1, ids[|ids| - 1]), b);
    }
  }

  lemma Creating(w: World, t: TargetId, b: Stamp)
    requires b < w.clock
    ensures Untouched(w, Created(w, t), b)
  {
    InsertFacts(w, t);
  }

  lemma {:induction false} CreatingMany(w: World, ts: seq<TargetId>, b: Stamp)
    requires b < w.clock
    ensures Untouched(w, CreatedEach(w, ts), b)
  {
    hide Created;
    if ts != [] {
      CreatingMany(w, ts[..|ts| - 1], b);
      var w1 := CreatedEach(w, ts[..|ts| - 1]);
      Creating(w1, ts[|ts| - 1], b);
      UntouchedTwice(w, w1, Created(w1, ts[|ts| - 1]), b);
    }
  }

  // ---- Steps about other builds ----

  /** The build an action is about; the others are about a target or a project. */
  function Subject(a: Action): Option<Stamp> {
    match a
    case RequestCancel(b) => Some(b)
    case CancelReply(b, _) => Some(b)
    case AcceptErrors(b) => Some(b)
    case DeleteBuild(b) => Some(b)
    case Submit(b) => Some(b)
    case SubmitReply(b, _) => Some(b)
    case Callback(b, _, _) => Some(b)
    case RequestCheck(b) => Some(b)
    case CheckReply(b, _) => Some(b)
    case Recheck(b, _, _) => Some(b)
    case BeginImport(b) => Some(b)
    case EndImport(b, _, _) => Some(b)
    case FetchLog(b, _) => Some(b)
    case _ => None
  }

  lemma MovingJobs(w: World, j: Job, b: Stamp)
    requires j.build != b
    ensures Untouched(w, w, b)
    ensures Untouched(w, WithJob(w, j), b)
    ensures Untouched(w, WithoutJob(w, j), b)
  {
  }

  /** Taking a job about another build and then marking that build. */
  lemma TakingThenMarking(w: World, j: Job, s: Status, ch: Changes, b: Stamp)
    requires j.build != b
    ensures Untouched(w, Marked(WithoutJob(w, j), j.build, s, ch), b)
  {
    hide Untouched, WithoutJob, Marked;
    MovingJobs(w, j, b);
    MarkingAnother(WithoutJob(w, j), j.build, s, ch, b);
    UntouchedTwice(w, WithoutJob(w, j), Marked(WithoutJob(w, j), j.build, s, ch), b);
  }

  lemma ClaimingAnother(w: World, id: Stamp, tail: string, flagged: bool, b: Stamp)
    requires b != id
    ensures Untouched(w, Claimed(w, id, tail, flagged), b)
  {
    MarkingAnother(w, id, ReceivedFromServer, Changes(Some(InlineLog(tail)), flagged, false, false), b);
  }

  lemma ReportingAnother(w: World, id: Stamp, r: Report, b: Stamp)
    requires b != id
    ensures Untouched(w, Reported(w, id, r), b)
  {
    hide Untouched, Claimed, Marked;
    match r {
      case Succeeded(tail) => ClaimingAnother(w, id, tail, false, b);
      case FailedWithOutput(tail) => ClaimingAnother(w, id, tail, true, b);
      case FailedWithoutOutput(tail) => MarkingAnother(w, id, Failed, LogOnly(InlineLog(tail)), b);
      case SomethingElse => Unchanged(w, b);
    }
  }

  lemma CrashingAnother(w: World, w2: World, id: Stamp, t: TargetId, k: nat, b: Stamp)
    requires b != id && Untouched(w, w2, b)
    ensures Untouched(w, Marked(PrunedUpTo(w2, t, k), id, Failed, NOTHING_ELSE), b)
  {
    hide Untouched, Marked, Surplus, DestroyedEach;
    var w3, surplus := PrunedUpTo(w2, t, k), Surplus(w2, t);
    DestroyingMany(w2, surplus[..Min(k, |surplus|)], b);
    UntouchedTwice(w, w2, w3, b);
    MarkingAnother(w3, id, Failed, NOTHING_ELSE, b);
    UntouchedTwice(w, w3, Marked(w3, id, Failed, NOTHING_ELSE), b);
  }

  lemma ImportingAnother(w: World, id: Stamp, seen: Build, o: ImportOutcome, b: Stamp)
    requires b != id
    ensures Untouched(w, ImportEnded(w, id, seen, o), b)
  {
    hide Untouched, Marked, Surplus, Appended, WithoutJob;
    var j := Importing(id, seen);
    MovingJobs(w, j, b);
    TakingThenMarking(w, j, Success, NOTHING_ELSE, b);
    TakingThenMarking(w, j, Failed, NOTHING_ELSE, b);
    TakingThenMarking(w, j, Failed, LogOnly(Appended(seen.log, TIMEOUT_LOG)), b);
    var w2 := Marked(WithoutJob(w, j), id, Success, NOTHING_ELSE);
    var t := PruningTarget(w, id, seen);
    if o.CrashedAfterSuccess? { CrashingAnother(w, w2, id, t, o.pruned, b); }
    DestroyingMany(w2, Surplus(w2, t), b);
    UntouchedTwice(w, w2, Pruned(w2, t), b);
  }

  lemma CheckingAnother(w: World, id: Stamp, b: Stamp)
    requires b != id
    ensures Untouched(w, CheckRequested(w, id), b)
  {
    hide Untouched, WithJob;
    MovingJobs(w, Checking(id), b);
  }

  lemma CheckAnsweredForAnother(w: World, id: Stamp, a: CheckAnswer, b: Stamp)
    requires b != id
    ensures Untouched(w, CheckAnswered(w, id, a), b)
  {
    hide Untouched, WithoutJob, Reported;
    MovingJobs(w, Checking(id), b);
    if a.Answer? {
      var w1 := WithoutJob(w, Checking(id));
      ReportingAnother(w1, id, a.report, b);
      UntouchedTwice(w, w1, Reported(w1, id, a.report), b);
    }
  }

  lemma CallingBackAnother(w: World, id: Stamp, r: Report, moreLog: bool, b: Stamp)
    requires b != id
    ensures Untouched(w, CalledBack(w, id, r, moreLog), b)
  {
    hide Untouched, WithJob, Reported;
    var w1 := Reported(w, id, r);
    Unchanged(w, b);
    ReportingAnother(w, id, r, b);
    MovingJobs(w1, LogJob(id), b);
    UntouchedTwice(w, w1, WithJob(w1, LogJob(id)), b);
  }

  lemma RecheckingAnother(w: World, id: Stamp, attempt: nat, stalled: bool, b: Stamp)
    requires b != id
    ensures Untouched(w, Rechecked(w, id, attempt, stalled), b)
  {
    hide Untouched, Marked, Appended, WithJob, WithoutJob, CheckRequested;
    var j := RecheckJob(id, attempt);
    MovingJobs(w, j, b);
    var w1 := WithoutJob(w, j);
    if id in w1.builds {
      var w2 := Advanced(w1, id, stalled);
      CheckingAnother(w1, id, b);
      Unchanged(w1, b);
      MarkingAnother(w1, id, Failed, LogOnly(Appended(w1.builds[id].log, STALLED_LOG)), b);
      UntouchedTwice(w, w1, w2, b);
      MovingJobs(w2, RecheckJob(id, attempt + 1), b);
      UntouchedTwice(w, w2, WithJob(w2, RecheckJob(id, attempt + 1)), b);
    }
    assert id in w.builds ==> id in w1.builds by { WithoutJobKeepsBuilds(w, j); }
  }

  lemma WithoutJobKeepsBuilds(w: World, j: Job)
    ensures WithoutJob(w, j).builds == w.builds
  {
  }

  lemma CancelingAnother(w: World, id: Stamp, stopped: bool, b: Stamp)
    requires b != id
    ensures Untouched(w, CancelRequested(w, id), b)
    ensures Untouched(w, CancelAnswered(w, id, stopped), b)
    ensures Untouched(w, ErrorsAccepted(w, id), b)
  {
    hide Untouched, Marked, WithJob, WithoutJob;
    MovingJobs(w, Canceling(id), b);
    MarkingAnother(w, id, Canceled, LogOnly(CANCEL_LOG), b);
    TakingThenMarking(w, Canceling(id), Canceled, LogOnly(CANCEL_LOG), b);
    MarkingAnother(w, id, Success, Changes(None, false, true, false), b);
  }

  lemma SubmittingAnother(w: World, id: Stamp, b: Stamp)
    requires b != id
    ensures Untouched(w, Submitted(w, id), b)
  {
    hide Untouched, Marked, WithJob, WithoutJob;
    var w1 := WithoutJob(w, SubmitJob(id));
    var w2 := WithJob(w1, Submitting(id));
    MovingJobs(w, SubmitJob(id), b);
    MovingJobs(w1, Submitting(id), b);
    UntouchedTwice(w, w1, w2, b);
    MarkingAnother(w2, id, InProgress, NOTHING_ELSE, b);
    UntouchedTwice(w, w2, Marked(w2, id, InProgress, NOTHING_ELSE), b);
  }

  lemma SubmitAnsweredForAnother(w: World, id: Stamp, a: SubmitAnswer, b: Stamp)
    requires b != id
    ensures Untouched(w, SubmitAnswered(w, id, a), b)
  {
    hide Untouched, Marked, WithoutJob;
    Unchanged(w, b);
    TakingThenMarking(w, Submitting(id), Failed, NOTHING_ELSE, b);
    if a.Accepted? {
      TakingThenMarking(w, Submitting(id), SentToServer, Changes(None, false, false, a.statusUrl), b);
    }
  }

  lemma FetchingAnother(w: World, id: Stamp, body: Option<string>, b: Stamp)
    requires b != id
    ensures Untouched(w, LogFetched(w, id, body), b)
  {
    hide Untouched, Marked, WithoutJob, Blank;
    MovingJobs(w, LogJob(id), b);
    if id in w.builds && body.Some? {
      TakingThenMarking(w, LogJob(id), w.builds[id].status, LogOnly(body.value), b);
    }
  }

  lemma BeginningAnother(w: World, id: Stamp, b: Stamp)
    requires b != id
    ensures Untouched(w, ImportBegun(w, id), b)
  {
    hide Untouched, WithJob, WithoutJob;
    MovingJobs(w, ImportJob(id), b);
    if id in w.builds {
      var w1, j := WithoutJob(w, ImportJob(id)), Importing(id, w.builds[id]);
      MovingJobs(w1, j, b);
      UntouchedTwice(w, w1, WithJob(w1, j), b);
    }
  }

  lemma ArrangingAnother(w: World, a: Action, b: Stamp)
    requires a.Publish? || a.SetVisibility? || a.EditSource? || a.AddTarget?
    ensures Untouched(w, Step(w, a), b)
  {
    hide Step;
    QuietStepsKeepBuilds(w, a);
  }

  lemma RevertingAnother(w: World, t: TargetId, b: Stamp)
    ensures Untouched(w, Reverted(w, t), b)
  {
    hide Untouched, Destroyed, PreviousLive;
    Unchanged(w, b);
    if t in w.targets && w.targets[t].current.Some? { Destroying(w, w.targets[t].current.value, b); }
  }

  /** A step that is not about `b` leaves it alone, promotes it, or removes it. */
  lemma StepsAboutOthers(w: World, a: Action, b: Stamp)
    requires (a.CreateBuild? || a.BuildAll? ==> b < w.clock) && Subject(a) != Some(b)
    ensures Untouched(w, Step(w, a), b)
  {
    hide Untouched, Created, CreatedEach, BulkCandidates, CancelRequested, CancelAnswered, ErrorsAccepted, Destroyed,
      Reverted, Published, VisibilitySet, SourceEdited, TargetAdded, Submitted, SubmitAnswered, CalledBack,
      CheckRequested, CheckAnswered, Rechecked, ImportBegun, ImportEnded, LogFetched;
    Unchanged(w, b);
    match a {
      case CreateBuild(t) => Creating(w, t, b);
      case BuildAll(p) => if p in w.projects { CreatingMany(w, BulkCandidates(w, p), b); }
      case RequestCancel(id) => CancelingAnother(w, id, false, b);
      case CancelReply(id, stopped) => CancelingAnother(w, id, stopped, b);
      case AcceptErrors(id) => CancelingAnother(w, id, false, b);
      case DeleteBuild(id) => Destroying(w, id, b);
      case Revert(t) => RevertingAnother(w, t, b);
      case Publish(_, _) => ArrangingAnother(w, a, b);
      case SetVisibility(_, _) => ArrangingAnother(w, a, b);
      case EditSource(_) => ArrangingAnother(w, a, b);
      case AddTarget(_) => ArrangingAnother(w, a, b);
      case Submit(id) => SubmittingAnother(w, id, b);
      case SubmitReply(id, answer) => SubmitAnsweredForAnother(w, id, answer, b);
      case Callback(id, report, moreLog) => CallingBackAnother(w, id, report, moreLog, b);
      case RequestCheck(id) => CheckingAnother(w, id, b);
      case CheckReply(id, reply) => CheckAnsweredForAnother(w, id, reply, b);
      case Recheck(id, attempt, stalled) => RecheckingAnother(w, id, attempt, stalled, b);
      case BeginImport(id) => BeginningAnother(w, id, b);
      case EndImport(id, seen, outcome) => ImportingAnother(w, id, seen, outcome, b);
      case FetchLog(id, body) => FetchingAnother(w, id, body, b);
    }
  }

  // ---- Steps about the build itself ----

  function StatusReported(r: Report): Status {
    if r.Succeeded? || r.FailedWithOutput? then ReceivedFromServer else Failed
  }

  /** The table of status changes: which step takes a build from `x.status` to `after`, and when. */
  predicate Caused(w: World, a: Action, b: Stamp, x: Build, after: Status) {
    match a
    case Submit(_) => SubmitJob(b) in w.jobs && after.InProgress?
    case SubmitReply(_, answer) =>
      Submitting(b) in w.jobs && after == (if answer.Accepted? then SentToServer else Failed)
    case Callback(_, r, _) => Waiting(x.status) && !r.SomethingElse? && after == StatusReported(r)
    case CheckReply(_, reply) =>
      && Checking(b) in w.jobs && !x.status.ReceivedFromServer?
      && reply.Answer? && !reply.report.SomethingElse? && after == StatusReported(reply.report)
    case Recheck(_, k, stalled) =>
      RecheckJob(b, k) in w.jobs && stalled && x.status.ReceivedFromServer? && after.Failed?
    case EndImport(_, seen, o) => Importing(b, seen) in w.jobs && after == (if o.Imported? then Success else Failed)
    case RequestCancel(_) => Unresolved(x.status) && !x.hasStatusUrl && after.Canceled?
    case CancelReply(_, stopped) => Canceling(b) in w.jobs && stopped && after.Canceled?
    case _ => false
  }

  /** `w'` is what the step `a` makes of `w`, as far as build `b` is concerned. */
  ghost predicate Explained(w: World, a: Action, w': World, b: Stamp)
    requires b in w.builds
  {
    && (b !in w'.builds ==> SameCounts(w.history, w'.history, b))
    && (b in w'.builds ==> ExplainedRow(w, a, b, w.builds[b], w'.builds[b]))
    && (b in w'.builds ==> Counted(w.history, w'.history, b, w.builds[b].status, w'.builds[b].status))
  }

  predicate ExplainedRow(w: World, a: Action, b: Stamp, x: Build, y: Build) {
    && y.target == x.target
    && (x.completedWithErrors ==> y.completedWithErrors)
    && (y.errorsAccepted && !x.errorsAccepted ==> a == AcceptErrors(b) && x.AwaitingReview())
    && (y.status != x.status ==>
          (x.status.Queued? && y.status.Pending?) || (Subject(a) == Some(b) && Caused(w, a, b, x, y.status)))
  }

  lemma ExplainedByOthers(w: World, a: Action, w': World, b: Stamp)
    requires b in w.builds && Untouched(w, w', b)
    ensures Explained(w, a, w', b)
  {
  }

  /** A step that comes down to moving jobs and marking the build once. */
  lemma ExplainedByMark(w: World, a: Action, w1: World, b: Stamp, s: Status, ch: Changes)
    requires b in w.builds && w1.builds == w.builds && w1.history == w.history && !s.Queued?
    requires ch.errorsAccepted ==> a == AcceptErrors(b) && w.builds[b].AwaitingReview()
    requires s != w.builds[b].status ==> Subject(a) == Some(b) && Caused(w, a, b, w.builds[b], s)
    ensures Explained(w, a, Marked(w1, b, s, ch), b)
  {
    hide Caused, Marked;
    MarkingItself(w1, b, s, ch);
  }

  lemma ExplainedWithoutMark(w: World, a: Action, w': World, b: Stamp)
    requires b in w.builds && w'.builds == w.builds && w'.history == w.history
    ensures Explained(w, a, w', b)
  {
  }

  lemma ExplainedByReport(w: World, a: Action, w1: World, b: Stamp, r: Report)
    requires b in w.builds && w1.builds == w.builds && w1.history == w.history
    requires r.SomethingElse? || (Subject(a) == Some(b) && Caused(w, a, b, w.builds[b], StatusReported(r)))
    ensures Explained(w, a, Reported(w1, b, r), b)
  {
    hide Caused, Marked;
    match r {
      case Succeeded(tail) =>
        ExplainedByMark(w, a, w1, b, ReceivedFromServer, Changes(Some(InlineLog(tail)), false, false, false));
      case FailedWithOutput(tail) =>
        ExplainedByMark(w, a, w1, b, ReceivedFromServer, Changes(Some(InlineLog(tail)), true, false, false));
      case FailedWithoutOutput(tail) => ExplainedByMark(w, a, w1, b, Failed, LogOnly(InlineLog(tail)));
      case SomethingElse =>
    }
  }

  lemma ExplainedByJobs(w: World, a: Action, w1: World, jobs: multiset<Job>, b: Stamp)
    requires b in w.builds && Explained(w, a, w1, b)
    ensures Explained(w, a, w1.(jobs := jobs), b)
  {
    hide Caused;
  }

  lemma CallbackOnItself(w: World, b: Stamp, r: Report, moreLog: bool)
    requires b in w.builds
    ensures Explained(w, Callback(b, r, moreLog), CalledBack(w, b, r, moreLog), b)
  {
    hide Explained, Reported;
    var a := Callback(b, r, moreLog);
    ExplainedWithoutMark(w, a, w, b);
    if Waiting(w.builds[b].status) {
      ExplainedByReport(w, a, w, b, r);
      var w1 := Reported(w, b, r);
      ExplainedByJobs(w, a, w1, w1.jobs + multiset{LogJob(b)}, b);
    }
  }

  lemma CheckReplyOnItself(w: World, b: Stamp, c: CheckAnswer)
    requires b in w.builds
    ensures Explained(w, CheckReply(b, c), CheckAnswered(w, b, c), b)
  {
    hide Explained, Reported;
    var a, w1 := CheckReply(b, c), WithoutJob(w, Checking(b));
    ExplainedWithoutMark(w, a, w, b);
    ExplainedWithoutMark(w, a, w1, b);
    if Checking(b) in w.jobs && c.Answer? && !w.builds[b].status.ReceivedFromServer? {
      ExplainedByReport(w, a, w1, b, c.report);
    }
  }

  lemma RecheckOnItself(w: World, b: Stamp, k: nat, stalled: bool)
    requires b in w.builds
    ensures Explained(w, Recheck(b, k, stalled), Rechecked(w, b, k, stalled), b)
  {
    hide Explained, Marked, Appended;
    var a, w1 := Recheck(b, k, stalled), WithoutJob(w, RecheckJob(b, k));
    ExplainedWithoutMark(w, a, w, b);
    if RecheckJob(b, k) in w.jobs {
      ExplainedWithoutMark(w, a, CheckRequested(w1, b), b);
      ExplainedWithoutMark(w, a, w1, b);
      if w.builds[b].status.ReceivedFromServer? && stalled {
        ExplainedByMark(w, a, w1, b, Failed, LogOnly(Appended(w1.builds[b].log, STALLED_LOG)));
      }
      var w2 := Advanced(w1, b, stalled);
      ExplainedByJobs(w, a, w2, w2.jobs + multiset{RecheckJob(b, k + 1)}, b);
    }
  }

  lemma ExplainedByMarkThenRemoval(w: World, a: Action, w1: World, b: Stamp, ids: seq<Stamp>)
    requires b in w.builds && w1.builds == w.builds && w1.history == w.history
    requires Subject(a) == Some(b) && Caused(w, a, b, w.builds[b], Success)
    ensures Explained(w, a, DestroyedEach(Marked(w1, b, Success, NOTHING_ELSE), ids), b)
  {
    hide Caused, Marked, DestroyedEach;
    MarkingItself(w1, b, Success, NOTHING_ELSE);
    DestroyingMany(Marked(w1, b, Success, NOTHING_ELSE), ids, b);
  }

  lemma ExplainedByTwoMarks(w: World, a: Action, w1: World, b: Stamp, ids: seq<Stamp>)
    requires b in w.builds && w1.builds == w.builds && w1.history == w.history
    requires Subject(a) == Some(b) && Caused(w, a, b, w.builds[b], Failed)
    ensures var w3 := DestroyedEach(Marked(w1, b, Success, NOTHING_ELSE), ids);
      Explained(w, a, Marked(w3, b, Failed, NOTHING_ELSE), b)
  {
    hide Caused, Marked, DestroyedEach;
    var w2 := Marked(w1, b, Success, NOTHING_ELSE);
    var w3 := DestroyedEach(w2, ids);
    MarkingItself(w1, b, Success, NOTHING_ELSE);
    DestroyingMany(w2, ids, b);
    if b in w3.builds {
      MarkingItself(w3, b, Failed, NOTHING_ELSE);
    } else {
      MarkingAnother(w3, b, Failed, NOTHING_ELSE, b);
    }
  }

  lemma EndImportOnItself(w: World, b: Stamp, seen: Build, o: ImportOutcome)
    requires b in w.builds
    ensures Explained(w, EndImport(b, seen, o), ImportEnded(w, b, seen, o), b)
  {
    hide Explained, Marked, DestroyedEach, Surplus, Appended;
    var a, j := EndImport(b, seen, o), Importing(b, seen);
    ExplainedWithoutMark(w, a, w, b);
    if j in w.jobs {
      var w1 := WithoutJob(w, j);
      match o {
        case Imported =>
          ExplainedByMarkThenRemoval(w, a, w1, b, Surplus(Marked(w1, b, Success, NOTHING_ELSE), w.builds[b].target));
        case CrashedAfterSuccess(k) =>
          var surplus := Surplus(Marked(w1, b, Success, NOTHING_ELSE), w.builds[b].target);
          ExplainedByTwoMarks(w, a, w1, b, surplus[..Min(k, |surplus|)]);
        case TimedOut => ExplainedByMark(w, a, w1, b, Failed, LogOnly(Appended(seen.log, TIMEOUT_LOG)));
        case DownloadFailed => ExplainedByMark(w, a, w1, b, Failed, NOTHING_ELSE);
        case Crashed => ExplainedByMark(w, a, w1, b, Failed, NOTHING_ELSE);
      }
    }
  }

  lemma CancelOnItself(w: World, b: Stamp, stopped: bool)
    requires b in w.builds
    ensures Explained(w, RequestCancel(b), CancelRequested(w, b), b)
    ensures Explained(w, CancelReply(b, stopped), CancelAnswered(w, b, stopped), b)
    ensures Explained(w, AcceptErrors(b), ErrorsAccepted(w, b), b)
  {
    hide Explained, Marked;
    ExplainedWithoutMark(w, RequestCancel(b), w, b);
    ExplainedWithoutMark(w, RequestCancel(b), WithJob(w, Canceling(b)), b);
    if Unresolved(w.builds[b].status) && !w.builds[b].hasStatusUrl {
      ExplainedByMark(w, RequestCancel(b), w, b, Canceled, LogOnly(CANCEL_LOG));
    }
    var a, w1 := CancelReply(b, stopped), WithoutJob(w, Canceling(b));
    ExplainedWithoutMark(w, a, w, b);
    ExplainedWithoutMark(w, a, w1, b);
    if Canceling(b) in w.jobs && stopped {
      ExplainedByMark(w, a, w1, b, Canceled, LogOnly(CANCEL_LOG));
    }
    ExplainedWithoutMark(w, AcceptErrors(b), w, b);
    if w.builds[b].AwaitingReview() {
      ExplainedByMark(w, AcceptErrors(b), w, b, Success, Changes(None, false, true, false));
    }
  }

  lemma SubmitOnItself(w: World, b: Stamp, answer: SubmitAnswer)
    requires b in w.builds
    ensures Explained(w, Submit(b), Submitted(w, b), b)
    ensures Explained(w, SubmitReply(b, answer), SubmitAnswered(w, b, answer), b)
  {
    hide Explained, Marked;
    ExplainedWithoutMark(w, Submit(b), w, b);
    ExplainedWithoutMark(w, SubmitReply(b, answer), w, b);
    if SubmitJob(b) in w.jobs {
      ExplainedByMark(w, Submit(b), WithJob(WithoutJob(w, SubmitJob(b)), Submitting(b)), b, InProgress, NOTHING_ELSE);
    }
    if Submitting(b) in w.jobs {
      var w1 := WithoutJob(w, Submitting(b));
      match answer {
        case Accepted(url) =>
          ExplainedByMark(w, SubmitReply(b, answer), w1, b, SentToServer, Changes(None, false, false, url));
        case Rejected => ExplainedByMark(w, SubmitReply(b, answer), w1, b, Failed, NOTHING_ELSE);
      }
    }
  }

  lemma FetchOnItself(w: World, b: Stamp, body: Option<string>)
    requires b in w.builds && !w.builds[b].status.Queued?
    ensures Explained(w, FetchLog(b, body), LogFetched(w, b, body), b)
  {
    hide Explained, Marked, Blank;
    var a, w1 := FetchLog(b, body), WithoutJob(w, LogJob(b));
    ExplainedWithoutMark(w, a, w, b);
    ExplainedWithoutMark(w, a, w1, b);
    if body.Some? {
      ExplainedByMark(w, a, w1, b, w.builds[b].status, LogOnly(body.value));
    }
  }

  lemma LogJobsAreForStartedBuilds(w: World, b: Stamp)
    requires Orderly(w) && LogJob(b) in w.jobs && b in w.builds
    ensures !w.builds[b].status.Queued?
  {
    assert LogJob(b).build in w.history.started;
    assert w.builds[b].status.Queued? ==> b in QueuedIn(w.builds);
  }

  lemma AuthorsChangeIsExplained(w: World, a: Action, b: Stamp)
    requires b in w.builds && b < w.clock && Subject(a) == Some(b) && FromAuthor(a)
    ensures Explained(w, a, Step(w, a), b)
  {
    hide Explained, CancelRequested, CancelAnswered, ErrorsAccepted, Destroyed;
    match a {
      case RequestCancel(_) => CancelOnItself(w, b, false);
      case CancelReply(_, stopped) => CancelOnItself(w, b, stopped);
      case AcceptErrors(_) => CancelOnItself(w, b, false);
      case DeleteBuild(_) => Destroying(w, b, b); ExplainedByOthers(w, a, Destroyed(w, b), b);
    }
  }

  lemma ServersChangeIsExplained(w: World, a: Action, b: Stamp)
    requires Orderly(w) && b in w.builds && Subject(a) == Some(b) && !FromAuthor(a)
    ensures Explained(w, a, Step(w, a), b)
  {
    hide Explained, Orderly, Submitted, SubmitAnswered, CalledBack, CheckRequested, CheckAnswered, Rechecked,
      ImportBegun, ImportEnded, LogFetched;
    match a {
      case Submit(_) => SubmitOnItself(w, b, Rejected);
      case SubmitReply(_, answer) => SubmitOnItself(w, b, answer);
      case Callback(_, r, moreLog) => CallbackOnItself(w, b, r, moreLog);
      case RequestCheck(_) => CheckKeepsBuilds(w, b); ExplainedWithoutMark(w, a, CheckRequested(w, b), b);
      case CheckReply(_, reply) => CheckReplyOnItself(w, b, reply);
      case Recheck(_, k, stalled) => RecheckOnItself(w, b, k, stalled);
      case BeginImport(_) => BeginningKeepsBuilds(w, b); ExplainedWithoutMark(w, a, ImportBegun(w, b), b);
      case EndImport(_, seen, o) => EndImportOnItself(w, b, seen, o);
      case FetchLog(_, body) => FetchExplained(w, b, body);
    }
  }

  /**
   Every step, whoever takes it, leaves a build as it is, promotes it out of the queue, or
   changes its status as the table says; flags are never lowered, and only the author's accepting
   a build under review records an approval.
   */
  lemma EveryChangeIsExplained(w: World, a: Action, b: Stamp)
    requires Orderly(w) && b in w.builds
    ensures Explained(w, a, Step(w, a), b)
  {
    assert b < w.clock;
    hide Explained, Orderly, Step;
    if Subject(a) != Some(b) {
      StepsAboutOthers(w, a, b);
      ExplainedByOthers(w, a, Step(w, a), b);
    } else if FromAuthor(a) {
      AuthorsChangeIsExplained(w, a, b);
    } else {
      ServersChangeIsExplained(w, a, b);
    }
  }

  lemma FetchExplained(w: World, b: Stamp, body: Option<string>)
    requires Orderly(w) && b in w.builds
    ensures Explained(w, FetchLog(b, body), LogFetched(w, b, body), b)
  {
    if LogJob(b) in w.jobs {
      LogJobsAreForStartedBuilds(w, b);
      hide Orderly, Explained, LogFetched;
      FetchOnItself(w, b, body);
    } else {
      ExplainedWithoutMark(w, FetchLog(b, body), w, b);
    }
  }

  lemma CheckKeepsBuilds(w: World, b: Stamp)
    ensures CheckRequested(w, b).builds == w.builds && CheckRequested(w, b).history == w.history
  {
  }
}
