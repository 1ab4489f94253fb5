/**
 What holds after every run of every actor, in any interleaving: the invariants of the queue, of
 the pointers, of visibility and of imports, carried through each step.
 */
module BuildRuns {
  import opened Options
  import opened Builds
  import opened BuildFacts
  import opened BuildQueue
  import opened TargetPointers
  import opened ImportAccounting

  ghost predicate Invariant(w: World) {
    QueueInvariant(w) && Agreement(w) && Privacy(w) && Accounts(w)
  }

  lemma InvariantInitially(w: World)
    requires Fresh(w)
    ensures Invariant(w)
  {
    assert InFlightIn(w.builds) == {} && QueuedIn(w.builds) == {};
  }

  lemma InvariantIsOrderly(w: World)
    requires Invariant(w)
    ensures Orderly(w)
  {
  }

  // ---- The building blocks of the steps ----

  lemma InvariantAfterMark(w: World, id: Stamp, s: Status, ch: Changes)
    requires Invariant(w) && Allowed(w, id, s, ch)
    ensures Invariant(Marked(w, id, s, ch))
  {
    QueueAfterMark(w, id, s, ch);
    AgreementAfterMark(w, id, s, ch);
    PrivacyAfterMark(w, id, s, ch);
    AccountsAfterMark(w, id, s, ch);
  }

  /** Steps that touch neither builds nor pointers, and leave jobs for started builds only. */
  lemma InvariantFramed(w: World, w': World)
    requires Invariant(w) && Privacy(w')
    requires w'.builds == w.builds && w'.cap == w.cap && w.clock <= w'.clock && w'.history == w.history
    requires w'.targets.Keys == w.targets.Keys
    requires forall t :: t in w.targets ==>
      w'.targets[t].latest == w.targets[t].latest && w'.targets[t].current == w.targets[t].current
    requires forall j :: j in w'.jobs ==> j in w.jobs || j.build in w.history.started
    ensures Invariant(w')
  {
    QueueFramed(w, w');
    AgreementFramed(w, w');
    AccountsFramed(w, w');
  }

  lemma InvariantAfterTaking(w: World, j: Job)
    requires Invariant(w) && j in w.jobs
    ensures Invariant(WithoutJob(w, j)) && j.build in w.history.started
  {
    PrivacyFramed(w, WithoutJob(w, j));
    InvariantFramed(w, WithoutJob(w, j));
  }

  lemma InvariantAfterGiving(w: World, j: Job)
    requires Invariant(w) && j.build in w.history.started
    ensures Invariant(WithJob(w, j))
  {
    PrivacyFramed(w, WithJob(w, j));
    InvariantFramed(w, WithJob(w, j));
  }

  /** A build something can be in flight for, or ask the server about, was started. */
  lemma ActiveBuildsWereStarted(w: World, id: Stamp)
    requires Invariant(w) && id in w.builds
    ensures InFlight(w.builds[id].status) || w.builds[id].hasStatusUrl ==> id in w.history.started
    ensures id in w.history.started ==> !w.builds[id].status.Queued?
  {
    assert InFlight(w.builds[id].status) ==> id in InFlightIn(w.builds);
    assert w.builds[id].status.Queued? ==> id in QueuedIn(w.builds);
  }

  lemma InvariantAfterClaim(w: World, id: Stamp, tail: string, flagged: bool)
    requires Invariant(w) && id in w.builds && id in w.history.started
    requires !w.builds[id].status.ReceivedFromServer?
    ensures Invariant(Claimed(w, id, tail, flagged)) && id in Claimed(w, id, tail, flagged).history.started
  {
    var ch := Changes(Some(InlineLog(tail)), flagged, false, false);
    var w1 := Marked(w, id, ReceivedFromServer, ch);
    var w' := Claimed(w, id, tail, flagged);
    InvariantAfterMark(w, id, ReceivedFromServer, ch);
    WriteFacts(w, id, ReceivedFromServer, ch);
    QueueFramed(w1, w');
    AgreementFramed(w1, w');
    PrivacyFramed(w1, w');
    AccountsAfterClaim(w, id, tail, flagged);
  }

  lemma InvariantAfterCreate(w: World, t: TargetId)
    requires Invariant(w) && t in w.targets
    ensures Invariant(Created(w, t))
    ensures Created(w, t).targets.Keys == w.targets.Keys
    ensures Created(w, t).projects == w.projects
  {
    hide Created, QueueInvariant, Agreement, Privacy, Accounts;
    QueueAfterCreate(w, t);
    AgreementAfterCreate(w, t);
    PrivacyAfterCreate(w, t);
    AccountsAfterCreate(w, t);
  }

  lemma {:induction false} InvariantAfterCreateEach(w: World, ts: seq<TargetId>)
    requires Invariant(w) && forall i :: 0 <= i < |ts| ==> ts[i] in w.targets
    ensures Invariant(CreatedEach(w, ts))
    ensures CreatedEach(w, ts).targets.Keys == w.targets.Keys
    ensures CreatedEach(w, ts).projects == w.projects
  {
    hide Invariant, Created;
    if ts != [] {
      InvariantAfterCreateEach(w, ts[..|ts| - 1]);
      InvariantAfterCreate(CreatedEach(w, ts[..|ts| - 1]), ts[|ts| - 1]);
    }
  }

  lemma InvariantAfterDestroy(w: World, id: Stamp)
    requires Invariant(w)
    ensures Invariant(Destroyed(w, id))
  {
    hide Destroyed, QueueInvariant, Agreement, Privacy, Accounts;
    QueueAfterDestroy(w, id);
    AgreementAfterDestroy(w, id);
    PrivacyAfterDestroy(w, id);
    AccountsAfterDestroy(w, id);
  }

  lemma {:induction false} InvariantAfterDestroyEach(w: World, ids: seq<Stamp>)
    requires Invariant(w)
    ensures Invariant(DestroyedEach(w, ids))
  {
    hide Invariant, Destroyed;
    if ids != [] {
      InvariantAfterDestroyEach(w, ids[..|ids| - 1]);
      InvariantAfterDestroy(DestroyedEach(w, ids[..|ids| - 1]), ids[|ids| - 1]);
    }
  }

  // ---- One lemma per family of steps ----

  lemma {:induction false} RowsAreTargets(w: World, ts: seq<TargetId>, state: RowState)
    ensures forall t :: t in RowsIn(w, ts, state) ==> t in w.targets
  {
    if ts != [] {
      RowsAreTargets(w, ts[..|ts| - 1], state);
    }
  }

  lemma InvariantAfterBuildAll(w: World, p: ProjectId)
    requires Invariant(w)
    ensures Invariant(BuiltAll(w, p))
  {
    hide Invariant, RowsIn, CreatedEach;
    if p in w.projects {
      RowsAreTargets(w, w.projects[p].outputs, NeverBuilt);
      RowsAreTargets(w, w.projects[p].outputs, Stale);
      var ts := BulkCandidates(w, p);
      assert forall i :: 0 <= i < |ts| ==> ts[i] in ts;
      InvariantAfterCreateEach(w, ts);
    }
  }

  lemma InvariantAfterReport(w: World, id: Stamp, r: Report)
    requires Invariant(w) && id in w.builds && id in w.history.started
    requires !w.builds[id].status.ReceivedFromServer?
    ensures Invariant(Reported(w, id, r)) && id in Reported(w, id, r).history.started
  {
    hide Invariant, Marked;
    match r {
      case Succeeded(tail) => InvariantAfterClaim(w, id, tail, false);
      case FailedWithOutput(tail) => InvariantAfterClaim(w, id, tail, true);
      case FailedWithoutOutput(tail) =>
        InvariantAfterMark(w, id, Failed, LogOnly(InlineLog(tail)));
        StartedOnlyGrows(w, id, Failed, LogOnly(InlineLog(tail)));
      case SomethingElse =>
    }
  }

  /** A mark appends at most one build to the start history, and that one existed and was queued. */
  lemma StartedOnlyGrows(w: World, id: Stamp, s: Status, ch: Changes)
    requires s.Queued? && id in w.builds ==> w.builds[id].status.Queued?
    ensures var before, after := w.history.started, Marked(w, id, s, ch).history.started;
      after == before || exists q :: q in QueuedIn(w.builds) && after == before + [q]
  {
    hide Marked;
    MarkStartsAtMostOne(w, id, s, ch);
    if Marked(w, id, s, ch).history.started != w.history.started {
      var q :| q in w.builds && w.builds[q].status.Queued?
               && Marked(w, id, s, ch).history.started == w.history.started + [q];
      assert q in QueuedIn(w.builds);
    }
  }

  lemma InvariantAfterCallback(w: World, id: Stamp, r: Report, moreLog: bool)
    requires Invariant(w)
    ensures Invariant(CalledBack(w, id, r, moreLog))
  {
    hide Invariant, Reported;
    if id in w.builds && Waiting(w.builds[id].status) {
      ActiveBuildsWereStarted(w, id);
      InvariantAfterReport(w, id, r);
      InvariantAfterGiving(Reported(w, id, r), LogJob(id));
    }
  }

  lemma InvariantAfterCheck(w: World, id: Stamp)
    requires Invariant(w)
    ensures Invariant(CheckRequested(w, id))
    ensures CheckRequested(w, id).builds == w.builds && CheckRequested(w, id).history == w.history
  {
    hide Invariant;
    if id in w.builds && w.builds[id].hasStatusUrl {
      ActiveBuildsWereStarted(w, id);
      InvariantAfterGiving(w, Checking(id));
    }
  }

  lemma InvariantAfterCheckAnswer(w: World, id: Stamp, a: CheckAnswer)
    requires Invariant(w)
    ensures Invariant(CheckAnswered(w, id, a))
  {
    hide Invariant, Reported;
    if Checking(id) in w.jobs {
      InvariantAfterTaking(w, Checking(id));
      if a.Answer? && id in w.builds && !w.builds[id].status.ReceivedFromServer? {
        InvariantAfterReport(WithoutJob(w, Checking(id)), id, a.report);
      }
    }
  }

  lemma InvariantAfterCancel(w: World, id: Stamp)
    requires Invariant(w)
    ensures Invariant(CancelRequested(w, id))
  {
    hide Invariant, Marked;
    if id in w.builds && Unresolved(w.builds[id].status) {
      if w.builds[id].hasStatusUrl {
        ActiveBuildsWereStarted(w, id);
        InvariantAfterGiving(w, Canceling(id));
      } else {
        InvariantAfterMark(w, id, Canceled, LogOnly(CANCEL_LOG));
      }
    }
  }

  lemma InvariantAfterCancelAnswer(w: World, id: Stamp, stopped: bool)
    requires Invariant(w)
    ensures Invariant(CancelAnswered(w, id, stopped))
  {
    hide Invariant, Marked;
    if Canceling(id) in w.jobs {
      InvariantAfterTaking(w, Canceling(id));
      InvariantAfterMark(WithoutJob(w, Canceling(id)), id, Canceled, LogOnly(CANCEL_LOG));
    }
  }

  lemma InvariantAfterSubmit(w: World, id: Stamp)
    requires Invariant(w)
    ensures Invariant(Submitted(w, id))
  {
    hide Invariant, Marked;
    if SubmitJob(id) in w.jobs {
      var w1 := WithoutJob(w, SubmitJob(id));
      InvariantAfterTaking(w, SubmitJob(id));
      InvariantAfterGiving(w1, Submitting(id));
      InvariantAfterMark(WithJob(w1, Submitting(id)), id, InProgress, NOTHING_ELSE);
    }
  }

  lemma InvariantAfterSubmitAnswer(w: World, id: Stamp, a: SubmitAnswer)
    requires Invariant(w)
    ensures Invariant(SubmitAnswered(w, id, a))
  {
    hide Invariant, Marked;
    if Submitting(id) in w.jobs {
      var w1 := WithoutJob(w, Submitting(id));
      InvariantAfterTaking(w, Submitting(id));
      match a {
        case Accepted(url) => InvariantAfterMark(w1, id, SentToServer, Changes(None, false, false, url));
        case Rejected => InvariantAfterMark(w1, id, Failed, NOTHING_ELSE);
      }
    }
  }

  lemma InvariantAfterAdvance(w: World, id: Stamp, stalled: bool)
    requires Invariant(w) && id in w.builds && id in w.history.started
    ensures Invariant(Advanced(w, id, stalled)) && id in Advanced(w, id, stalled).history.started
  {
    hide Invariant, Marked, Appended;
    var b := w.builds[id];
    if b.status.SentToServer? {
      InvariantAfterCheck(w, id);
    } else if b.status.ReceivedFromServer? && stalled {
      var note := LogOnly(Appended(b.log, STALLED_LOG));
      InvariantAfterMark(w, id, Failed, note);
      StartedOnlyGrows(w, id, Failed, note);
    }
  }

  lemma InvariantAfterRecheck(w: World, id: Stamp, attempt: nat, stalled: bool)
    requires Invariant(w)
    ensures Invariant(Rechecked(w, id, attempt, stalled))
  {
    hide Invariant, Advanced;
    if RecheckJob(id, attempt) in w.jobs {
      InvariantAfterTaking(w, RecheckJob(id, attempt));
      if id in w.builds {
        var w1 := WithoutJob(w, RecheckJob(id, attempt));
        InvariantAfterAdvance(w1, id, stalled);
        InvariantAfterGiving(Advanced(w1, id, stalled), RecheckJob(id, attempt + 1));
      }
    }
  }

  lemma InvariantAfterBeginImport(w: World, id: Stamp)
    requires Invariant(w)
    ensures Invariant(ImportBegun(w, id))
  {
    hide Invariant;
    if ImportJob(id) in w.jobs {
      InvariantAfterTaking(w, ImportJob(id));
      if id in w.builds {
        InvariantAfterGiving(WithoutJob(w, ImportJob(id)), Importing(id, w.builds[id]));
      }
    }
  }

  lemma InvariantAfterCrash(w: World, id: Stamp, t: TargetId, k: nat)
    requires Invariant(w)
    ensures Invariant(Marked(PrunedUpTo(w, t, k), id, Failed, NOTHING_ELSE))
  {
    hide Invariant, Marked, Surplus, DestroyedEach;
    var surplus := Surplus(w, t);
    InvariantAfterDestroyEach(w, surplus[..Min(k, |surplus|)]);
    InvariantAfterMark(PrunedUpTo(w, t, k), id, Failed, NOTHING_ELSE);
  }

  lemma InvariantAfterEndImport(w: World, id: Stamp, seen: Build, o: ImportOutcome)
    requires Invariant(w)
    ensures Invariant(ImportEnded(w, id, seen, o))
  {
    hide Invariant, Marked, Surplus, InlineLog, Appended;
    if Importing(id, seen) in w.jobs {
      var w1 := WithoutJob(w, Importing(id, seen));
      var w2 := Marked(w1, id, Success, NOTHING_ELSE);
      InvariantAfterTaking(w, Importing(id, seen));
      InvariantAfterMark(w1, id, Failed, NOTHING_ELSE);
      InvariantAfterMark(w1, id, Failed, LogOnly(Appended(seen.log, TIMEOUT_LOG)));
      InvariantAfterMark(w1, id, Success, NOTHING_ELSE);
      var t := PruningTarget(w, id, seen);
      InvariantAfterDestroyEach(w2, Surplus(w2, t));
      if o.CrashedAfterSuccess? { InvariantAfterCrash(w2, id, t, o.pruned); }
    }
  }

  lemma InvariantAfterFetchLog(w: World, id: Stamp, body: Option<string>)
    requires Invariant(w)
    ensures Invariant(LogFetched(w, id, body))
  {
    hide Invariant, Marked;
    if LogJob(id) in w.jobs {
      InvariantAfterTaking(w, LogJob(id));
      if body.Some? && id in w.builds {
        ActiveBuildsWereStarted(w, id);
        InvariantAfterMark(WithoutJob(w, LogJob(id)), id, w.builds[id].status, LogOnly(body.value));
      }
    }
  }

  lemma InvariantAfterPublishing(w: World, t: TargetId, published: bool)
    requires Invariant(w)
    ensures Invariant(Published(w, t, published))
  {
    PrivacyAfterPublish(w, t, published);
    PublishingFacts(w, t, published);
    InvariantFramed(w, Published(w, t, published));
  }

  lemma InvariantAfterVisibility(w: World, p: ProjectId, v: Visibility)
    requires Invariant(w)
    ensures Invariant(VisibilitySet(w, p, v))
  {
    PrivacyAfterVisibility(w, p, v);
    InvariantFramed(w, VisibilitySet(w, p, v));
  }

  lemma InvariantAfterEdit(w: World, p: ProjectId)
    requires Invariant(w)
    ensures Invariant(SourceEdited(w, p))
  {
    InvariantFramed(w, SourceEdited(w, p));
  }

  lemma InvariantAfterTarget(w: World, p: ProjectId)
    requires Invariant(w)
    ensures Invariant(TargetAdded(w, p))
  {
    QueueFramed(w, TargetAdded(w, p));
    AgreementAfterTarget(w, p);
    PrivacyAfterTarget(w, p);
    AccountsFramed(w, TargetAdded(w, p));
  }

  lemma StepKeepsInvariant(w: World, a: Action)
    requires Invariant(w)
    ensures Invariant(Step(w, a))
  {
    hide Invariant, Created, BuiltAll, CancelRequested, CancelAnswered, Marked, Destroyed, PreviousLive, Published,
      VisibilitySet, SourceEdited, TargetAdded, Submitted, SubmitAnswered, CalledBack, CheckRequested, CheckAnswered,
      Rechecked, ImportBegun, ImportEnded, LogFetched;
    match a {
      case CreateBuild(t) => if t in w.targets { InvariantAfterCreate(w, t); }
      case BuildAll(p) => InvariantAfterBuildAll(w, p);
      case RequestCancel(b) => InvariantAfterCancel(w, b);
      case CancelReply(b, stopped) => InvariantAfterCancelAnswer(w, b, stopped);
      case AcceptErrors(b) => InvariantAfterMark(w, b, Success, Changes(None, false, true, false));
      case DeleteBuild(b) => InvariantAfterDestroy(w, b);
      case Revert(t) =>
        if t in w.targets && w.targets[t].current.Some? { InvariantAfterDestroy(w, w.targets[t].current.value); }
      case Publish(t, published) => InvariantAfterPublishing(w, t, published);
      case SetVisibility(p, v) => InvariantAfterVisibility(w, p, v);
      case EditSource(p) => InvariantAfterEdit(w, p);
      case AddTarget(p) => InvariantAfterTarget(w, p);
      case Submit(b) => InvariantAfterSubmit(w, b);
      case SubmitReply(b, answer) => InvariantAfterSubmitAnswer(w, b, answer);
      case Callback(b, report, moreLog) => InvariantAfterCallback(w, b, report, moreLog);
      case RequestCheck(b) => InvariantAfterCheck(w, b);
      case CheckReply(b, reply) => InvariantAfterCheckAnswer(w, b, reply);
      case Recheck(b, attempt, stalled) => InvariantAfterRecheck(w, b, attempt, stalled);
      case BeginImport(b) => InvariantAfterBeginImport(w, b);
      case EndImport(b, seen, outcome) => InvariantAfterEndImport(w, b, seen, outcome);
      case FetchLog(b, body) => InvariantAfterFetchLog(w, b, body);
    }
  }

  lemma {:induction false} RunKeepsInvariant(w: World, actions: seq<Action>)
    requires Invariant(w)
    ensures Invariant(Run(w, actions))
  {
    hide Invariant, Step;
    if actions != [] {
      RunKeepsInvariant(w, actions[..|actions| - 1]);
      StepKeepsInvariant(Run(w, actions[..|actions| - 1]), actions[|actions| - 1]);
    }
  }

  /** Every run of an author's projects, from before their first output on. */
  lemma ReachableWorldsAreInvariant(w: World, actions: seq<Action>)
    requires Fresh(w)
    ensures Invariant(Run(w, actions))
  {
    InvariantInitially(w);
    RunKeepsInvariant(w, actions);
  }
}
