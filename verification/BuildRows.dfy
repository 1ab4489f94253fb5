/** Which steps add and remove builds: only the two that create them add any. */
module BuildRows {
  import opened Options
  import opened Builds
  import opened Texts
  import opened BuildFacts
  import opened Outcomes

  predicate New(b: Build) {
    !b.errorsAccepted && !b.completedWithErrors && !b.hasStatusUrl && b.log == ""
      && (b.status.Pending? || b.status.Queued?)
  }

  /** A build that a step adds has neither flag set, and waits to be submitted or for a slot. */
  lemma NewBuildsAreFresh(w: World, a: Action, b: Stamp)
    requires b !in w.builds && b in Step(w, a).builds
    ensures New(Step(w, a).builds[b])
  {
    match a {
      case CreateBuild(t) =>
        assert CreatedEach(w, []) == w;
        if t in w.targets { CreatedBuilds(w, [t], b); }
      case BuildAll(p) => if p in w.projects { CreatedBuilds(w, BulkCandidates(w, p), b); }
      case _ =>
        hide Step;
        OnlyCreatingAdds(w, a);
    }
  }

  lemma {:induction false} CreatedBuilds(w: World, ts: seq<TargetId>, b: Stamp)
    requires b !in w.builds && b in CreatedEach(w, ts).builds
    ensures New(CreatedEach(w, ts).builds[b])
  {
    if ts != [] {
      var w1, t := CreatedEach(w, ts[..|ts| - 1]), ts[|ts| - 1];
      assert CreatedEach(w, ts) == Created(w1, t);
      InsertFacts(w1, t);
      assert Created(w1, t).builds == w1.builds[w1.clock := FreshBuild(w1, t)];
      hide CreatedEach, Created;
      if b != w1.clock {
        CreatedBuilds(w, ts[..|ts| - 1], b);
      }
    }
  }

  lemma PromotionKeepsRows(w: World)
    ensures Promoted(w).builds.Keys == w.builds.Keys
  {
    hide Promoted, FreeSlots, SlotAvailable, Min, InFlightIn;
    PromotionEffects(w);
  }

  lemma MarkKeepsRows(w: World, id: Stamp, s: Status, ch: Changes)
    ensures Marked(w, id, s, ch).builds.Keys == w.builds.Keys
  {
    WriteFacts(w, id, s, ch);
    hide Promoted, WrittenAndSynced;
    PromotionKeepsRows(WrittenAndSynced(w, id, s, ch));
  }

  lemma ReportKeepsRows(w: World, id: Stamp, r: Report)
    ensures Reported(w, id, r).builds.Keys == w.builds.Keys
  {
    hide Marked;
    match r {
      case Succeeded(tail) =>
        MarkKeepsRows(w, id, ReceivedFromServer, Changes(Some(InlineLog(tail)), false, false, false));
      case FailedWithOutput(tail) =>
        MarkKeepsRows(w, id, ReceivedFromServer, Changes(Some(InlineLog(tail)), true, false, false));
      case FailedWithoutOutput(tail) => MarkKeepsRows(w, id, Failed, LogOnly(InlineLog(tail)));
      case SomethingElse =>
    }
  }

  lemma {:induction false} DestroyedRows(w: World, ids: seq<Stamp>)
    ensures DestroyedEach(w, ids).builds == w.builds - (set x | x in ids)
  {
    if ids == [] {
      assert w.builds - (set x | x in ids) == w.builds;
    } else {
      var front, last := ids[..|ids| - 1], ids[|ids| - 1];
      hide Destroyed;
      DestroyedRows(w, front);
      DestroyedRow(DestroyedEach(w, front), last);
      var gone := set x | x in front;
      assert (set x | x in ids) == gone + {last};
      assert w.builds - gone - {last} == w.builds - (gone + {last});
    }
  }

  lemma DestroyedRow(w: World, id: Stamp)
    ensures Destroyed(w, id).builds == w.builds - {id}
  {
    assert id !in w.builds ==> w.builds - {id} == w.builds;
  }

  lemma {:induction false} DestroyingKeepsJobs(w: World, ids: seq<Stamp>)
    ensures DestroyedEach(w, ids).jobs == w.jobs && DestroyedEach(w, ids).history.imports == w.history.imports
  {
    if ids != [] { DestroyingKeepsJobs(w, ids[..|ids| - 1]); }
  }

  lemma {:induction false} DestroyingOnlyRemoves(w: World, ids: seq<Stamp>)
    ensures DestroyedEach(w, ids).builds.Keys <= w.builds.Keys
  {
    if ids != [] {
      DestroyingOnlyRemoves(w, ids[..|ids| - 1]);
    }
  }

  lemma ImportOnlyRemoves(w: World, id: Stamp, seen: Build, o: ImportOutcome)
    ensures ImportEnded(w, id, seen, o).builds.Keys <= w.builds.Keys
  {
    hide Marked, Appended, Surplus;
    var w1 := WithoutJob(w, Importing(id, seen));
    var w2 := Marked(w1, id, Success, NOTHING_ELSE);
    MarkKeepsRows(w1, id, Success, NOTHING_ELSE);
    MarkKeepsRows(w1, id, Failed, NOTHING_ELSE);
    MarkKeepsRows(w1, id, Failed, LogOnly(Appended(seen.log, TIMEOUT_LOG)));
    MarkKeepsRows(w2, id, Failed, NOTHING_ELSE);
    var t := PruningTarget(w, id, seen);
    var surplus := Surplus(w2, t);
    DestroyingOnlyRemoves(w2, surplus);
    if o.CrashedAfterSuccess? {
      DestroyingOnlyRemoves(w2, surplus[..Min(o.pruned, |surplus|)]);
      MarkKeepsRows(PrunedUpTo(w2, t, o.pruned), id, Failed, NOTHING_ELSE);
    }
  }

  lemma RecheckKeepsRows(w: World, id: Stamp, k: nat, stalled: bool)
    ensures Rechecked(w, id, k, stalled).builds.Keys == w.builds.Keys
  {
    hide Marked, Appended;
    if id in w.builds {
      MarkKeepsRows(WithoutJob(w, RecheckJob(id, k)), id, Failed, LogOnly(Appended(w.builds[id].log, STALLED_LOG)));
    }
  }

  lemma AuthorsKeepRows(w: World, b: Stamp, stopped: bool)
    ensures CancelRequested(w, b).builds.Keys == w.builds.Keys
      && CancelAnswered(w, b, stopped).builds.Keys == w.builds.Keys
    ensures ErrorsAccepted(w, b).builds.Keys == w.builds.Keys
  {
    hide Marked;
    MarkKeepsRows(w, b, Canceled, LogOnly(CANCEL_LOG));
    MarkKeepsRows(WithoutJob(w, Canceling(b)), b, Canceled, LogOnly(CANCEL_LOG));
    MarkKeepsRows(w, b, Success, Changes(None, false, true, false));
  }

  lemma SubmittingKeepsRows(w: World, b: Stamp, answer: SubmitAnswer)
    ensures Submitted(w, b).builds.Keys == w.builds.Keys && SubmitAnswered(w, b, answer).builds.Keys == w.builds.Keys
  {
    hide Marked;
    var w1 := WithoutJob(w, Submitting(b));
    MarkKeepsRows(WithJob(WithoutJob(w, SubmitJob(b)), Submitting(b)), b, InProgress, NOTHING_ELSE);
    MarkKeepsRows(w1, b, Failed, NOTHING_ELSE);
    if answer.Accepted? { MarkKeepsRows(w1, b, SentToServer, Changes(None, false, false, answer.statusUrl)); }
  }

  lemma AnswersKeepRows(w: World, b: Stamp, r: Report, moreLog: bool, reply: CheckAnswer)
    ensures CalledBack(w, b, r, moreLog).builds.Keys == w.builds.Keys
    ensures CheckAnswered(w, b, reply).builds.Keys == w.builds.Keys
  {
    hide Reported;
    ReportKeepsRows(w, b, r);
    if reply.Answer? { ReportKeepsRows(WithoutJob(w, Checking(b)), b, reply.report); }
  }

  lemma FetchKeepsRows(w: World, b: Stamp, body: Option<string>)
    ensures LogFetched(w, b, body).builds.Keys == w.builds.Keys
  {
    hide Marked, Blank;
    if b in w.builds && body.Some? {
      MarkKeepsRows(WithoutJob(w, LogJob(b)), b, w.builds[b].status, LogOnly(body.value));
    }
  }

  predicate MovesRows(a: Action) { a.CreateBuild? || a.BuildAll? || a.DeleteBuild? || a.Revert? || a.EndImport? }

  /** All but five actions leave the set of builds alone. */
  lemma RowsStay(w: World, a: Action)
    requires !MovesRows(a)
    ensures Step(w, a).builds.Keys == w.builds.Keys
  {
    if Quiet(a) {
      hide Step;
      QuietStepsKeepBuilds(w, a);
    } else {
      hide CancelRequested, CancelAnswered, ErrorsAccepted, Submitted, SubmitAnswered, CalledBack, CheckAnswered,
        Rechecked, LogFetched;
      match a {
        case RequestCancel(b) => AuthorsKeepRows(w, b, false);
        case CancelReply(b, stopped) => AuthorsKeepRows(w, b, stopped);
        case AcceptErrors(b) => AuthorsKeepRows(w, b, false);
        case Submit(b) => SubmittingKeepsRows(w, b, Rejected);
        case SubmitReply(b, answer) => SubmittingKeepsRows(w, b, answer);
        case Callback(b, r, moreLog) => AnswersKeepRows(w, b, r, moreLog, Unreachable);
        case CheckReply(b, reply) => AnswersKeepRows(w, b, SomethingElse, false, reply);
        case Recheck(b, k, stalled) => RecheckKeepsRows(w, b, k, stalled);
        case FetchLog(b, body) => FetchKeepsRows(w, b, body);
      }
    }
  }

  lemma OnlyCreatingAdds(w: World, a: Action)
    requires !a.CreateBuild? && !a.BuildAll?
    ensures Step(w, a).builds.Keys <= w.builds.Keys
  {
    if !MovesRows(a) {
      hide Step;
      RowsStay(w, a);
    } else {
      hide ImportEnded, PreviousLive;
      if a.EndImport? { ImportOnlyRemoves(w, a.build, a.seen, a.outcome); }
    }
  }

  lemma {:induction false} CreatingKeepsRows(w: World, ts: seq<TargetId>)
    ensures w.builds.Keys <= CreatedEach(w, ts).builds.Keys
  {
    if ts != [] {
      var w1, t := CreatedEach(w, ts[..|ts| - 1]), ts[|ts| - 1];
      InsertFacts(w1, t);
      assert Created(w1, t).builds.Keys == w1.builds.Keys + {w1.clock};
      hide Created;
      CreatingKeepsRows(w, ts[..|ts| - 1]);
    }
  }

  /** A build that is gone never comes back. */
  lemma NothingReturns(w: World, a: Action, b: Stamp)
    requires b !in w.builds && b < w.clock
    ensures b !in Step(w, a).builds
  {
    hide Created, CreatedEach;
    match a {
      case CreateBuild(t) => Creating(w, t, b);
      case BuildAll(p) => if p in w.projects { CreatingMany(w, BulkCandidates(w, p), b); }
      case _ =>
        hide Step;
        OnlyCreatingAdds(w, a);
    }
  }

  lemma {:induction false} CreatingAdvancesClock(w: World, ts: seq<TargetId>)
    ensures w.clock <= CreatedEach(w, ts).clock
  {
    if ts != [] {
      CreatingAdvancesClock(w, ts[..|ts| - 1]);
      InsertFacts(CreatedEach(w, ts[..|ts| - 1]), ts[|ts| - 1]);
    }
  }

  lemma StepAdvancesClock(w: World, a: Action)
    ensures w.clock <= Step(w, a).clock
  {
    hide CreatedEach, BulkCandidates;
    match a {
      case CreateBuild(t) => InsertFacts(w, t);
      case BuildAll(p) => if p in w.projects { CreatingAdvancesClock(w, BulkCandidates(w, p)); }
      case _ =>
        hide Step;
        StepsAboutOthers(w, a, if Subject(a) == Some(0) then 1 else 0);
    }
  }

  /** Over a run, the clock never goes back and no build that is gone comes back. */
  lemma {:induction false} RunOnlyMovesOn(w: World, actions: seq<Action>, k: nat)
    requires k <= |actions|
    ensures Run(w, actions[..k]).clock <= Run(w, actions).clock
    ensures forall b ::
      b in Run(w, actions).builds && b < Run(w, actions[..k]).clock ==> b in Run(w, actions[..k]).builds
  {
    if k == |actions| {
      assert actions[..k] == actions;
    } else {
      var front, a := actions[..|actions| - 1], actions[|actions| - 1];
      assert front[..k] == actions[..k];
      RunOnlyMovesOn(w, front, k);
      var w1 := Run(w, front);
      assert Run(w, actions) == Step(w1, a);
      hide Run, Step;
      StepAdvancesClock(w1, a);
      forall b | b in Step(w1, a).builds && b < Run(w, actions[..k]).clock
        ensures b in Run(w, actions[..k]).builds
      {
        if b !in w1.builds { NothingReturns(w1, a, b); }
      }
    }
  }
}
