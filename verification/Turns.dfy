/** In whose turn builds start: which steps let a build start while an older one goes on waiting. */
module Turns {
  import opened Options
  import opened Builds
  import opened Texts
  import opened BuildFacts
  import opened BuildQueue
  import opened BuildRuns
  import opened LateAnswers

  /** `w'` has newly started a build, and an older one waits. */
  ghost predicate Overtaking(w: World, w': World) {
    exists x, q :: x in w'.history.started && x !in w.history.started && q in QueuedIn(w'.builds) && q < x
  }

  /** Whatever `w'` has newly started was waiting in `w`, and nothing that still waits is older. */
  ghost predicate InTurn(w: World, w': World) {
    && QueuedIn(w'.builds) <= QueuedIn(w.builds)
    && (forall x :: x in w'.history.started && x !in w.history.started ==>
          x in QueuedIn(w.builds) && forall q :: q in QueuedIn(w'.builds) ==> x < q)
  }

  lemma InTurnIsNotOvertaking(w: World, w': World)
    requires InTurn(w, w')
    ensures !Overtaking(w, w')
  {
  }

  lemma TurnsCompose(w: World, w1: World, w2: World)
    requires InTurn(w, w1) && InTurn(w1, w2)
    ensures InTurn(w, w2)
  {
  }

  lemma SameQueue(w: World, w': World)
    requires w'.builds == w.builds && w'.history.started == w.history.started
    ensures InTurn(w, w')
  {
  }

  // ---- Marks and destroys ----

  lemma WriteInTurn(w: World, id: Stamp, s: Status, ch: Changes)
    requires s.Queued? && id in w.builds ==> w.builds[id].status.Queued?
    ensures InTurn(w, WrittenAndSynced(w, id, s, ch))
  {
    WriteFacts(w, id, s, ch);
    hide WrittenAndSynced;
    if id in w.builds { PutFacts(w.builds, id, Patched(w.builds[id], s, ch)); }
  }

  lemma PromotionInTurn(w: World)
    ensures InTurn(w, Promoted(w))
  {
    hide Promoted, FreeSlots, SlotAvailable, Min, InFlightIn;
    PromotionEffects(w);
  }

  /** From a world with the same builds, a mark. */
  lemma MarkInTurn(w: World, w1: World, id: Stamp, s: Status, ch: Changes)
    requires w1.builds == w.builds && w1.history.started == w.history.started
    requires s.Queued? && id in w.builds ==> w.builds[id].status.Queued?
    ensures InTurn(w, Marked(w1, id, s, ch))
  {
    hide WrittenAndSynced, Promoted, InTurn;
    var w2 := WrittenAndSynced(w1, id, s, ch);
    SameQueue(w, w1);
    WriteInTurn(w1, id, s, ch);
    PromotionInTurn(w2);
    TurnsCompose(w, w1, w2);
    TurnsCompose(w, w2, Promoted(w2));
  }

  lemma DestroyInTurn(w: World, id: Stamp)
    ensures InTurn(w, Destroyed(w, id))
  {
    RemoveFacts(w.builds, id);
  }

  lemma {:induction false} DestroyEachInTurn(w: World, ids: seq<Stamp>)
    ensures InTurn(w, DestroyedEach(w, ids))
  {
    hide Destroyed, InTurn;
    SameQueue(w, w);
    if ids != [] {
      var w1 := DestroyedEach(w, ids[..|ids| - 1]);
      DestroyEachInTurn(w, ids[..|ids| - 1]);
      DestroyInTurn(w1, ids[|ids| - 1]);
      TurnsCompose(w, w1, Destroyed(w1, ids[|ids| - 1]));
    }
  }

  // ---- The steps that create nothing ----

  lemma ReportInTurn(w: World, w1: World, id: Stamp, r: Report)
    requires w1.builds == w.builds && w1.history.started == w.history.started
    ensures InTurn(w, Reported(w1, id, r))
  {
    hide Marked, InlineLog, InTurn;
    SameQueue(w, w1);
    match r {
      case Succeeded(tail) => ClaimInTurn(w, w1, id, tail, false);
      case FailedWithOutput(tail) => ClaimInTurn(w, w1, id, tail, true);
      case FailedWithoutOutput(tail) => MarkInTurn(w, w1, id, Failed, LogOnly(InlineLog(tail)));
      case SomethingElse =>
    }
  }

  lemma ClaimInTurn(w: World, w1: World, id: Stamp, tail: string, flagged: bool)
    requires w1.builds == w.builds && w1.history.started == w.history.started
    ensures InTurn(w, Claimed(w1, id, tail, flagged))
  {
    hide Marked, InlineLog, InTurn;
    var ch := Changes(Some(InlineLog(tail)), flagged, false, false);
    var w2 := Marked(w1, id, ReceivedFromServer, ch);
    MarkInTurn(w, w1, id, ReceivedFromServer, ch);
    SameQueue(w2, Claimed(w1, id, tail, flagged));
    TurnsCompose(w, w2, Claimed(w1, id, tail, flagged));
  }

  lemma AnswersInTurn(w: World, a: Action)
    requires a.Callback? || a.CheckReply?
    ensures InTurn(w, Step(w, a))
  {
    hide Reported, InTurn;
    SameQueue(w, w);
    match a {
      case Callback(id, r, _) =>
        var w1 := Reported(w, id, r);
        ReportInTurn(w, w, id, r);
        SameQueue(w1, WithJob(w1, LogJob(id)));
        TurnsCompose(w, w1, WithJob(w1, LogJob(id)));
      case CheckReply(id, reply) =>
        SameQueue(w, WithoutJob(w, Checking(id)));
        if reply.Answer? { ReportInTurn(w, WithoutJob(w, Checking(id)), id, reply.report); }
    }
  }

  lemma ImportInTurn(w: World, id: Stamp, seen: Build, o: ImportOutcome)
    ensures InTurn(w, ImportEnded(w, id, seen, o))
  {
    hide Marked, Surplus, Appended, DestroyedEach, InTurn;
    var w1 := WithoutJob(w, Importing(id, seen));
    var w2, t := Marked(w1, id, Success, NOTHING_ELSE), PruningTarget(w, id, seen);
    SameQueue(w, w);
    MarkInTurn(w, w1, id, Success, NOTHING_ELSE);
    MarkInTurn(w, w1, id, Failed, NOTHING_ELSE);
    MarkInTurn(w, w1, id, Failed, LogOnly(Appended(seen.log, TIMEOUT_LOG)));
    PruningInTurn(w, w2, t, |Surplus(w2, t)|);
    assert Surplus(w2, t)[..|Surplus(w2, t)|] == Surplus(w2, t);
    if o.CrashedAfterSuccess? {
      PruningInTurn(w, w2, t, Min(o.pruned, |Surplus(w2, t)|));
      var w3 := PrunedUpTo(w2, t, o.pruned);
      MarkInTurn(w3, w3, id, Failed, NOTHING_ELSE);
      TurnsCompose(w, w3, Marked(w3, id, Failed, NOTHING_ELSE));
    }
  }

  lemma PruningInTurn(w: World, w2: World, t: TargetId, k: nat)
    requires InTurn(w, w2) && k <= |Surplus(w2, t)|
    ensures InTurn(w, DestroyedEach(w2, Surplus(w2, t)[..k]))
  {
    hide Surplus, InTurn;
    DestroyEachInTurn(w2, Surplus(w2, t)[..k]);
    TurnsCompose(w, w2, DestroyedEach(w2, Surplus(w2, t)[..k]));
  }

  lemma RecheckInTurn(w: World, id: Stamp, k: nat, stalled: bool)
    ensures InTurn(w, Rechecked(w, id, k, stalled))
  {
    hide Advanced, InTurn;
    var w1 := WithoutJob(w, RecheckJob(id, k));
    SameQueue(w, w);
    SameQueue(w, w1);
    if id in w.builds {
      var w2 := Advanced(w1, id, stalled);
      AdvanceInTurn(w, w1, id, stalled);
      SameQueue(w2, WithJob(w2, RecheckJob(id, k + 1)));
      TurnsCompose(w, w2, WithJob(w2, RecheckJob(id, k + 1)));
    }
  }

  lemma AdvanceInTurn(w: World, w1: World, id: Stamp, stalled: bool)
    requires w1.builds == w.builds && w1.history.started == w.history.started && id in w1.builds
    ensures InTurn(w, Advanced(w1, id, stalled))
  {
    hide Marked, InTurn, Appended;
    SameQueue(w, w1);
    SameQueue(w, CheckRequested(w1, id));
    MarkInTurn(w, w1, id, Failed, LogOnly(Appended(w1.builds[id].log, STALLED_LOG)));
  }

  lemma SubmittingInTurn(w: World, a: Action)
    requires a.Submit? || a.SubmitReply?
    ensures InTurn(w, Step(w, a))
  {
    hide Marked, InTurn;
    SameQueue(w, w);
    match a {
      case Submit(id) =>
        var w1 := WithoutJob(w, SubmitJob(id));
        SameQueue(w, w1);
        MarkInTurn(w, WithJob(w1, Submitting(id)), id, InProgress, NOTHING_ELSE);
      case SubmitReply(id, answer) =>
        var w1 := WithoutJob(w, Submitting(id));
        MarkInTurn(w, w1, id, Failed, NOTHING_ELSE);
        if answer.Accepted? { MarkInTurn(w, w1, id, SentToServer, Changes(None, false, false, answer.statusUrl)); }
    }
  }

  lemma FetchInTurn(w: World, id: Stamp, body: Option<string>)
    ensures InTurn(w, LogFetched(w, id, body))
  {
    hide Marked, InTurn, Blank;
    var w1 := WithoutJob(w, LogJob(id));
    SameQueue(w, w);
    SameQueue(w, w1);
    if id in w.builds && body.Some? { MarkInTurn(w, w1, id, w.builds[id].status, LogOnly(body.value)); }
  }

  lemma CancelInTurn(w: World, id: Stamp, stopped: bool)
    ensures InTurn(w, CancelRequested(w, id)) && InTurn(w, CancelAnswered(w, id, stopped))
  {
    hide Marked, InTurn;
    var w1 := WithoutJob(w, Canceling(id));
    SameQueue(w, w);
    SameQueue(w, w1);
    SameQueue(w, WithJob(w, Canceling(id)));
    MarkInTurn(w, w, id, Canceled, LogOnly(CANCEL_LOG));
    MarkInTurn(w, w1, id, Canceled, LogOnly(CANCEL_LOG));
  }

  lemma AcceptInTurn(w: World, id: Stamp)
    ensures InTurn(w, ErrorsAccepted(w, id))
  {
    hide Marked, InTurn;
    SameQueue(w, w);
    MarkInTurn(w, w, id, Success, Changes(None, false, true, false));
  }

  lemma QuietInTurn(w: World, a: Action)
    requires Quiet(a)
    ensures InTurn(w, Step(w, a))
  {
    hide InTurn, Step;
    QuietStepsKeepBuilds(w, a);
    SameQueue(w, Step(w, a));
  }

  lemma AuthorsInTurn(w: World, a: Action)
    requires a.RequestCancel? || a.CancelReply? || a.AcceptErrors? || a.DeleteBuild? || a.Revert?
    ensures InTurn(w, Step(w, a))
  {
    hide CancelRequested, CancelAnswered, ErrorsAccepted, Destroyed, PreviousLive, InTurn;
    SameQueue(w, w);
    match a {
      case RequestCancel(id) => CancelInTurn(w, id, false);
      case CancelReply(id, stopped) => CancelInTurn(w, id, stopped);
      case AcceptErrors(id) => AcceptInTurn(w, id);
      case DeleteBuild(id) => DestroyInTurn(w, id);
      case Revert(t) =>
        if t in w.targets && w.targets[t].current.Some? { DestroyInTurn(w, w.targets[t].current.value); }
    }
  }

  lemma JobsInTurn(w: World, a: Action)
    requires a.Recheck? || a.EndImport? || a.FetchLog?
    ensures InTurn(w, Step(w, a))
  {
    hide Rechecked, ImportEnded, LogFetched, InTurn;
    match a {
      case Recheck(id, k, stalled) => RecheckInTurn(w, id, k, stalled);
      case EndImport(id, seen, o) => ImportInTurn(w, id, seen, o);
      case FetchLog(id, body) => FetchInTurn(w, id, body);
    }
  }

  /** Every step that creates no build starts what has waited longest. */
  lemma OthersInTurn(w: World, a: Action)
    requires !a.CreateBuild? && !a.BuildAll?
    ensures InTurn(w, Step(w, a))
  {
    hide Step, InTurn;
    if a.Callback? || a.CheckReply? {
      AnswersInTurn(w, a);
    } else if a.Submit? || a.SubmitReply? {
      SubmittingInTurn(w, a);
    } else if a.Recheck? || a.EndImport? || a.FetchLog? {
      JobsInTurn(w, a);
    } else if a.RequestCancel? || a.CancelReply? || a.AcceptErrors? || a.DeleteBuild? || a.Revert? {
      AuthorsInTurn(w, a);
    } else {
      QuietInTurn(w, a);
    }
  }

  // ---- The steps that create ----

  /** `w'` comes from `w` by creating builds, at least one if `some`. */
  ghost predicate Grown(w: World, w': World, some: bool) {
    && QueuedIn(w.builds) <= QueuedIn(w'.builds)
    && (forall b :: b in w.history.started ==> b in w'.history.started)
    && (some && SlotAvailable(w) ==> w.clock in w'.history.started)
    && (!SlotAvailable(w) ==> !SlotAvailable(w') && w'.history.started == w.history.started)
    && (QueuedIn(w.builds) == {} ==> GrownInOrder(w, w'))
  }

  /** With nobody waiting at first, whoever waits is newer than whatever was started. */
  ghost predicate GrownInOrder(w: World, w': World) {
    && (SlotAvailable(w') ==> QueuedIn(w'.builds) == {})
    && (forall x, q :: x in w'.history.started && x !in w.history.started && q in QueuedIn(w'.builds) ==> x < q)
  }

  /** What creating one build does to the queue and the starts. */
  ghost predicate GrownByOne(w: World, w': World) {
    && w.clock !in w.history.started && w.clock !in QueuedIn(w.builds)
    && (if SlotAvailable(w) then
          QueuedIn(w'.builds) == QueuedIn(w.builds) && w'.history.started == w.history.started + [w.clock]
        else
          && QueuedIn(w'.builds) == QueuedIn(w.builds) + {w.clock} && w'.history.started == w.history.started
          && !SlotAvailable(w'))
  }

  lemma CreatingOne(w: World, t: TargetId)
    requires Orderly(w)
    ensures GrownByOne(w, Created(w, t))
  {
    assert w.clock !in w.builds && w.clock !in w.history.started && w.clock !in QueuedIn(w.builds);
    hide Orderly, Inserted, FreeSlots, Min;
    InsertFacts(w, t);
    PutFacts(w.builds, w.clock, FreshBuild(w, t));
    hide QueuedIn, InFlightIn;
    ToggledSize(InFlightIn(w.builds), w.clock, SlotAvailable(w));
  }

  /** One build more. */
  lemma GrowsByOne(w: World, w1: World, w2: World, some: bool)
    requires Orderly(w1) && Grown(w, w1, some) && (!some ==> w1 == w) && GrownByOne(w1, w2)
    ensures Grown(w, w2, true)
  {
    assert forall b :: b in w1.history.started ==> b < w1.clock;
    hide Orderly, GrownInOrder, SlotAvailable, QueuedIn;
    if QueuedIn(w.builds) == {} { GrowsInOrder(w, w1, w2); }
  }

  lemma GrowsInOrder(w: World, w1: World, w2: World)
    requires Orderly(w1) && GrownInOrder(w, w1) && GrownByOne(w1, w2)
    ensures GrownInOrder(w, w2)
  {
    assert forall b :: b in w1.history.started ==> b < w1.clock;
    hide Orderly, SlotAvailable, QueuedIn;
  }

  lemma {:induction false} CreatingGrows(w: World, ts: seq<TargetId>)
    requires Orderly(w)
    ensures Orderly(CreatedEach(w, ts)) && Grown(w, CreatedEach(w, ts), ts != [])
  {
    if ts != [] {
      var front, t := ts[..|ts| - 1], ts[|ts| - 1];
      hide Orderly, Grown, GrownByOne, Created;
      CreatingGrows(w, front);
      OrderlyAfterCreate(CreatedEach(w, front), t);
      CreatingOne(CreatedEach(w, front), t);
      GrowsByOne(w, CreatedEach(w, front), CreatedEach(w, ts), front != []);
    }
  }

  lemma GrownOvertakesExactlyWhen(w: World, w': World, some: bool)
    requires Orderly(w) && Grown(w, w', some) && (!some ==> w' == w)
    ensures Overtaking(w, w') <==> some && SlotAvailable(w) && QueuedIn(w.builds) != {}
  {
    assert w.clock !in w.history.started && forall q :: q in QueuedIn(w.builds) ==> q < w.clock;
    hide Orderly, SlotAvailable;
    if some && SlotAvailable(w) && QueuedIn(w.builds) != {} {
      var q :| q in QueuedIn(w.builds);
      assert w.clock in w'.history.started && q in QueuedIn(w'.builds) && q < w.clock;
    }
  }

  // ---- All of them ----

  /** The step creates a build. */
  predicate Creates(w: World, a: Action) {
    || (a.CreateBuild? && a.target in w.targets)
    || (a.BuildAll? && a.project in w.projects && BulkCandidates(w, a.project) != [])
  }

  /**
   A build starts while an older one goes on waiting exactly where one is created when a slot is
   free and another build waits: the new one takes the slot. Every other start is of the build
   that has waited longest.
   */
  lemma OvertakesExactlyWhen(w: World, a: Action)
    requires Orderly(w)
    ensures Overtaking(w, Step(w, a)) <==> Creates(w, a) && SlotAvailable(w) && QueuedIn(w.builds) != {}
  {
    hide Orderly, Overtaking, SlotAvailable, InTurn, Grown, BulkCandidates;
    if a.CreateBuild? || a.BuildAll? {
      var ts := Creating(w, a);
      CreatingSteps(w, a);
      hide Step;
      CreatingGrows(w, ts);
      CreatingNothing(w);
      GrownOvertakesExactlyWhen(w, CreatedEach(w, ts), ts != []);
    } else {
      hide Step;
      OthersInTurn(w, a);
      InTurnIsNotOvertaking(w, Step(w, a));
    }
  }

  /** The targets a step creates builds of. */
  function Creating(w: World, a: Action): seq<TargetId> {
    if a.CreateBuild? && a.target in w.targets then [a.target]
    else if a.BuildAll? && a.project in w.projects then BulkCandidates(w, a.project)
    else []
  }

  lemma CreatingSteps(w: World, a: Action)
    requires a.CreateBuild? || a.BuildAll?
    ensures Step(w, a) == CreatedEach(w, Creating(w, a)) && (Creating(w, a) != [] <==> Creates(w, a))
  {
    hide Created, BulkCandidates;
    CreatingNothing(w);
    if a.CreateBuild? { assert [a.target][..0] == []; }
  }

  lemma CreatingNothing(w: World)
    ensures CreatedEach(w, []) == w
  {
  }

  /**
   The run that shows it: the only slot is left idle by a deleted build, the second build waits
   for it, and a third, asked for later, gets it.
   */
  lemma LaterBuildOvertakes(w: World)
    requires Ready(w)
    ensures var before := Step(OneWaits(w), DeleteBuild(1));
      QueuedIn(before.builds) == {2} && Overtaking(before, Step(before, CreateBuild(0)))
  {
    InvariantInitially(w);
    hide Step, Invariant, Orderly, Ready, Overtaking, SlotAvailable;
    DeleteLeavesSlotIdle(w);
    var w1 := Step(w, AddTarget(0));
    StepKeepsInvariant(w, AddTarget(0));
    StepKeepsInvariant(w1, CreateBuild(0));
    StepKeepsInvariant(FirstBuild(w), CreateBuild(0));
    StepKeepsInvariant(OneWaits(w), DeleteBuild(1));
    InvariantIsOrderly(Step(OneWaits(w), DeleteBuild(1)));
    OvertakesExactlyWhen(Step(OneWaits(w), DeleteBuild(1)), CreateBuild(0));
  }
}
