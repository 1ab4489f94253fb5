/** Which steps take an author over the cap: exactly those that bring back an outcome. */
module Overload {
  import opened Options
  import opened Builds
  import opened Texts
  import opened BuildFacts
  import opened BuildQueue
  import opened Outcomes
  import opened Claims

  function Load(w: World): nat { |InFlightIn(w.builds)| }

  function Max(a: nat, b: nat): nat { if a < b then b else a }

  /** A step that turns the outcome of its build back into something in flight. */
  predicate Reviving(w: World, a: Action) {
    match Subject(a)
    case Some(b) => b in w.builds && Terminal(w.builds[b].status) && (Resubmitting(w, a, b) || ClaimingByCheck(w, a, b))
    case None => false
  }

  /** `w'` has no more in flight than `w` had or the cap allows. */
  predicate WithinCap(w: World, w': World) { w'.cap == w.cap && Load(w') <= Max(Load(w), w.cap) }

  lemma SetShrunk(a: set<Stamp>, b: set<Stamp>)
    requires a <= b
    ensures |a| <= |b|
  {
    assert b == a + (b - a);
  }

  lemma WriteLoad(w: World, id: Stamp, s: Status, ch: Changes)
    requires id in w.builds && InFlight(s) ==> InFlight(w.builds[id].status)
    ensures var w' := WrittenAndSynced(w, id, s, ch); w'.cap == w.cap && Load(w') <= Load(w)
  {
    WriteFacts(w, id, s, ch);
    hide WrittenAndSynced;
    if id in w.builds { PutFacts(w.builds, id, Patched(w.builds[id], s, ch)); }
    SetShrunk(InFlightIn(WrittenAndSynced(w, id, s, ch).builds), InFlightIn(w.builds));
  }

  lemma PromotionLoad(w: World)
    ensures WithinCap(w, Promoted(w))
  {
    hide Promoted, FreeSlots, Min;
    PromotionEffects(w);
  }

  /** A mark that does not bring its build into flight. */
  lemma MarkLoad(w: World, id: Stamp, s: Status, ch: Changes)
    requires id in w.builds && InFlight(s) ==> InFlight(w.builds[id].status)
    ensures WithinCap(w, Marked(w, id, s, ch))
  {
    hide WrittenAndSynced, Promoted;
    WriteLoad(w, id, s, ch);
    PromotionLoad(WrittenAndSynced(w, id, s, ch));
  }

  lemma CreateLoad(w: World, t: TargetId)
    requires w.clock !in w.builds
    ensures WithinCap(w, Created(w, t))
  {
    hide FreeSlots;
    InsertFacts(w, t);
    PutFacts(w.builds, w.clock, FreshBuild(w, t));
    ToggledSize(InFlightIn(w.builds), w.clock, SlotAvailable(w));
  }

  lemma DestroyLoad(w: World, id: Stamp)
    ensures var w' := Destroyed(w, id); w'.cap == w.cap && Load(w') <= Load(w)
  {
    if id in w.builds {
      RemoveFacts(w.builds, id);
      SetShrunk(InFlightIn(w.builds - {id}), InFlightIn(w.builds));
    }
  }

  lemma {:induction false} DestroyEachLoad(w: World, ids: seq<Stamp>)
    ensures var w' := DestroyedEach(w, ids); w'.cap == w.cap && Load(w') <= Load(w)
  {
    hide Destroyed;
    if ids != [] {
      DestroyEachLoad(w, ids[..|ids| - 1]);
      DestroyLoad(DestroyedEach(w, ids[..|ids| - 1]), ids[|ids| - 1]);
    }
  }

  lemma {:induction false} CreateEachLoad(w: World, ts: seq<TargetId>)
    requires forall b :: b in w.builds ==> b < w.clock
    ensures WithinCap(w, CreatedEach(w, ts))
    ensures var w' := CreatedEach(w, ts); forall b :: b in w'.builds ==> b < w'.clock
  {
    hide Created;
    if ts != [] {
      var w1, t := CreatedEach(w, ts[..|ts| - 1]), ts[|ts| - 1];
      CreateEachLoad(w, ts[..|ts| - 1]);
      CreateLoad(w1, t);
      CreatedBehindClock(w1, t);
    }
  }

  lemma CreatedBehindClock(w: World, t: TargetId)
    requires forall b :: b in w.builds ==> b < w.clock
    ensures var w' := Created(w, t); forall b :: b in w'.builds ==> b < w'.clock
  {
    InsertFacts(w, t);
  }

  lemma ReportLoad(w: World, id: Stamp, r: Report)
    requires id in w.builds && (r.Succeeded? || r.FailedWithOutput?) ==> InFlight(w.builds[id].status)
    ensures WithinCap(w, Reported(w, id, r))
  {
    hide Marked, InlineLog;
    match r {
      case Succeeded(tail) => MarkLoad(w, id, ReceivedFromServer, Changes(Some(InlineLog(tail)), false, false, false));
      case FailedWithOutput(tail) =>
        MarkLoad(w, id, ReceivedFromServer, Changes(Some(InlineLog(tail)), true, false, false));
      case FailedWithoutOutput(tail) => MarkLoad(w, id, Failed, LogOnly(InlineLog(tail)));
      case SomethingElse =>
    }
  }

  lemma ImportLoad(w: World, id: Stamp, seen: Build, o: ImportOutcome)
    ensures WithinCap(w, ImportEnded(w, id, seen, o))
  {
    hide Marked, Surplus, Appended, DestroyedEach;
    var w1 := WithoutJob(w, Importing(id, seen));
    var w2 := Marked(w1, id, Success, NOTHING_ELSE);
    MarkLoad(w1, id, Success, NOTHING_ELSE);
    MarkLoad(w1, id, Failed, NOTHING_ELSE);
    MarkLoad(w1, id, Failed, LogOnly(Appended(seen.log, TIMEOUT_LOG)));
    MarkLoad(w2, id, Failed, NOTHING_ELSE);
    var t := PruningTarget(w, id, seen);
    var surplus := Surplus(w2, t);
    DestroyEachLoad(w2, surplus);
    if o.CrashedAfterSuccess? {
      DestroyEachLoad(w2, surplus[..Min(o.pruned, |surplus|)]);
      MarkLoad(PrunedUpTo(w2, t, o.pruned), id, Failed, NOTHING_ELSE);
    }
  }

  lemma AuthorsStayWithinCap(w: World, a: Action)
    requires FromAuthor(a) && forall b :: b in w.builds ==> b < w.clock
    ensures WithinCap(w, Step(w, a))
  {
    hide Marked, CreatedEach, Created, Destroyed, BulkCandidates, WithinCap, Synced;
    SameLoad(w, w);
    match a {
      case CreateBuild(t) => CreateLoad(w, t);
      case BuildAll(p) => if p in w.projects { CreateEachLoad(w, BulkCandidates(w, p)); }
      case RequestCancel(id) =>
        MarkLoad(w, id, Canceled, LogOnly(CANCEL_LOG));
        SameLoad(w, WithJob(w, Canceling(id)));
      case CancelReply(id, _) =>
        var w1 := WithoutJob(w, Canceling(id));
        SameLoad(w, w1);
        MarkLoad(w1, id, Canceled, LogOnly(CANCEL_LOG));
        LoadsCompose(w, w1, Marked(w1, id, Canceled, LogOnly(CANCEL_LOG)));
      case AcceptErrors(id) => MarkLoad(w, id, Success, Changes(None, false, true, false));
      case DeleteBuild(id) => DestroyLoad(w, id); LessLoad(w, Destroyed(w, id));
      case Revert(t) =>
        if t in w.targets && w.targets[t].current.Some? {
          DestroyLoad(w, w.targets[t].current.value);
          LessLoad(w, Destroyed(w, w.targets[t].current.value));
        }
      case Publish(t, published) => SameLoad(w, Published(w, t, published));
      case SetVisibility(p, v) => SameLoad(w, VisibilitySet(w, p, v));
      case EditSource(p) => SameLoad(w, SourceEdited(w, p));
      case AddTarget(p) => SameLoad(w, TargetAdded(w, p));
    }
  }

  lemma SameLoad(w: World, w': World)
    requires w'.builds == w.builds && w'.cap == w.cap
    ensures WithinCap(w, w')
  {
  }

  lemma LessLoad(w: World, w': World)
    requires w'.cap == w.cap && Load(w') <= Load(w)
    ensures WithinCap(w, w')
  {
  }

  lemma LoadsCompose(w: World, w1: World, w2: World)
    requires WithinCap(w, w1) && WithinCap(w1, w2)
    ensures WithinCap(w, w2)
  {
  }

  /** Taking a job, then marking its build without bringing it into flight. */
  lemma JobThenMarkLoad(w: World, w1: World, id: Stamp, s: Status, ch: Changes)
    requires w1.builds == w.builds && w1.cap == w.cap
    requires id in w.builds && InFlight(s) ==> InFlight(w.builds[id].status)
    ensures WithinCap(w, Marked(w1, id, s, ch))
  {
    hide Marked;
    MarkLoad(w1, id, s, ch);
  }

  lemma SubmittingStaysWithinCap(w: World, a: Action)
    requires Orderly(w) && (a.Submit? || a.SubmitReply?) && !Reviving(w, a)
    ensures WithinCap(w, Step(w, a))
  {
    hide Marked, WithinCap;
    SameLoad(w, w);
    match a {
      case Submit(id) =>
        var w1 := WithoutJob(w, SubmitJob(id));
        SameLoad(w, w1);
        if SubmitJob(id) in w.jobs && id in w.builds {
          StartedIsNotQueued(w, id, SubmitJob(id));
          JobThenMarkLoad(w, WithJob(w1, Submitting(id)), id, InProgress, NOTHING_ELSE);
        }
      case SubmitReply(id, answer) =>
        if Submitting(id) in w.jobs {
          var w1 := WithoutJob(w, Submitting(id));
          JobThenMarkLoad(w, w1, id, Failed, NOTHING_ELSE);
          if answer.Accepted? {
            if id in w.builds { StartedIsNotQueued(w, id, Submitting(id)); }
            JobThenMarkLoad(w, w1, id, SentToServer, Changes(None, false, false, answer.statusUrl));
          }
        }
    }
  }

  lemma StartedIsNotQueued(w: World, id: Stamp, j: Job)
    requires Orderly(w) && id in w.builds && j in w.jobs && j.build == id
    ensures !w.builds[id].status.Queued?
  {
    assert w.builds[id].status.Queued? ==> id in QueuedIn(w.builds);
  }

  lemma AnswersStayWithinCap(w: World, a: Action)
    requires Orderly(w) && (a.Callback? || a.RequestCheck? || a.CheckReply?) && !Reviving(w, a)
    ensures WithinCap(w, Step(w, a))
  {
    hide Marked, Reported, WithinCap;
    SameLoad(w, w);
    match a {
      case Callback(id, r, _) =>
        if id in w.builds && Waiting(w.builds[id].status) {
          ReportLoad(w, id, r);
          SameLoad(Reported(w, id, r), WithJob(Reported(w, id, r), LogJob(id)));
          LoadsCompose(w, Reported(w, id, r), WithJob(Reported(w, id, r), LogJob(id)));
        }
      case CheckReply(id, reply) =>
        var w1 := WithoutJob(w, Checking(id));
        SameLoad(w, w1);
        if Checking(id) in w.jobs && id in w.builds && reply.Answer? && !w.builds[id].status.ReceivedFromServer? {
          StartedIsNotQueued(w, id, Checking(id));
          ReportLoad(w1, id, reply.report);
          LoadsCompose(w, w1, Reported(w1, id, reply.report));
        }
      case RequestCheck(id) => SameLoad(w, CheckRequested(w, id));
    }
  }

  lemma AdvanceStaysWithinCap(w: World, id: Stamp, stalled: bool)
    requires id in w.builds
    ensures WithinCap(w, Advanced(w, id, stalled))
  {
    hide Marked, Appended, WithinCap;
    SameLoad(w, w);
    SameLoad(w, CheckRequested(w, id));
    MarkLoad(w, id, Failed, LogOnly(Appended(w.builds[id].log, STALLED_LOG)));
  }

  lemma RecheckStaysWithinCap(w: World, id: Stamp, k: nat, stalled: bool)
    ensures WithinCap(w, Rechecked(w, id, k, stalled))
  {
    hide Advanced, WithinCap;
    var w1 := WithoutJob(w, RecheckJob(id, k));
    SameLoad(w, w);
    SameLoad(w, w1);
    if id in w1.builds {
      var w2 := Advanced(w1, id, stalled);
      AdvanceStaysWithinCap(w1, id, stalled);
      SameLoad(w2, WithJob(w2, RecheckJob(id, k + 1)));
      LoadsCompose(w, w1, w2);
      LoadsCompose(w, w2, WithJob(w2, RecheckJob(id, k + 1)));
    }
  }

  lemma JobsStayWithinCap(w: World, a: Action)
    requires Orderly(w) && (a.Recheck? || a.BeginImport? || a.EndImport? || a.FetchLog?)
    ensures WithinCap(w, Step(w, a))
  {
    hide Rechecked, ImportBegun, ImportEnded, LogFetched, WithinCap, Orderly;
    match a {
      case Recheck(id, k, stalled) => RecheckStaysWithinCap(w, id, k, stalled);
      case BeginImport(id) => BeginStaysWithinCap(w, id);
      case EndImport(id, seen, o) => ImportLoad(w, id, seen, o);
      case FetchLog(id, body) => FetchStaysWithinCap(w, id, body);
    }
  }

  lemma BeginStaysWithinCap(w: World, id: Stamp)
    ensures WithinCap(w, ImportBegun(w, id))
  {
    assert ImportBegun(w, id).builds == w.builds;
    SameLoad(w, ImportBegun(w, id));
  }

  lemma FetchStaysWithinCap(w: World, id: Stamp, body: Option<string>)
    ensures WithinCap(w, LogFetched(w, id, body))
  {
    hide Marked, Blank, WithinCap;
    var w1 := WithoutJob(w, LogJob(id));
    SameLoad(w, w);
    SameLoad(w, w1);
    if id in w.builds && body.Some? { JobThenMarkLoad(w, w1, id, w.builds[id].status, LogOnly(body.value)); }
  }

  lemma StepStaysWithinCap(w: World, a: Action)
    requires Orderly(w) && !Reviving(w, a)
    ensures WithinCap(w, Step(w, a))
  {
    assert forall b :: b in w.builds ==> b < w.clock;
    hide Orderly, Step, WithinCap, Reviving;
    if FromAuthor(a) {
      AuthorsStayWithinCap(w, a);
    } else if a.Submit? || a.SubmitReply? {
      SubmittingStaysWithinCap(w, a);
    } else if a.Callback? || a.RequestCheck? || a.CheckReply? {
      AnswersStayWithinCap(w, a);
    } else {
      JobsStayWithinCap(w, a);
    }
  }

  /** A mark into flight, of a build that was not, adds exactly one. */
  lemma MarkIntoFlight(w: World, id: Stamp, s: Status, ch: Changes)
    requires id in w.builds && InFlight(s) && !InFlight(w.builds[id].status)
    ensures Load(Marked(w, id, s, ch)) == Load(w) + 1
  {
    WriteFacts(w, id, s, ch);
    hide WrittenAndSynced;
    PutFacts(w.builds, id, Patched(w.builds[id], s, ch));
    ToggledSize(InFlightIn(w.builds), id, true);
  }

  lemma RevivingAddsOne(w: World, a: Action)
    requires Reviving(w, a)
    ensures Load(Step(w, a)) == Load(w) + 1
  {
    hide Marked, InlineLog;
    var b := Subject(a).value;
    match a {
      case Submit(_) =>
        MarkIntoFlight(WithJob(WithoutJob(w, SubmitJob(b)), Submitting(b)), b, InProgress, NOTHING_ELSE);
      case SubmitReply(_, answer) =>
        MarkIntoFlight(WithoutJob(w, Submitting(b)), b, SentToServer, Changes(None, false, false, answer.statusUrl));
      case CheckReply(_, reply) =>
        MarkIntoFlight(WithoutJob(w, Checking(b)), b, ReceivedFromServer,
          Changes(Some(InlineLog(reply.report.tail)), reply.report.FailedWithOutput?, false, false));
    }
  }

  /**
   A step leaves more in flight than there were before and than the cap allows, exactly when all
   slots were taken and it brings back an outcome. Every other step keeps within the cap whatever
   was within it.
   */
  lemma StepGoesOverCapExactlyWhen(w: World, a: Action)
    requires Orderly(w)
    ensures Load(Step(w, a)) > Max(Load(w), w.cap) <==> Load(w) >= w.cap && Reviving(w, a)
  {
    hide Step, Reviving, Orderly;
    if Reviving(w, a) { RevivingAddsOne(w, a); } else { StepStaysWithinCap(w, a); }
  }
}
