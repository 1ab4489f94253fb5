/** What the steps of the author and the jobs amount to for whoever looks at the outputs afterwards. */
module StepMeanings {
  import opened Options
  import opened Builds
  import opened Texts
  import opened BuildFacts
  import opened TargetPointers
  import opened Outcomes
  import opened Retention
  import AnsiLog

  // ---- Handing a slot on ----

  /**
   A running build that gets an outcome hands its slot to the build that has waited longest, and
   to no other; with nobody waiting, the slot is free.
   */
  lemma EndingHandsTheSlotOn(w: World, b: Stamp, s: Status, ch: Changes)
    requires b in w.builds && InFlight(w.builds[b].status) && Terminal(s) && |InFlightIn(w.builds)| <= w.cap
    ensures var w', queued := Marked(w, b, s, ch), QueuedIn(w.builds);
      if queued == {} then
        InFlightIn(w'.builds) == InFlightIn(w.builds) - {b} && w'.history.started == w.history.started
      else
        var next := Oldest(queued).value;
        && InFlightIn(w'.builds) == InFlightIn(w.builds) - {b} + {next} && QueuedIn(w'.builds) == queued - {next}
        && w'.history.started == w.history.started + [next]
  {
    hide Newest, FreeSlots;
    var w1 := WrittenAndSynced(w, b, s, ch);
    WriteFacts(w, b, s, ch);
    PutFacts(w.builds, b, Patched(w.builds[b], s, ch));
    ToggledSize(InFlightIn(w.builds), b, false);
    assert QueuedIn(w1.builds) == QueuedIn(w.builds);
    hide WrittenAndSynced;
    if QueuedIn(w.builds) != {} {
      var next := Oldest(QueuedIn(w.builds)).value;
      WriteFacts(w1, next, Pending, NOTHING_ELSE);
      PutFacts(w1.builds, next, Patched(w1.builds[next], Pending, NOTHING_ELSE));
    }
  }

  // ---- Canceling ----

  /** Canceling as the author sees it: at once, or on the server's word when it has been sent there. */
  function CanceledBy(w: World, b: Stamp, stopped: bool): World {
    var w1 := Step(w, RequestCancel(b));
    if Canceling(b) in w1.jobs then Step(w1, CancelReply(b, stopped)) else w1
  }

  /**
   With nothing in between, a cancel ends an undecided build with its notice as the log, unless
   the server keeps it; it refuses a decided build; and no other build is touched but promoted.
   */
  lemma CancelEndsExactlyWhen(w: World, b: Stamp, stopped: bool)
    requires b in w.builds && Canceling(b) !in w.jobs
    ensures var w', x := CanceledBy(w, b, stopped), w.builds[b];
      && b in w'.builds
      && (if Unresolved(x.status) && (stopped || !x.hasStatusUrl)
          then w'.builds[b] == x.(status := Canceled, log := AnsiLog.Scrub(CANCEL_LOG))
          else w'.builds == w.builds && w'.jobs == w.jobs)
      && forall c :: c != b ==> Untouched(w, w', c)
  {
    hide Marked, Untouched;
    CancelSteps(w, b, stopped);
    hide Step;
    var w1 := WithJob(w, Canceling(b));
    assert WithoutJob(w1, Canceling(b)) == w;
    MarkingItself(w, b, Canceled, LogOnly(CANCEL_LOG));
    forall c | c != b ensures Untouched(w, Marked(w, b, Canceled, LogOnly(CANCEL_LOG)), c) && Untouched(w, w, c) {
      MarkingAnother(w, b, Canceled, LogOnly(CANCEL_LOG), c);
      Unchanged(w, c);
    }
  }

  lemma CancelSteps(w: World, b: Stamp, stopped: bool)
    ensures Step(w, RequestCancel(b)) == CancelRequested(w, b)
    ensures var w1 := WithJob(w, Canceling(b)); Step(w1, CancelReply(b, stopped)) == CancelAnswered(w1, b, stopped)
  {
    hide CancelRequested, CancelAnswered;
  }

  // ---- Accepting ----

  /**
   Accepting makes flagged output live, and readers get it exactly if nothing newer is live
   already; accepting again, or anything not under review, does nothing.
   */
  lemma AcceptingServesExactlyWhen(w: World, b: Stamp)
    requires Agreement(w) && b in w.builds
    ensures var w', x, t := Step(w, AcceptErrors(b)), w.builds[b], w.builds[b].target;
      if !x.AwaitingReview() then w' == w
      else
        && b in w'.builds && w'.builds[b] == x.(errorsAccepted := true) && w'.builds[b].Live()
        && t in w'.targets
        && (w'.targets[t].current == Some(b) <==> forall c :: c in LiveOf(w.builds, t) ==> c < b)
        && (w'.targets[t].current != Some(b) ==> w'.targets[t].current == w.targets[t].current)
        && Step(w', AcceptErrors(b)) == w'
  {
    hide Step, Agreement, Marked, ErrorsAccepted;
    AcceptingIsMarking(w, b);
    if w.builds[b].AwaitingReview() {
      var t, ch := w.builds[b].target, Changes(None, false, true, false);
      var w' := Marked(w, b, Success, ch);
      MarkingItself(w, b, Success, ch);
      AcceptingIsMarking(w', b);
      AgreementAfterMark(w, b, Success, ch);
      MarkKeepsOtherLive(w, b, Success, ch, t);
      TargetsOfBuilds(w, b);
      PointersIn(w, t);
      PointersIn(w', t);
      assert b !in LiveOf(w.builds, t) && b in LiveOf(w'.builds, t);
      hide LiveOf, BuildsOf;
      NewestWith(LiveOf(w.builds, t), LiveOf(w'.builds, t), b);
    }
  }

  lemma AcceptingIsMarking(w: World, b: Stamp)
    requires b in w.builds
    ensures Step(w, AcceptErrors(b)) ==
      if w.builds[b].AwaitingReview() then Marked(w, b, Success, Changes(None, false, true, false)) else w
  {
    hide Marked;
  }

  lemma PointersIn(w: World, t: TargetId)
    requires Agreement(w) && t in w.targets
    ensures w.targets[t].latest == Newest(BuildsOf(w.builds, t)) && w.targets[t].current == Newest(LiveOf(w.builds, t))
  {
    assert PointersOf(w, t);
  }

  /** The newest of a set that has gained `b`. */
  lemma NewestWith(before: set<Stamp>, after: set<Stamp>, b: Stamp)
    requires b !in before && b in after && after - {b} == before - {b}
    ensures Newest(after) == Some(b) <==> forall c :: c in before ==> c < b
    ensures Newest(after) != Some(b) ==> Newest(after) == Newest(before)
  {
    assert after == (after - {b}) + {b} && before - {b} == before;
    if forall c :: c in before ==> c < b {
      NewestIs(after, b);
    } else {
      NewestIs(after, Newest(before).value);
    }
  }

  // ---- Publishing ----

  /** Once published, an output serves its current build alone; once unpublished, nothing. */
  lemma PublishingServesExactly(w: World, t: TargetId, published: bool, b: Stamp)
    requires t in w.targets && b in w.builds
    ensures var w' := Step(w, Publish(t, published));
      if w.builds[b].target == t then PubliclyReadable(w', b) <==> published && w.targets[t].current == Some(b)
      else PubliclyReadable(w', b) <==> PubliclyReadable(w, b)
  {
  }

  /** Making a project private hides all of it; opening it again publishes nothing. */
  lemma VisibilityOnlyHides(w: World, p: ProjectId, v: Visibility, b: Stamp)
    requires Privacy(w) && p in w.projects && b in w.builds && w.builds[b].target in w.targets
    ensures var w' := Step(w, SetVisibility(p, v));
      PubliclyReadable(w', b) <==>
        PubliclyReadable(w, b) && !(v.Private? && w.targets[w.builds[b].target].project == p)
  {
    hide Privacy;
    assert PubliclyReadable(w, b) ==> !w.projects[w.targets[w.builds[b].target].project].visibility.Private? by {
      if PubliclyReadable(w, b) { PublishedIsNotPrivate(w, w.builds[b].target); }
    }
  }

  lemma PublishedIsNotPrivate(w: World, t: TargetId)
    requires Privacy(w) && t in w.targets && w.targets[t].published
    ensures w.targets[t].project in w.projects && !w.projects[w.targets[t].project].visibility.Private?
  {
  }

  // ---- Importing ----

  /**
   A successful import makes its build a success whatever became of it meanwhile; and if that is
   live and nothing newer is, the pruning keeps it and readers get it.
   */
  lemma ImportServesWhatItBrings(w: World, b: Stamp, seen: Build)
    requires Agreement(w) && b in w.builds && Importing(b, seen) in w.jobs
    ensures var w', x, t := Step(w, EndImport(b, seen, Imported)), w.builds[b], w.builds[b].target;
      && (b in w'.builds ==> w'.builds[b] == x.(status := Success))
      && ((!x.completedWithErrors || x.errorsAccepted) && (forall c :: c in LiveOf(w.builds, t) ==> c <= b) ==>
            b in w'.builds && t in w'.targets && w'.targets[t].current == Some(b))
  {
    hide Agreement, Marked, Pruned, Step, ImportEnded;
    var x, t := w.builds[b], w.builds[b].target;
    var w2 := Marked(WithoutJob(w, Importing(b, seen)), b, Success, NOTHING_ELSE);
    ImportEndsInPruning(w, b, seen);
    ImportMarks(w, b, seen);
    PrunedBuilds(w2, t);
    hide Kept;
    if (!x.completedWithErrors || x.errorsAccepted) && forall c :: c in LiveOf(w.builds, t) ==> c <= b {
      NewestLiveIsServed(w, w2, b, t);
      PrunedTargets(w2, t);
    }
  }

  lemma ImportEndsInPruning(w: World, b: Stamp, seen: Build)
    requires b in w.builds && Importing(b, seen) in w.jobs
    ensures Step(w, EndImport(b, seen, Imported))
         == Pruned(Marked(WithoutJob(w, Importing(b, seen)), b, Success, NOTHING_ELSE), w.builds[b].target)
  {
    hide Marked, Pruned;
  }

  /** The world the pruning starts from. */
  lemma ImportMarks(w: World, b: Stamp, seen: Build)
    requires Agreement(w) && b in w.builds
    ensures var w2, t := Marked(WithoutJob(w, Importing(b, seen)), b, Success, NOTHING_ELSE), w.builds[b].target;
      && Agreement(w2) && t in w2.targets
      && b in w2.builds && w2.builds[b] == w.builds[b].(status := Success)
      && LiveOf(w2.builds, t) - {b} == LiveOf(w.builds, t) - {b}
  {
    hide Marked, Agreement;
    var w1 := WithoutJob(w, Importing(b, seen));
    AgreementFramed(w, w1);
    AgreementAfterMark(w1, b, Success, NOTHING_ELSE);
    MarkingItself(w1, b, Success, NOTHING_ELSE);
    MarkKeepsOtherLive(w1, b, Success, NOTHING_ELSE, w.builds[b].target);
    TargetsOfBuilds(w, b);
  }

  lemma NewestLiveIsServed(w: World, w2: World, b: Stamp, t: TargetId)
    requires Agreement(w2) && t in w2.targets && b in w2.builds && w2.builds[b].target == t && w2.builds[b].Live()
    requires LiveOf(w2.builds, t) - {b} == LiveOf(w.builds, t) - {b} && forall c :: c in LiveOf(w.builds, t) ==> c <= b
    ensures w2.targets[t].current == Some(b) && b in Kept(w2, t)
  {
    PointersIn(w2, t);
    hide Agreement;
    var live := LiveOf(w2.builds, t);
    assert b in live;
    forall c | c in live ensures c <= b { assert c == b || c in live - {b}; }
    NewestIs(live, b);
  }

  lemma TargetsOfBuilds(w: World, b: Stamp)
    requires Agreement(w) && b in w.builds
    ensures w.builds[b].target in w.targets
  {
  }

  lemma PrunedTargets(w: World, t: TargetId)
    requires Agreement(w) && t in w.targets
    ensures Pruned(w, t).targets == w.targets
  {
    var all := Surplus(w, t);
    assert all[..|all|] == all;
    PruningIsInvisible(w, t, |all|);
  }

  // ---- Fetching a log ----

  /**
   A fetched log changes that build's log and nothing else that anyone can read -- except that it
   starts a queued build, exactly where one was waiting beside an idle slot and the build with
   the log is decided.
   */
  lemma FetchingALogChangesNothingElseExactlyWhen(w: World, b: Stamp, text: string)
    requires Agreement(w) && b in w.builds && LogJob(b) in w.jobs && !Blank(text) && !w.builds[b].status.Queued?
    ensures var w' := Step(w, FetchLog(b, Some(text)));
      && b in w'.builds && w'.builds[b] == w.builds[b].(log := AnsiLog.Scrub(text))
      && (w'.builds == w.builds[b := w.builds[b].(log := AnsiLog.Scrub(text))] && w'.targets == w.targets
          <==> !(Terminal(w.builds[b].status) && QueuedIn(w.builds) != {} && SlotAvailable(w)))
  {
    hide Blank, AnsiLog.Scrub, Step, LogFetched, Agreement;
    var w2 := WrittenAndSynced(WithoutJob(w, LogJob(b)), b, w.builds[b].status, LogOnly(text));
    FetchingIsWriting(w, b, text);
    LoggingMovesNothing(w, WithoutJob(w, LogJob(b)), b, text);
    LoggingWrites(w, b, text);
    hide WrittenAndSynced;
    if !InFlight(w.builds[b].status) { PromotesExactlyWhenIdle(w2); }
  }

  lemma FetchingIsWriting(w: World, b: Stamp, text: string)
    requires b in w.builds && LogJob(b) in w.jobs && !Blank(text)
    ensures var w2 := WrittenAndSynced(WithoutJob(w, LogJob(b)), b, w.builds[b].status, LogOnly(text));
      Step(w, FetchLog(b, Some(text))) == if InFlight(w.builds[b].status) then w2 else Promoted(w2)
  {
    hide Blank, WrittenAndSynced, Promoted;
  }

  lemma LoggingWrites(w: World, b: Stamp, text: string)
    requires b in w.builds
    ensures var w2 := WrittenAndSynced(WithoutJob(w, LogJob(b)), b, w.builds[b].status, LogOnly(text));
      && w2.builds == w.builds[b := w.builds[b].(log := AnsiLog.Scrub(text))] && w2.cap == w.cap
      && InFlightIn(w2.builds) == InFlightIn(w.builds) && QueuedIn(w2.builds) == QueuedIn(w.builds)
  {
    var w1 := WithoutJob(w, LogJob(b));
    WriteFacts(w1, b, w.builds[b].status, LogOnly(text));
    PutFacts(w.builds, b, Patched(w.builds[b], w.builds[b].status, LogOnly(text)));
    hide WrittenAndSynced, AnsiLog.Scrub;
  }

  /** The promotion changes a row exactly when a build waits beside an idle slot. */
  lemma PromotesExactlyWhenIdle(w: World)
    ensures Promoted(w).builds != w.builds <==> QueuedIn(w.builds) != {} && SlotAvailable(w)
    ensures !(QueuedIn(w.builds) != {} && SlotAvailable(w)) ==> Promoted(w) == w
    ensures forall c :: c in w.builds && !w.builds[c].status.Queued? ==>
      c in Promoted(w).builds && Promoted(w).builds[c] == w.builds[c]
  {
    hide FreeSlots;
    if QueuedIn(w.builds) != {} && SlotAvailable(w) {
      WriteFacts(w, Oldest(QueuedIn(w.builds)).value, Pending, NOTHING_ELSE);
      hide WrittenAndSynced;
    }
  }

  /** Writing a log alone leaves both columns of every output as they are. */
  lemma LoggingMovesNothing(w: World, w1: World, b: Stamp, text: string)
    requires Agreement(w) && b in w.builds && w1 == WithoutJob(w, LogJob(b))
    ensures WrittenAndSynced(w1, b, w.builds[b].status, LogOnly(text)).targets == w.targets
  {
    var t := w.builds[b].target;
    var builds := Written(w1, b, w.builds[b].status, LogOnly(text)).builds;
    assert BuildsOf(builds, t) == BuildsOf(w.builds, t) && LiveOf(builds, t) == LiveOf(w.builds, t);
    PointersIn(w, t);
    assert w.targets[t := w.targets[t]] == w.targets;
  }
}
