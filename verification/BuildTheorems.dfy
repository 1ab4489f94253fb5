/**
 The guarantees an author can rely on, over every run: any number of steps, by any of the actors,
 in any order, with any replies of the build server.
 */
module BuildTheorems {
  import opened Builds
  import opened BuildFacts
  import opened BuildQueue
  import opened TargetPointers
  import opened BuildRuns
  import opened Outcomes
  import opened BuildRows

  function UnresolvedIn(builds: map<Stamp, Build>): set<Stamp> {
    set b | b in builds && Unresolved(builds[b].status)
  }

  /**
   The cap is respected except for builds brought back from an outcome, and used fully except for
   slots a destroyed build left behind and nothing has taken since; with neither, the number of
   builds running is exactly what the cap and the demand allow.
   */
  lemma SlotsAreUsedAndRespected(w: World, actions: seq<Action>)
    requires Fresh(w)
    ensures var w' := Run(w, actions);
      var running := |InFlightIn(w'.builds)|;
      && running <= w'.cap + |w'.history.Revived()|
      && (QueuedIn(w'.builds) != {} ==> running + w'.history.idle >= w'.cap)
      && w'.history.idle <= w'.history.dropped
      && (w'.history.idle == 0 && w'.history.Revived() == multiset{} ==>
            var demand := |UnresolvedIn(w'.builds)|;
            running == if demand < w'.cap then demand else w'.cap)
  {
    ReachableWorldsAreInvariant(w, actions);
    var w' := Run(w, actions);
    assert Capacity(w');
    hide Invariant, Run;
    var running, queued := InFlightIn(w'.builds), QueuedIn(w'.builds);
    assert UnresolvedIn(w'.builds) == running + queued;
    assert running !! queued;
    assert |UnresolvedIn(w'.builds)| == |running| + |queued|;
  }

  /**
   No build is ever started twice. As long as no running build was destroyed, builds start in the
   order they were asked for, and none starts while an older one is still waiting.
   */
  lemma BuildsStartOnceAndInOrder(w: World, actions: seq<Action>)
    requires Fresh(w)
    ensures var w' := Run(w, actions);
      var started := w'.history.started;
      && NoRepeats(started)
      && (forall q :: q in QueuedIn(w'.builds) ==> q !in started)
      && (w'.history.dropped == 0 ==>
            && Increasing(started)
            && forall q, b :: q in QueuedIn(w'.builds) && b in started ==> b < q)
  {
    ReachableWorldsAreInvariant(w, actions);
    assert Orderly(Run(w, actions)) && Fifo(Run(w, actions));
  }

  // ---- Destroying a running build ----

  /**
   A destroy does not promote: where no slot was idle beside a waiting build, it leaves one so
   exactly when the destroyed build was running, another one waits, and no more than the cap were
   running.
   */
  lemma DestroyLeavesSlotIdleExactlyWhen(w: World, id: Stamp)
    requires id in w.builds && !(QueuedIn(w.builds) != {} && SlotAvailable(w))
    ensures var w' := Destroyed(w, id);
      (QueuedIn(w'.builds) != {} && SlotAvailable(w'))
      <==> InFlight(w.builds[id].status) && QueuedIn(w.builds) != {} && |InFlightIn(w.builds)| == w.cap
  {
    var w' := Destroyed(w, id);
    RemoveFacts(w.builds, id);
    assert w'.builds == w.builds - {id} && w'.cap == w.cap;
    ToggledSize(InFlightIn(w.builds), id, false);
    if InFlight(w.builds[id].status) {
      assert QueuedIn(w.builds) - {id} == QueuedIn(w.builds);
    }
  }

  // ---- What the public can read ----

  /** Step `k` of the run is the author accepting `b`, and `b` was under review just then. */
  predicate AcceptedAt(w: World, actions: seq<Action>, k: nat, b: Stamp) {
    && k < |actions| && actions[k] == AcceptErrors(b)
    && var before := Run(w, actions[..k]); b in before.builds && before.builds[b].AwaitingReview()
  }

  /** An approval on record was given by the author, to a build that was under review. */
  lemma {:induction false} ApprovalComesFromTheAuthor(w: World, actions: seq<Action>, b: Stamp)
    requires Fresh(w) && b in Run(w, actions).builds && Run(w, actions).builds[b].errorsAccepted
    ensures exists k: nat :: AcceptedAt(w, actions, k, b)
  {
    if actions != [] {
      var n := |actions| - 1;
      var front, a := actions[..n], actions[n];
      var w1 := Run(w, front);
      assert Run(w, actions) == Step(w1, a);
      hide Step;
      if b in w1.builds {
        assert Orderly(w1) by { ReachableWorldsAreInvariant(w, front); }
        hide Invariant, Orderly, Run, Fresh;
        EveryChangeIsExplained(w1, a, b);
        if w1.builds[b].errorsAccepted {
          ApprovalComesFromTheAuthor(w, front, b);
          var k: nat :| AcceptedAt(w, front, k, b);
          assert front[..k] == actions[..k];
          assert AcceptedAt(w, actions, k, b);
        } else {
          assert AcceptedAt(w, actions, n, b);
        }
      } else {
        NewBuildsAreFresh(w1, a, b);
      }
    }
  }

  predicate Flagged(w: World, b: Stamp) { b in w.builds && w.builds[b].completedWithErrors }

  /** A flag, once raised, is there for as long as the build is. */
  lemma {:induction false} FlagsStay(w: World, actions: seq<Action>, k: nat, b: Stamp)
    requires Fresh(w) && k <= |actions| && Flagged(Run(w, actions[..k]), b) && b in Run(w, actions).builds
    ensures Flagged(Run(w, actions), b)
  {
    if k == |actions| {
      assert actions[..k] == actions;
    } else {
      var front, a := actions[..|actions| - 1], actions[|actions| - 1];
      var w1 := Run(w, front);
      assert front[..k] == actions[..k];
      assert Orderly(w1) && b < Run(w, front[..k]).clock by {
        ReachableWorldsAreInvariant(w, front);
        ReachableWorldsAreInvariant(w, front[..k]);
      }
      assert Run(w, actions) == Step(w1, a);
      hide Orderly, Step, Run;
      RunOnlyMovesOn(w, front, k);
      if b !in w1.builds { NothingReturns(w1, a, b); }
      FlagsStay(w, front, k, b);
      EveryChangeIsExplained(w1, a, b);
    }
  }

  /**
   Whatever a stranger can read at any point of any run is live, the newest live build of a
   published output in a project that is not private; and either the author accepted it while it
   was under review, or no step up to then had ever flagged it.
   */
  lemma ReadableBuildsWereNeverFlaggedOrApproved(w: World, actions: seq<Action>, b: Stamp)
    requires Fresh(w) && PubliclyReadable(Run(w, actions), b)
    ensures var w' := Run(w, actions);
      && w'.builds[b].status.Success? && w'.builds[b].Live()
      && (forall c :: c in w'.builds && c > b && w'.builds[c].target == w'.builds[b].target ==> !w'.builds[c].Live())
      && w'.targets[w'.builds[b].target].project in w'.projects
      && !w'.projects[w'.targets[w'.builds[b].target].project].visibility.Private?
    ensures || (exists k: nat :: AcceptedAt(w, actions, k, b))
            || (forall k :: 0 <= k <= |actions| ==> !Flagged(Run(w, actions[..k]), b))
  {
    var w' := Run(w, actions);
    ReachableWorldsAreInvariant(w, actions);
    ReadableBuildsAreLive(w', b);
    hide Invariant, Run, PubliclyReadable;
    if w'.builds[b].errorsAccepted {
      ApprovalComesFromTheAuthor(w, actions, b);
    } else {
      forall k | 0 <= k <= |actions| ensures !Flagged(Run(w, actions[..k]), b) {
        if Flagged(Run(w, actions[..k]), b) { FlagsStay(w, actions, k, b); }
      }
    }
  }

  /**
   Over every run, each output's two columns name its newest build and its newest live one, and
   no output of a private project is published.
   */
  lemma ColumnsAgreeAndPrivateMeansUnpublished(w: World, actions: seq<Action>, t: TargetId)
    requires Fresh(w) && t in Run(w, actions).targets
    ensures var w' := Run(w, actions);
      && w'.targets[t].latest == Newest(BuildsOf(w'.builds, t))
      && w'.targets[t].current == Newest(LiveOf(w'.builds, t))
      && w'.targets[t].project in w'.projects
      && (w'.projects[w'.targets[t].project].visibility.Private? ==> !w'.targets[t].published)
  {
    ReachableWorldsAreInvariant(w, actions);
    assert PointersOf(Run(w, actions), t);
  }
}
