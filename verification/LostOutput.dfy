/**
 The run in which an import that fails takes away the output that another build was serving: a
 live build, a flagged one, and a third whose import fails once its pruning is under way.
 */
module LostOutput {
  import opened Builds
  import opened BuildFacts
  import opened BuildRuns
  import opened LateAnswers
  import opened LostPrevious
  import opened Serving
  import opened StepMeanings
  import opened TargetPointers

  /** The third build downloaded, with the first one serving beside the flagged second. */
  function ThirdFetched(w: World): World { Fetched(SecondDone(w, true), 3, false) }

  /** Its import fails after its pruning has destroyed one build. */
  function FailedThird(w: World): Action { EndImport(3, SeenIn(w, 3), CrashedAfterSuccess(1)) }

  /** Live, flagged and just received. */
  predicate LiveFlaggedReceived(w: World, third: Status) {
    && w.builds.Keys == {1, 2, 3} && 0 in w.targets
    && w.builds[1].target == 0 && w.builds[1].Live()
    && w.builds[2].target == 0 && w.builds[2].AwaitingReview()
    && w.builds[3].target == 0 && w.builds[3].status == third && !w.builds[3].completedWithErrors
  }

  lemma FirstServes(w: World)
    requires Agreement(w) && LiveFlaggedReceived(w, ReceivedFromServer)
    ensures Serves(w, 0, 1)
  {
    PointersIn(w, 0);
    assert LiveOf(w.builds, 0) == {1};
    NewestIs({1}, 1);
  }

  lemma SetsWithThird(w: World)
    requires LiveFlaggedReceived(w, Success)
    ensures LiveOf(w.builds, 0) == {1, 3} && SuccessesOf(w.builds, 0) == {1, 2, 3} && BuildsOf(w.builds, 0) == {1, 2, 3}
    ensures UnresolvedOf(w.builds, 0) == {}
  {
  }

  /** With the third a success, the first is neither served nor among the two newest. */
  lemma FirstIsSurplus(w: World)
    requires Agreement(w) && LiveFlaggedReceived(w, Success)
    ensures Surplus(w, 0) == [1]
  {
    PointersIn(w, 0);
    SetsWithThird(w);
    hide Agreement, LiveFlaggedReceived, LiveOf, SuccessesOf, BuildsOf, UnresolvedOf, Descending;
    NewestIs({1, 3}, 3);
    NewestIs({1, 2, 3}, 3);
    assert {1, 2, 3} - Singleton(Newest({1, 2, 3})) == {1, 2};
    NewestIs({1, 2}, 2);
    assert Kept(w, 0) == {2, 3};
    assert {1, 2, 3} - Kept(w, 0) == {1};
    hide Kept;
    OneDescending(1);
  }

  lemma OneDescending(x: Stamp)
    ensures Descending({x}) == [x]
  {
    NewestIs({x}, x);
    assert {x} - {x} == {};
  }

  lemma BesideTheTwo(w: World, w1: World, third: Status)
    requires TwoDone(w, true) && At(w1, w.builds, 3, third, false)
    ensures LiveFlaggedReceived(w1, third)
  {
  }

  lemma ThirdArrives(w: World)
    requires Invariant(w) && TwoDone(w, true)
    ensures var w1 := Fetched(w, 3, false);
      && LiveFlaggedReceived(w1, ReceivedFromServer) && Job.Importing(3, SeenIn(w1, 3)) in w1.jobs
      && LiveFlaggedReceived(BeforePruning(w1, 3, SeenIn(w1, 3)), Success)
  {
    assert Rested(w, 3);
    hide Fetched, BeforePruning, Invariant, SeenIn, At, TwoDone, LiveFlaggedReceived, Rested, Pruned, Finished;
    OneBuildThrough(w, 3, false);
    BesideTheTwo(w, Fetched(w, 3, false), ReceivedFromServer);
    BesideTheTwo(w, Imported0(w, 3, false), Success);
  }

  lemma FirstIsPruned(w: World)
    requires Agreement(w) && LiveFlaggedReceived(w, ReceivedFromServer) && Job.Importing(3, SeenIn(w, 3)) in w.jobs
    requires LiveFlaggedReceived(BeforePruning(w, 3, SeenIn(w, 3)), Success)
    ensures PrunedBeforeFailing(w, FailedThird(w)) == [1]
  {
    hide BeforePruning, Surplus, Agreement, SeenIn;
    assert PruningTarget(w, 3, SeenIn(w, 3)) == 0;
    hide LiveFlaggedReceived, PruningTarget;
    BeforePruningAgrees(w, 3, SeenIn(w, 3));
    FirstIsSurplus(BeforePruning(w, 3, SeenIn(w, 3)));
    assert [1][..1] == [1];
  }

  /**
   The first build is served while the third is imported; once that import has failed, the output
   serves nothing at all, though no author and no job ever touched the first build.
   */
  lemma FailedImportTakesOutputOff(w: World)
    requires Ready(w)
    ensures var before := ThirdFetched(w);
      var after := Step(before, FailedThird(before));
      Serves(before, 0, 1) && 0 in after.targets && after.targets[0].current.None? && 1 !in after.builds
  {
    InvariantInitially(w);
    hide Ready, Fetched, SecondDone, Invariant, TwoDone, Agreement, Step;
    AfterSecond(w, true);
    RunsAreInvariant(w, true);
    var w2, w1 := SecondDone(w, true), ThirdFetched(w);
    ImportedAgrees(w2, 3, false);
    ThirdArrives(w2);
    TakesFirstOff(w1);
  }

  lemma TakesFirstOff(w: World)
    requires Invariant(w) && LiveFlaggedReceived(w, ReceivedFromServer) && Job.Importing(3, SeenIn(w, 3)) in w.jobs
    requires LiveFlaggedReceived(BeforePruning(w, 3, SeenIn(w, 3)), Success)
    ensures var after := Step(w, FailedThird(w));
      Serves(w, 0, 1) && 0 in after.targets && after.targets[0].current.None? && 1 !in after.builds
  {
    hide Invariant, Agreement, Step, BeforePruning, PrunedBeforeFailing, SeenIn;
    var a := FailedThird(w);
    InvariantAgrees(w);
    FirstServes(w);
    FirstIsPruned(w);
    SentBackExactlyWhen(w, a, 0, 1);
    StepKeepsInvariant(w, a);
    InvariantAgrees(Step(w, a));
    ImportStep(w, 3, SeenIn(w, 3), a.outcome);
    RowsAfterFailing(w, 3, SeenIn(w, 3), a.outcome);
    NothingServed(Step(w, a));
  }

  lemma NothingServed(w: World)
    requires Agreement(w) && SentBack(w, 0, 1) && w.builds.Keys <= {1, 2, 3}
    ensures w.targets[0].current.None?
  {
    PointersIn(w, 0);
  }
}
