/**
 The run in which a pruning takes away the build "Restore previous build" would fall back to: two
 live builds, then one that comes back flagged.
 */
module LostPrevious {
  import opened Options
  import opened Builds
  import opened BuildFacts
  import opened TargetPointers
  import opened BuildRuns
  import opened Retention
  import opened LateAnswers
  import opened Serving

  type Rows = map<Stamp, Build>

  /** Build `b` of output 0 beside the finished builds `rest`, with a slot and nobody waiting. */
  predicate At(w: World, rest: Rows, b: Stamp, s: Status, flagged: bool) {
    && b !in rest && w.builds.Keys == rest.Keys + {b} && 0 in w.targets && w.cap == 1
    && (forall x :: x in rest ==> w.builds[x] == rest[x] && Terminal(rest[x].status))
    && w.builds[b] == Build(0, s, flagged, false, w.builds[b].hasStatusUrl, w.builds[b].log)
    && w.clock == b + 1
  }

  /** All finished. */
  predicate Rested(w: World, b: Stamp) {
    && 0 in w.targets && w.cap == 1 && w.clock == b
    && forall x :: x in w.builds ==> x < b && Terminal(w.builds[x].status)
  }

  lemma Creating(w: World, b: Stamp)
    requires Rested(w, b)
    ensures At(Created(w, 0), w.builds, b, Pending, false) && SubmitJob(b) in Created(w, 0).jobs
  {
    assert InFlightIn(w.builds) == {};
    InsertFacts(w, 0);
  }

  lemma Marking(w: World, rest: Rows, b: Stamp, s0: Status, flagged: bool, s: Status, ch: Changes)
    requires At(w, rest, b, s0, flagged) && !s.Queued? && !ch.errorsAccepted
    ensures At(Marked(w, b, s, ch), rest, b, s, flagged || ch.completedWithErrors) && Marked(w, b, s, ch).jobs == w.jobs
  {
    var w1 := WrittenAndSynced(w, b, s, ch);
    WriteFacts(w, b, s, ch);
    assert QueuedIn(w1.builds) == {};
    hide WrittenAndSynced;
    assert Marked(w, b, s, ch) == w1;
  }

  lemma Submitting(w: World, rest: Rows, b: Stamp)
    requires At(w, rest, b, Pending, false) && SubmitJob(b) in w.jobs
    ensures At(Submitted(w, b), rest, b, InProgress, false) && Job.Submitting(b) in Submitted(w, b).jobs
  {
    hide Marked;
    Marking(WithJob(WithoutJob(w, SubmitJob(b)), Job.Submitting(b)), rest, b, Pending, false, InProgress, NOTHING_ELSE);
  }

  lemma Sending(w: World, rest: Rows, b: Stamp)
    requires At(w, rest, b, InProgress, false) && Job.Submitting(b) in w.jobs
    ensures At(SubmitAnswered(w, b, Accepted(true)), rest, b, SentToServer, false)
  {
    hide Marked;
    Marking(WithoutJob(w, Job.Submitting(b)), rest, b, InProgress, false, SentToServer,
      Changes(None, false, false, true));
  }

  function ReportOf(flagged: bool): Report { if flagged then FailedWithOutput("errors") else Succeeded("ok") }

  lemma Reporting(w: World, rest: Rows, b: Stamp, flagged: bool)
    requires At(w, rest, b, SentToServer, false)
    ensures var w' := CalledBack(w, b, ReportOf(flagged), false);
      At(w', rest, b, ReceivedFromServer, flagged) && ImportJob(b) in w'.jobs
  {
    hide Marked, InlineLog;
    Marking(w, rest, b, SentToServer, false, ReceivedFromServer,
      Changes(Some(InlineLog(ReportOf(flagged).tail)), flagged, false, false));
  }

  lemma Fetching(w: World, rest: Rows, b: Stamp, flagged: bool)
    requires At(w, rest, b, ReceivedFromServer, flagged) && ImportJob(b) in w.jobs
    ensures var w' := ImportBegun(w, b);
      At(w', rest, b, ReceivedFromServer, flagged) && Job.Importing(b, w'.builds[b]) in w'.jobs
  {
  }

  lemma Importing(w: World, rest: Rows, b: Stamp, flagged: bool, seen: Build)
    requires At(w, rest, b, ReceivedFromServer, flagged) && Job.Importing(b, seen) in w.jobs
    ensures At(BeforePruning(w, b, seen), rest, b, Success, flagged)
    ensures ImportEnded(w, b, seen, Imported) == Pruned(BeforePruning(w, b, seen), 0)
  {
    hide Marked, Pruned;
    Marking(WithoutJob(w, Job.Importing(b, seen)), rest, b, ReceivedFromServer, flagged, Success, NOTHING_ELSE);
  }

  // ---- One build from the button to its import ----

  function Fetched(w: World, b: Stamp, flagged: bool): World {
    Step(Step(Step(Step(Step(w, CreateBuild(0)), Submit(b)), SubmitReply(b, Accepted(true))),
              Callback(b, ReportOf(flagged), false)), BeginImport(b))
  }

  function Finished(w: World, b: Stamp, flagged: bool): World {
    var w1 := Fetched(w, b, flagged);
    Step(w1, EndImport(b, SeenIn(w1, b), Imported))
  }

  function Imported0(w: World, b: Stamp, flagged: bool): World {
    var w1 := Fetched(w, b, flagged);
    BeforePruning(w1, b, SeenIn(w1, b))
  }

  lemma StepsOut(w: World, b: Stamp)
    ensures 0 in w.targets ==> Step(w, CreateBuild(0)) == Created(w, 0)
    ensures Step(w, Submit(b)) == Submitted(w, b)
    ensures Step(w, SubmitReply(b, Accepted(true))) == SubmitAnswered(w, b, Accepted(true))
  {
    hide Created, Submitted, SubmitAnswered;
  }

  lemma StepsBack(w: World, b: Stamp, r: Report, seen: Build)
    ensures Step(w, Callback(b, r, false)) == CalledBack(w, b, r, false)
    ensures Step(w, BeginImport(b)) == ImportBegun(w, b)
    ensures Step(w, EndImport(b, seen, Imported)) == ImportEnded(w, b, seen, Imported)
  {
    hide CalledBack, ImportBegun, ImportEnded;
  }

  lemma OneBuildThrough(w: World, b: Stamp, flagged: bool)
    requires Rested(w, b)
    ensures At(Imported0(w, b, flagged), w.builds, b, Success, flagged)
    ensures Finished(w, b, flagged) == Pruned(Imported0(w, b, flagged), 0)
    ensures var w1 := Fetched(w, b, flagged);
      At(w1, w.builds, b, ReceivedFromServer, flagged) && b in w1.builds && Job.Importing(b, SeenIn(w1, b)) in w1.jobs
  {
    hide Step, Created, Submitted, SubmitAnswered, CalledBack, ImportBegun, ImportEnded, BeforePruning, ReportOf,
      Pruned, At, Rested;
    assert 0 in w.targets by { RestedHasTarget(w, b); }
    var w1 := Created(w, 0);
    var w2 := Submitted(w1, b);
    var w3 := SubmitAnswered(w2, b, Accepted(true));
    var w4 := CalledBack(w3, b, ReportOf(flagged), false);
    var w5 := ImportBegun(w4, b);
    var r := ReportOf(flagged);
    StepsOut(w, b); StepsOut(w1, b); StepsOut(w2, b);
    StepsBack(w3, b, r, SeenIn(w3, b)); StepsBack(w4, b, r, SeenIn(w4, b)); StepsBack(w5, b, r, SeenIn(w5, b));
    Creating(w, b);
    Submitting(w1, w.builds, b);
    Sending(w2, w.builds, b);
    Reporting(w3, w.builds, b, flagged);
    Fetching(w4, w.builds, b, flagged);
    Importing(w5, w.builds, b, flagged, SeenIn(w5, b));
  }

  lemma RestedHasTarget(w: World, b: Stamp)
    requires Rested(w, b)
    ensures 0 in w.targets
  {
  }

  // ---- Three builds ----

  function FirstDone(w: World): World { Finished(Step(w, AddTarget(0)), 1, false) }

  function SecondDone(w: World, flagged: bool): World { Finished(FirstDone(w), 2, flagged) }

  /** All three steps of the run but the pruning that ends the third import. */
  function ThirdImported(w: World): World { Imported0(SecondDone(w, false), 3, true) }

  lemma TargetFirst(w: World)
    requires Ready(w)
    ensures var w' := Step(w, AddTarget(0)); Rested(w', 1) && w'.builds == map[] && Agreement(w')
  {
    AgreementAfterTarget(w, 0);
  }

  lemma ImportedAgrees(w: World, b: Stamp, flagged: bool)
    requires Invariant(w)
    ensures Invariant(Fetched(w, b, flagged)) && Agreement(Imported0(w, b, flagged))
      && Invariant(Finished(w, b, flagged))
  {
    hide Step, Invariant, Agreement, BeforePruning, ReportOf;
    var w1 := Step(w, CreateBuild(0));
    var w2 := Step(w1, Submit(b));
    var w3 := Step(w2, SubmitReply(b, Accepted(true)));
    var w4 := Step(w3, Callback(b, ReportOf(flagged), false));
    StepKeepsInvariant(w, CreateBuild(0));
    StepKeepsInvariant(w1, Submit(b));
    StepKeepsInvariant(w2, SubmitReply(b, Accepted(true)));
    StepKeepsInvariant(w3, Callback(b, ReportOf(flagged), false));
    StepKeepsInvariant(w4, BeginImport(b));
    var w5 := Fetched(w, b, flagged);
    StepKeepsInvariant(w5, EndImport(b, SeenIn(w5, b), Imported));
    InvariantAgrees(w5);
    BeforePruningAgrees(w5, b, SeenIn(w5, b));
  }

  /** Two successes, and nothing else: both are kept. */
  lemma TwoAreKept(w: World)
    requires w.builds.Keys == {1, 2} && w.builds[1].target == 0 && w.builds[2].target == 0
    requires w.builds[1].status.Success? && w.builds[2].status.Success?
    ensures Pruned(w, 0) == w
  {
    assert SuccessesOf(w.builds, 0) == {1, 2};
    NewestIs({1, 2}, 2);
    assert {1, 2} - Singleton(Newest({1, 2})) == {1};
    NewestIs({1}, 1);
    assert BuildsOf(w.builds, 0) <= Kept(w, 0);
    NothingLeftToPrune(w, 0);
  }

  /** Two live builds under a flagged one. */
  predicate TwoLiveUnderFlagged(w: World) {
    && w.builds.Keys == {1, 2, 3} && 0 in w.targets
    && (forall b :: b in w.builds ==>
          w.builds[b].target == 0 && w.builds[b].status.Success? && !w.builds[b].errorsAccepted)
    && !w.builds[1].completedWithErrors && !w.builds[2].completedWithErrors && w.builds[3].completedWithErrors
  }

  lemma OldestIsPruned(w: World)
    requires Agreement(w) && TwoLiveUnderFlagged(w)
    ensures PreviousLive(w.builds, 0) == Some(1) && PreviousLive(Pruned(w, 0).builds, 0) != Some(1)
  {
    assert SuccessesOf(w.builds, 0) == {1, 2, 3} && LiveOf(w.builds, 0) == {1, 2};
    NewestIs({1, 2, 3}, 3);
    assert {1, 2, 3} - Singleton(Newest({1, 2, 3})) == {1, 2};
    NewestIs({1, 2}, 2);
    assert {1, 2} - Singleton(Newest({1, 2})) == {1};
    NewestIs({1}, 1);
    assert NewestTwo({1, 2, 3}) == {2, 3};
    hide Agreement, Pruned;
    PruningKeepsPreviousExactly(w, 0);
  }

  lemma AfterFirst(w: World)
    requires Ready(w)
    ensures var w1 := FirstDone(w);
      && Rested(w1, 2) && w1.builds.Keys == {1}
      && w1.builds[1] == Build(0, Success, false, false, w1.builds[1].hasStatusUrl, w1.builds[1].log)
  {
    hide Finished, Ready, Step, Rested;
    TargetFirst(w);
    FirstFrom(Step(w, AddTarget(0)));
  }

  lemma FirstFrom(w: World)
    requires Rested(w, 1) && w.builds == map[]
    ensures var w1 := Finished(w, 1, false);
      && Rested(w1, 2) && w1.builds.Keys == {1}
      && w1.builds[1] == Build(0, Success, false, false, w1.builds[1].hasStatusUrl, w1.builds[1].log)
  {
    hide Finished, Imported0, Pruned;
    OneBuildThrough(w, 1, false);
    OnlyBuildIsKept(Imported0(w, 1, false), 1);
  }

  /** The first build live, the second flagged or not, both imported and unaccepted. */
  predicate TwoDone(w: World, flagged: bool) {
    && Rested(w, 3) && w.builds.Keys == {1, 2}
    && w.builds[1] == Build(0, Success, false, false, w.builds[1].hasStatusUrl, w.builds[1].log)
    && w.builds[2] == Build(0, Success, flagged, false, w.builds[2].hasStatusUrl, w.builds[2].log)
  }

  lemma AfterSecond(w: World, flagged: bool)
    requires Ready(w)
    ensures TwoDone(SecondDone(w, flagged), flagged)
  {
    hide Finished, Imported0, Ready, Step, Pruned, FirstDone;
    AfterFirst(w);
    var w1 := FirstDone(w);
    OneBuildThrough(w1, 2, flagged);
    TwoAreKept(Imported0(w1, 2, flagged));
  }

  /**
   After two clean builds and one that comes back flagged, the pruning that ends the third import
   destroys the first build, which restoring would have fallen back to.
   */
  lemma PruningLosesPrevious(w: World)
    requires Ready(w)
    ensures var before, after := ThirdImported(w), Finished(SecondDone(w, false), 3, true);
      && after == Pruned(before, 0)
      && PreviousLive(before.builds, 0) == Some(1) && PreviousLive(after.builds, 0) != Some(1)
  {
    InvariantInitially(w);
    hide Finished, Imported0, Ready, Step, Pruned, Invariant, SecondDone, Rested, Agreement;
    AfterSecond(w, false);
    RunsAreInvariant(w, false);
    ThirdFrom(SecondDone(w, false));
  }

  lemma ThirdFrom(w: World)
    requires Invariant(w) && TwoDone(w, false)
    ensures var before, after := Imported0(w, 3, true), Finished(w, 3, true);
      && after == Pruned(before, 0)
      && PreviousLive(before.builds, 0) == Some(1) && PreviousLive(after.builds, 0) != Some(1)
  {
    assert Rested(w, 3);
    hide Finished, Imported0, Pruned, Invariant, Agreement, PreviousLive, Fetched, At, TwoDone, Rested,
      TwoLiveUnderFlagged;
    ImportedAgrees(w, 3, true);
    OneBuildThrough(w, 3, true);
    FlaggedBesideTheTwo(w, Imported0(w, 3, true));
    OldestIsPruned(Imported0(w, 3, true));
  }

  lemma FlaggedBesideTheTwo(w: World, w1: World)
    requires TwoDone(w, false) && At(w1, w.builds, 3, Success, true)
    ensures TwoLiveUnderFlagged(w1)
  {
  }

  lemma RunsAreInvariant(w: World, flagged: bool)
    requires Invariant(w)
    ensures Invariant(SecondDone(w, flagged))
  {
    hide Invariant, Step, Finished, Imported0, Agreement;
    StepKeepsInvariant(w, AddTarget(0));
    ImportedAgrees(Step(w, AddTarget(0)), 1, false);
    ImportedAgrees(FirstDone(w), 2, flagged);
  }
}
