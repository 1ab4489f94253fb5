/** What the dashboard's rows say after an edit, and which of them building in bulk picks up. */
module RowMeanings {
  import opened Options
  import opened Builds
  import opened BuildFacts
  import opened BuildRuns
  import opened Outcomes
  import opened StepMeanings
  import opened TargetPointers

  /** The newest build of `t` imported output that readers may have. */
  predicate NewestIsLive(w: World, t: TargetId) {
    var newest := Newest(BuildsOf(w.builds, t));
    newest.Some? && newest.value in w.builds && w.builds[newest.value].Live()
  }

  /** Once its source has been edited, every output of a project whose newest build is live reads stale. */
  lemma EditingMakesStale(w: World, p: ProjectId, t: TargetId)
    requires Agreement(w) && p in w.projects && t in w.targets
    ensures var w' := Step(w, EditSource(p));
      && t in w'.targets
      && RowStateOf(w', t) == if w.targets[t].project == p && NewestIsLive(w, t) then Stale else RowStateOf(w, t)
  {
    var w' := Step(w, EditSource(p));
    assert w'.builds == w.builds && w'.targets == w.targets && w.clock < w'.clock;
    assert w'.projects == w.projects[p := w.projects[p].(sourceUpdatedAt := w.clock)];
    assert forall b :: b in w.builds ==> b < w.clock;
    assert Agreement(w') by { AgreementFramed(w, w'); }
    hide Agreement, Step;
    RowReadsTheNewestBuild(w, t);
    RowReadsTheNewestBuild(w', t);
  }

  // ---- Building in bulk ----

  /** `part` is `whole` with some outputs left out. */
  predicate PickedFrom(part: seq<TargetId>, whole: seq<TargetId>) {
    if part == [] then true
    else if whole == [] then false
    else if part[|part| - 1] == whole[|whole| - 1] then PickedFrom(part[..|part| - 1], whole[..|whole| - 1])
    else PickedFrom(part, whole[..|whole| - 1])
  }

  lemma PickedSnoc(part: seq<TargetId>, whole: seq<TargetId>, t: TargetId)
    requires PickedFrom(part, whole) && t !in part
    ensures PickedFrom(part, whole + [t]) && PickedFrom(part + [t], whole + [t])
  {
    assert (whole + [t])[..|whole|] == whole && (part + [t])[..|part|] == part;
    assert part != [] ==> part[|part| - 1] in part;
  }

  lemma {:induction false} RowsArePicked(w: World, ts: seq<TargetId>, state: RowState)
    requires forall i, j :: 0 <= i < j < |ts| ==> ts[i] != ts[j]
    ensures PickedFrom(RowsIn(w, ts, state), ts)
    ensures forall t :: t in RowsIn(w, ts, state) <==> t in ts && t in w.targets && RowStateOf(w, t) == state
  {
    hide RowStateOf;
    if ts != [] {
      var front, t := ts[..|ts| - 1], ts[|ts| - 1];
      var before := RowsIn(w, front, state);
      assert ts == front + [t];
      assert RowsIn(w, ts, state) == if t in w.targets && RowStateOf(w, t) == state then before + [t] else before by {
        assert before + [] == before;
      }
      hide RowsIn, PickedFrom;
      RowsArePicked(w, front, state);
      assert t !in front;
      PickedSnoc(before, front, t);
    }
  }

  /** Nothing of `t` was ever built, as far as rows remain. */
  predicate Unbuilt(w: World, t: TargetId) { BuildsOf(w.builds, t) == {} }

  /** Readers see the newest build of `t`, and the source was edited after it. */
  predicate Outdated(w: World, t: TargetId)
    requires t in w.targets
  {
    NewestIsLive(w, t) && EditedSince(w, t, Newest(BuildsOf(w.builds, t)).value)
  }

  lemma RowsMeaning(w: World, t: TargetId)
    requires Agreement(w) && t in w.targets
    ensures RowStateOf(w, t).NeverBuilt? <==> Unbuilt(w, t)
    ensures RowStateOf(w, t).Stale? <==> Outdated(w, t)
  {
    RowReadsTheNewestBuild(w, t);
    hide Agreement;
  }

  /**
   Building in bulk picks a project's outputs with no builds, in dashboard order; only if it has
   none of those, the ones whose newest build is live and older than the last edit; and no other.
   */
  lemma CandidatesAre(w: World, p: ProjectId)
    requires Agreement(w) && Privacy(w) && p in w.projects
    ensures var outputs, picked := w.projects[p].outputs, BulkCandidates(w, p);
      && PickedFrom(picked, outputs)
      && (forall t :: t in outputs ==> t in w.targets)
      && forall t :: t in picked <==>
           t in outputs
           && if exists u :: u in outputs && Unbuilt(w, u) then Unbuilt(w, t) else Outdated(w, t)
  {
    var outputs := w.projects[p].outputs;
    OutputsOf(w, p);
    RowsArePicked(w, outputs, NeverBuilt);
    RowsArePicked(w, outputs, Stale);
    forall t | t in outputs
      ensures RowStateOf(w, t).NeverBuilt? <==> Unbuilt(w, t)
      ensures RowStateOf(w, t).Stale? <==> Outdated(w, t)
    {
      RowsMeaning(w, t);
    }
    hide Agreement, Privacy, RowStateOf, Unbuilt, Outdated, PickedFrom, RowsIn;
    var never := RowsIn(w, outputs, NeverBuilt);
    assert never != [] ==> never[0] in never;
  }

  lemma OutputsOf(w: World, p: ProjectId)
    requires Privacy(w) && p in w.projects
    ensures forall t :: t in w.projects[p].outputs ==> t in w.targets && w.targets[t].project == p
    ensures forall i, j :: 0 <= i < j < |w.projects[p].outputs| ==> w.projects[p].outputs[i] != w.projects[p].outputs[j]
  {
  }
}
