/**
 The retention window enforced after every successful import. Pruning deletes history around the
 two pointers without anyone being able to tell from the row, one destroy at a time.
 */
module Retention {
  import opened Options
  import opened Builds
  import opened BuildFacts
  import opened TargetPointers

  lemma NewestTwoOfShrunk(s: set<Stamp>, gone: set<Stamp>)
    requires NewestTwo(s) !! gone
    ensures NewestTwo(s - gone) == NewestTwo(s)
  {
    var first := Singleton(Newest(s));
    assert first <= NewestTwo(s) && Singleton(Newest(s - first)) <= NewestTwo(s);
    NewestOfShrunk(s, gone);
    NewestOfShrunk(s - first, gone);
    assert s - gone - first == s - first - gone;
  }

  /** Builds of `t` outside its window: what a pruning may take. */
  ghost predicate Expendable(w: World, t: TargetId, gone: set<Stamp>) {
    && gone <= BuildsOf(w.builds, t)
    && gone !! Kept(w, t)
  }

  /** What the window gives up is resolved and named by no pointer of any target. */
  lemma ExpendableIsUnobserved(w: World, t: TargetId, gone: set<Stamp>)
    requires Agreement(w) && t in w.targets && Expendable(w, t, gone)
    ensures forall b :: b in gone ==> b in w.builds && w.builds[b].target == t && !Unresolved(w.builds[b].status)
    ensures NewestTwo(SuccessesOf(w.builds, t)) !! gone
    ensures forall u, b :: u in w.targets && b in gone ==>
      w.targets[u].latest != Some(b) && w.targets[u].current != Some(b)
  {
    assert PointersOf(w, t);
    assert UnresolvedOf(w.builds, t) <= Kept(w, t);
    forall b | b in gone ensures !Unresolved(w.builds[b].status) {
      assert b !in UnresolvedOf(w.builds, t);
    }
    forall u, b | u in w.targets && b in gone
      ensures w.targets[u].latest != Some(b) && w.targets[u].current != Some(b)
    {
      assert PointersOf(w, u);
    }
  }

  function Without(w: World, gone: set<Stamp>): World { w.(builds := w.builds - gone) }

  lemma RemovalKeepsPointers(w: World, t: TargetId, gone: set<Stamp>)
    requires Agreement(w) && t in w.targets && Expendable(w, t, gone)
    ensures Agreement(Without(w, gone))
  {
    ExpendableIsUnobserved(w, t, gone);
    var w' := Without(w, gone);
    forall u | u in w'.targets ensures PointersOf(w', u) {
      assert PointersOf(w, u);
      assert BuildsOf(w'.builds, u) == BuildsOf(w.builds, u) - gone;
      assert LiveOf(w'.builds, u) == LiveOf(w.builds, u) - gone;
      NewestOfShrunk(BuildsOf(w.builds, u), gone);
      NewestOfShrunk(LiveOf(w.builds, u), gone);
    }
  }

  lemma RemovalKeepsWindow(w: World, t: TargetId, gone: set<Stamp>)
    requires Expendable(w, t, gone)
    ensures Kept(Without(w, gone), t) == Kept(w, t)
  {
    var builds := w.builds - gone;
    var all, successes := BuildsOf(w.builds, t), SuccessesOf(w.builds, t);
    assert NewestTwo(successes) !! gone && UnresolvedOf(w.builds, t) !! gone && Singleton(Newest(all)) !! gone;
    assert BuildsOf(builds, t) == all - gone;
    NewestOfShrunk(all, gone);
    assert SuccessesOf(builds, t) == successes - gone;
    NewestTwoOfShrunk(successes, gone);
    assert UnresolvedOf(builds, t) == UnresolvedOf(w.builds, t);
  }

  /** A single destroy of something not kept removes the row and moves no pointer. */
  lemma DestroyIsRemoval(w: World, t: TargetId, x: Stamp)
    requires Agreement(w) && t in w.targets && Expendable(w, t, {x})
    ensures Destroyed(w, x) == Without(w, {x})
  {
    ExpendableIsUnobserved(w, t, {x});
    RemovalKeepsPointers(w, t, {x});
    assert PointersOf(w, t) && PointersOf(Without(w, {x}), t);
    assert w.targets[t := w.targets[t]] == w.targets;
  }

  function SetOf(ids: seq<Stamp>): set<Stamp> { set x | x in ids }

  lemma RemovingInTwo(w: World, gone: set<Stamp>, more: set<Stamp>)
    ensures Without(Without(w, gone), more) == Without(w, gone + more)
  {
    assert w.builds - gone - more == w.builds - (gone + more);
  }

  lemma OneMoreIsExpendable(w: World, t: TargetId, gone: set<Stamp>, x: Stamp)
    requires t in w.targets && Expendable(w, t, gone + {x}) && x !in gone
    ensures t in Without(w, gone).targets && Expendable(Without(w, gone), t, {x})
  {
    ExpendablePart(w, t, gone, gone + {x});
    RemovalKeepsWindow(w, t, gone);
    hide Kept;
    assert x in gone + {x};
  }

  lemma DestroyingOneMore(w: World, t: TargetId, gone: set<Stamp>, x: Stamp)
    requires Agreement(w) && t in w.targets && Expendable(w, t, gone + {x}) && x !in gone
    ensures Destroyed(Without(w, gone), x) == Without(w, gone + {x})
  {
    hide Destroyed, Expendable, Agreement, Without;
    ExpendablePart(w, t, gone, gone + {x});
    RemovalKeepsPointers(w, t, gone);
    OneMoreIsExpendable(w, t, gone, x);
    DestroyIsRemoval(Without(w, gone), t, x);
    RemovingInTwo(w, gone, {x});
  }

  lemma LastIsNew(ids: seq<Stamp>)
    requires ids != [] && forall i, j :: 0 <= i < j < |ids| ==> ids[j] < ids[i]
    ensures var front, last := ids[..|ids| - 1], ids[|ids| - 1];
      SetOf(ids) == SetOf(front) + {last} && last !in SetOf(front)
  {
  }

  lemma {:induction false} DestroyingEachIsRemoval(w: World, t: TargetId, ids: seq<Stamp>)
    requires Agreement(w) && t in w.targets && Expendable(w, t, SetOf(ids))
    requires forall i, j :: 0 <= i < j < |ids| ==> ids[j] < ids[i]
    ensures DestroyedEach(w, ids) == Without(w, SetOf(ids))
  {
    if ids == [] {
      assert w.builds - SetOf(ids) == w.builds;
    } else {
      hide Agreement, Expendable, Without, Destroyed, SetOf;
      var front, last := ids[..|ids| - 1], ids[|ids| - 1];
      LastIsNew(ids);
      ExpendablePart(w, t, SetOf(front), SetOf(ids));
      DestroyingEachIsRemoval(w, t, front);
      DestroyingOneMore(w, t, SetOf(front), last);
    }
  }

  lemma ExpendablePart(w: World, t: TargetId, part: set<Stamp>, gone: set<Stamp>)
    requires part <= gone && Expendable(w, t, gone)
    ensures Expendable(w, t, part)
  {
  }

  /** A row reads the same once builds its pointers do not name are gone. */
  lemma RowStateUnchanged(w: World, gone: set<Stamp>, u: TargetId)
    requires u in w.targets
    requires w.targets[u].latest.Some? ==> w.targets[u].latest.value !in gone
    requires w.targets[u].current.Some? ==> w.targets[u].current.value !in gone
    ensures RowStateOf(w.(builds := w.builds - gone), u) == RowStateOf(w, u)
  {
  }

  lemma RemovingResolvedBuilds(builds: map<Stamp, Build>, gone: set<Stamp>)
    requires forall b :: b in gone ==> b in builds && !Unresolved(builds[b].status)
    ensures InFlightIn(builds - gone) == InFlightIn(builds)
    ensures QueuedIn(builds - gone) == QueuedIn(builds)
  {
  }

  /**
   After each individual destroy of a pruning, every output's pointers, publication and row
   state are what they were before it, and no job or slot is affected.
   */
  lemma PruningIsInvisible(w: World, t: TargetId, k: nat)
    requires Agreement(w) && t in w.targets && k <= |Surplus(w, t)|
    ensures var w' := DestroyedEach(w, Surplus(w, t)[..k]);
      && w'.targets == w.targets && w'.projects == w.projects && w'.jobs == w.jobs
      && w'.history == w.history && InFlightIn(w'.builds) == InFlightIn(w.builds)
      && QueuedIn(w'.builds) == QueuedIn(w.builds)
      && forall u :: u in w.targets ==> RowStateOf(w', u) == RowStateOf(w, u)
  {
    var ids := Surplus(w, t)[..k];
    var gone := SetOf(ids);
    assert forall x :: x in ids ==> x in Surplus(w, t);
    DestroyingEachIsRemoval(w, t, ids);
    ExpendableIsUnobserved(w, t, gone);
    RemovingResolvedBuilds(w.builds, gone);
    forall u | u in w.targets
      ensures RowStateOf(w.(builds := w.builds - gone), u) == RowStateOf(w, u)
    {
      RowStateUnchanged(w, gone, u);
    }
  }

  /** What is kept are builds of that target. */
  lemma KeptBuildsExist(w: World, t: TargetId)
    requires Agreement(w) && t in w.targets
    ensures Kept(w, t) <= BuildsOf(w.builds, t)
  {
    var all, successes := BuildsOf(w.builds, t), SuccessesOf(w.builds, t);
    assert w.targets[t].current == Newest(LiveOf(w.builds, t)) by { assert PointersOf(w, t); }
    hide Agreement;
    assert successes <= all && UnresolvedOf(w.builds, t) <= all && LiveOf(w.builds, t) <= all;
    hide BuildsOf, SuccessesOf, UnresolvedOf, LiveOf;
    assert NewestTwo(successes) <= successes;
    assert Singleton(Newest(all)) <= all && Singleton(w.targets[t].current) <= all;
    hide NewestTwo, Singleton;
  }

  lemma SingletonSize(o: Option<Stamp>)
    ensures |Singleton(o)| <= 1
  {
  }

  lemma UnionSize(a: set<Stamp>, b: set<Stamp>)
    ensures |a + b| <= |a| + |b|
  {
    assert a + b == a + (b - a);
  }

  lemma KeptSize(w: World, t: TargetId)
    ensures |Kept(w, t)| <= 4 + |UnresolvedOf(w.builds, t)|
  {
    var s := SuccessesOf(w.builds, t);
    var first := Singleton(Newest(s));
    var second := Singleton(Newest(s - first));
    var latest := Singleton(Newest(BuildsOf(w.builds, t)));
    var current := if t in w.targets then Singleton(w.targets[t].current) else {};
    SingletonSize(Newest(s)); SingletonSize(Newest(s - first)); SingletonSize(Newest(BuildsOf(w.builds, t)));
    if t in w.targets { SingletonSize(w.targets[t].current); }
    UnionSize(first, second);
    UnionSize(NewestTwo(s), UnresolvedOf(w.builds, t));
    UnionSize(NewestTwo(s) + UnresolvedOf(w.builds, t), latest);
    UnionSize(NewestTwo(s) + UnresolvedOf(w.builds, t) + latest, current);
  }

  lemma PrunedBuilds(w: World, t: TargetId)
    requires Agreement(w) && t in w.targets
    ensures var w' := Pruned(w, t);
      && w'.builds == w.builds - (BuildsOf(w.builds, t) - Kept(w, t))
      && Agreement(w') && Kept(w', t) == Kept(w, t)
  {
    var ids := Surplus(w, t);
    assert SetOf(ids) == BuildsOf(w.builds, t) - Kept(w, t);
    DestroyingEachIsRemoval(w, t, ids);
    RemovalKeepsPointers(w, t, SetOf(ids));
    RemovalKeepsWindow(w, t, SetOf(ids));
  }

  lemma BuildsAfterPruning(builds: map<Stamp, Build>, t: TargetId, kept: set<Stamp>)
    requires kept <= BuildsOf(builds, t)
    ensures var builds' := builds - (BuildsOf(builds, t) - kept);
      && BuildsOf(builds', t) == kept
      && (forall b :: b in builds && (builds[b].target != t || b in kept) ==> b in builds' && builds'[b] == builds[b])
  {
  }

  lemma NothingLeftToPrune(w: World, t: TargetId)
    requires BuildsOf(w.builds, t) <= Kept(w, t)
    ensures Pruned(w, t) == w
  {
    assert BuildsOf(w.builds, t) - Kept(w, t) == {};
    assert Surplus(w, t) == [];
  }

  /**
   Pruning leaves the target exactly what the window keeps: every unresolved build, at most four
   others, and nothing of any other target is touched. Pruning again does nothing.
   */
  lemma PruningKeepsTheWindow(w: World, t: TargetId)
    requires Agreement(w) && t in w.targets
    ensures var w' := Pruned(w, t);
      && BuildsOf(w'.builds, t) == Kept(w, t)
      && UnresolvedOf(w.builds, t) <= BuildsOf(w'.builds, t)
      && |BuildsOf(w'.builds, t)| <= 4 + |UnresolvedOf(w.builds, t)|
      && (forall b :: b in w.builds && (w.builds[b].target != t || b in Kept(w, t)) ==>
            b in w'.builds && w'.builds[b] == w.builds[b])
      && (forall b :: b in w'.builds ==> b in w.builds)
      && Pruned(w', t) == w'
  {
    PrunedBuilds(w, t);
    KeptBuildsExist(w, t);
    KeptSize(w, t);
    var w', kept := Pruned(w, t), Kept(w, t);
    BuildsAfterPruning(w.builds, t, kept);
    NothingLeftToPrune(w', t);
  }

  /** The live builds left after a pruning, and the one behind the current one. */
  lemma PreviousAfterPruning(live: set<Stamp>, kept: set<Stamp>)
    requires live != {} && Newest(live).value in kept
    ensures var rest := live - {Newest(live).value};
      && Newest(live * kept) == Newest(live)
      && (Newest(live * kept - {Newest(live).value}) == Newest(rest)
          <==> rest == {} || Newest(rest).value in kept)
  {
    var top := Newest(live).value;
    var rest := live - {top};
    NewestIs(live * kept, top);
    assert live * kept - {top} == rest * kept;
    if rest != {} && Newest(rest).value in kept {
      NewestIs(rest * kept, Newest(rest).value);
    }
  }

  lemma LiveAfterPruning(w: World, t: TargetId)
    requires Agreement(w) && t in w.targets
    ensures LiveOf(Pruned(w, t).builds, t) == LiveOf(w.builds, t) * Kept(w, t)
  {
    hide Agreement, Pruned, Kept;
    PrunedBuilds(w, t);
  }

  /**
   The build "Restore previous build" falls back to survives a pruning if and only if there is
   none or it is one of the two newest successes -- which it is whenever both of those are live.
   */
  lemma PruningKeepsPreviousExactly(w: World, t: TargetId)
    requires Agreement(w) && t in w.targets
    ensures var previous := PreviousLive(w.builds, t);
      && (PreviousLive(Pruned(w, t).builds, t) == previous <==>
            previous.None? || previous.value in NewestTwo(SuccessesOf(w.builds, t)))
      && (NewestTwo(SuccessesOf(w.builds, t)) <= LiveOf(w.builds, t) ==>
            PreviousLive(Pruned(w, t).builds, t) == previous)
  {
    assert PointersOf(w, t);
    assert w.targets[t].current.Some? ==> w.targets[t].current.value in Kept(w, t);
    var live, kept, s := LiveOf(w.builds, t), Kept(w, t), SuccessesOf(w.builds, t);
    LiveAfterPruning(w, t);
    assert live <= s;
    hide Kept, Pruned, Agreement, LiveOf, SuccessesOf;
    if live != {} {
      assert Newest(live).value in kept;
      PreviousAfterPruning(live, kept);
      if PreviousLive(w.builds, t).Some? {
        PreviousKeptIffRecent(w, t);
        if NewestTwo(s) <= live {
          TwoNewestLive(s, live);
        }
      }
    }
  }

  lemma PreviousKeptIffRecent(w: World, t: TargetId)
    requires Agreement(w) && t in w.targets && PreviousLive(w.builds, t).Some?
    ensures var previous := PreviousLive(w.builds, t).value;
      previous in Kept(w, t) <==> previous in NewestTwo(SuccessesOf(w.builds, t))
  {
    assert PointersOf(w, t);
    var previous := PreviousLive(w.builds, t).value;
    var s := SuccessesOf(w.builds, t);
    assert previous in s;
    assert s <= BuildsOf(w.builds, t);
    assert Newest(BuildsOf(w.builds, t)) == Some(previous) ==> Newest(s) == Some(previous) by {
      if Newest(BuildsOf(w.builds, t)) == Some(previous) { NewestIs(s, previous); }
    }
  }

  /** If the two newest of a set lie in a part of it, they are the two newest of that part. */
  lemma TwoNewestLive(s: set<Stamp>, live: set<Stamp>)
    requires live <= s && NewestTwo(s) <= live
    ensures NewestTwo(live) == NewestTwo(s)
  {
    if s != {} {
      var m := Newest(s).value;
      NewestIs(live, m);
      assert Singleton(Newest(s)) == {m};
      assert live - {m} <= s - {m};
      if s - {m} != {} {
        var second := Newest(s - {m}).value;
        assert second in NewestTwo(s);
        NewestIs(live - {m}, second);
      }
    }
  }

  /** An only build is never pruned. */
  lemma OnlyBuildIsKept(w: World, b: Stamp)
    requires w.builds.Keys == {b}
    ensures Pruned(w, w.builds[b].target) == w
  {
    var t := w.builds[b].target;
    assert BuildsOf(w.builds, t) == {b};
    NewestIs({b}, b);
    assert BuildsOf(w.builds, t) - Kept(w, t) == {};
    assert Surplus(w, t) == [];
  }

  // ---- The window, build by build ----

  /** `c` is a success of `b`'s target that came after `b`. */
  predicate LaterSuccess(w: World, b: Stamp, c: Stamp)
    requires b in w.builds
  {
    c in w.builds && c > b && w.builds[c].target == w.builds[b].target && w.builds[c].status == Success
  }

  /** A success with at most one other success of its target after it. */
  ghost predicate OneOfTwoSuccesses(w: World, b: Stamp)
    requires b in w.builds
  {
    w.builds[b].status == Success && forall c, d :: LaterSuccess(w, b, c) && LaterSuccess(w, b, d) ==> c == d
  }

  /** Not decided, the last of its target, one of its last two successes, or what it serves. */
  ghost predicate Keepable(w: World, b: Stamp)
    requires b in w.builds
  {
    var x := w.builds[b];
    || x.status in {Pending, InProgress, SentToServer, ReceivedFromServer, Queued}
    || (forall c :: c in w.builds && w.builds[c].target == x.target ==> c <= b)
    || OneOfTwoSuccesses(w, b)
    || (x.target in w.targets && w.targets[x.target].current == Some(b))
  }

  lemma NewestTwoExactlyWhen(s: set<Stamp>, b: Stamp)
    requires b in s
    ensures b in NewestTwo(s) <==> forall c, d :: c in s && d in s && c > b && d > b ==> c == d
  {
    var m := Newest(s).value;
    var rest := s - {m};
    assert Singleton(Newest(s)) == {m} && s == rest + {m};
    if rest != {} {
      var second := Newest(rest).value;
      assert second in rest && IsNewest(second, rest) && NewestTwo(s) == {m, second};
    }
  }

  lemma KeptExactlyWhen(w: World, b: Stamp)
    requires b in w.builds
    ensures b in Kept(w, w.builds[b].target) <==> Keepable(w, b)
  {
    var t := w.builds[b].target;
    var all, successes := BuildsOf(w.builds, t), SuccessesOf(w.builds, t);
    assert b in all;
    var last := Newest(all).value;
    assert IsNewest(last, all) && Singleton(Newest(all)) == {last};
    assert b == last <==> forall c :: c in w.builds && w.builds[c].target == t ==> c <= b by {
      assert forall c: Stamp :: c in all <==> c in w.builds && w.builds[c].target == t;
    }
    assert b in NewestTwo(successes) <==> OneOfTwoSuccesses(w, b) by {
      assert forall c: Stamp :: LaterSuccess(w, b, c) <==> c in successes && c > b;
      if b in successes { NewestTwoExactlyWhen(successes, b); }
    }
  }

  /** Pruning leaves, of the target's builds, exactly these, and every build of another target. */
  lemma PruningLeavesExactly(w: World, t: TargetId, b: Stamp)
    requires Agreement(w) && t in w.targets && b in w.builds
    ensures b in Pruned(w, t).builds <==> w.builds[b].target != t || Keepable(w, b)
  {
    hide Kept, Keepable, Agreement;
    PrunedBuilds(w, t);
    KeptExactlyWhen(w, b);
  }
}
