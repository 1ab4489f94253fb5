/** What an import prunes: the builds the dashboard keeps of an output are told by the row alone. */
module ImportWindow {
  import opened Options
  import opened Builds
  import opened BuildFacts
  import opened BuildRows
  import opened Outcomes
  import opened Retention
  import opened StepMeanings
  import opened TargetPointers

  /** The world with the row of `b` as given, there or not. */
  function WithRow(w: World, b: Stamp, x: Build): World { w.(builds := w.builds[b := x]) }

  lemma TwoNewestArePast(s: set<Stamp>, c: Stamp, x: Stamp, y: Stamp) returns (m: Stamp, n: Stamp)
    requires x in s && y in s && x != y && x > c && y > c
    ensures m in NewestTwo(s) && n in NewestTwo(s) && m in s && n in s && m != n && m > c && n > c
  {
    m := Newest(s).value;
    var rest := s - {m};
    assert Singleton(Newest(s)) == {m} && (x in rest || y in rest);
    n := Newest(rest).value;
    assert n in rest;
  }

  lemma NewestStays(w: World, t: TargetId, m: Stamp)
    requires Agreement(w) && t in w.targets && IsNewest(m, BuildsOf(w.builds, t))
    ensures m in Pruned(w, t).builds && Pruned(w, t).builds[m] == w.builds[m]
  {
    hide Agreement;
    NewestIs(BuildsOf(w.builds, t), m);
    PrunedBuilds(w, t);
  }

  lemma SuccessesStay(w: World, t: TargetId)
    requires Agreement(w) && t in w.targets
    ensures forall m :: m in NewestTwo(SuccessesOf(w.builds, t)) && m in SuccessesOf(w.builds, t) ==>
      m in Pruned(w, t).builds && Pruned(w, t).builds[m] == w.builds[m]
  {
    hide Agreement;
    PrunedBuilds(w, t);
  }

  /** A pruning leaves a later build of the output, if there was one. */
  lemma LaterBuildStays(w: World, t: TargetId, c: Stamp, d: Stamp) returns (m: Stamp)
    requires Agreement(w) && t in w.targets && d in w.builds && w.builds[d].target == t && d > c
    ensures m > c && m in w.builds && m in Pruned(w, t).builds && Pruned(w, t).builds[m] == w.builds[m]
    ensures w.builds[m].target == t
  {
    var all := BuildsOf(w.builds, t);
    assert d in all;
    m := Newest(all).value;
    assert IsNewest(m, all);
    NewestStays(w, t, m);
  }

  /** ... and two later successes, if there were two. */
  lemma LaterSuccessesStay(w: World, c: Stamp, i: Stamp, j: Stamp) returns (m: Stamp, n: Stamp)
    requires Agreement(w) && c in w.builds && w.builds[c].target in w.targets
    requires LaterSuccess(w, c, i) && LaterSuccess(w, c, j) && i != j
    ensures LaterSuccess(w, c, m) && LaterSuccess(w, c, n) && m != n
    ensures var w' := Pruned(w, w.builds[c].target);
      m in w'.builds && w'.builds[m] == w.builds[m] && n in w'.builds && w'.builds[n] == w.builds[n]
  {
    hide Agreement;
    var t := w.builds[c].target;
    m, n := TwoNewestArePast(SuccessesOf(w.builds, t), c, i, j);
    hide NewestTwo, Pruned;
    SuccessesStay(w, t);
  }

  /** What a pruning gives up would be outside the window again if it were put back. */
  lemma GivenUpIsOutside(w: World, t: TargetId, c: Stamp)
    requires Agreement(w) && t in w.targets && c in w.builds && w.builds[c].target == t && !Keepable(w, c)
    ensures var w' := Pruned(w, t); c !in w'.builds && !Keepable(WithRow(w', c, w.builds[c]), c)
  {
    hide Agreement, Pruned;
    PruningLeavesExactly(w, t, c);
    PrunedTargets(w, t);
    var d :| d in w.builds && w.builds[d].target == t && d > c;
    var m := LaterBuildStays(w, t, c, d);
    var w'' := WithRow(Pruned(w, t), c, w.builds[c]);
    assert m in w''.builds && w''.builds[m].target == t;
    if w.builds[c].status == Success {
      var i, j :| LaterSuccess(w, c, i) && LaterSuccess(w, c, j) && i != j;
      var x, y := LaterSuccessesStay(w, c, i, j);
      assert LaterSuccess(w'', c, x) && LaterSuccess(w'', c, y);
    }
  }

  /** ... and what it keeps is inside the window of what is left. */
  lemma KeptIsInside(w: World, t: TargetId, c: Stamp)
    requires Agreement(w) && t in w.targets && c in w.builds && w.builds[c].target == t && Keepable(w, c)
    ensures var w' := Pruned(w, t); c in w'.builds && w'.builds[c] == w.builds[c] && Keepable(w', c)
  {
    hide Agreement, Kept, Keepable, Pruned;
    PruningKeepsTheWindow(w, t);
    PruningLeavesExactly(w, t, c);
    PrunedBuilds(w, t);
    KeptExactlyWhen(w, c);
    KeptExactlyWhen(Pruned(w, t), c);
  }

  lemma WindowAfter(w: World, t: TargetId, c: Stamp)
    requires Agreement(w) && t in w.targets && c in w.builds && w.builds[c].target == t
    ensures var w' := Pruned(w, t); c in w'.builds <==> Keepable(WithRow(w', c, w.builds[c]), c)
  {
    hide Agreement, Pruned, Keepable;
    var w' := Pruned(w, t);
    if Keepable(w, c) {
      KeptIsInside(w, t, c);
      assert w'.builds[c := w.builds[c]] == w'.builds;
    } else {
      GivenUpIsOutside(w, t, c);
    }
  }

  lemma UndecidedIsInside(w: World, c: Stamp, x: Build)
    requires Unresolved(x.status)
    ensures Keepable(WithRow(w, c, x), c)
  {
  }

  /** What the import's mark makes of the rows: its own build a success, at most one other put to work. */
  lemma MarkedRows(w: World, b: Stamp, seen: Build, c: Stamp)
    requires b in w.builds
    ensures var w2 := Marked(WithoutJob(w, Importing(b, seen)), b, Success, NOTHING_ELSE);
      && (c in w2.builds <==> c in w.builds)
      && (c in w2.builds && c in w.builds && c != b ==>
            w2.builds[c] == w.builds[c] || Promotion(w.builds[c], w2.builds[c]))
      && b in w2.builds && w2.builds[b] == w.builds[b].(status := Success)
  {
    hide Marked;
    var w1 := WithoutJob(w, Importing(b, seen));
    MarkKeepsRows(w1, b, Success, NOTHING_ELSE);
    MarkingItself(w1, b, Success, NOTHING_ELSE);
    if c != b { MarkingAnother(w1, b, Success, NOTHING_ELSE, c); }
  }

  /**
   A finished import prunes its output to the window and no other output at all: with its own
   build a success, a build is there afterwards exactly if, put back, it is inside the window.
   */
  lemma ImportPrunes(w: World, b: Stamp, seen: Build, c: Stamp)
    requires Agreement(w) && b in w.builds && Importing(b, seen) in w.jobs && c in w.builds
    ensures var w', x := Step(w, EndImport(b, seen, Imported)),
        if c == b then w.builds[b].(status := Success) else w.builds[c];
      c in w'.builds <==> x.target != w.builds[b].target || Keepable(WithRow(w', c, x), c)
  {
    var t := w.builds[b].target;
    var w2 := Marked(WithoutJob(w, Importing(b, seen)), b, Success, NOTHING_ELSE);
    ImportEndsInPruning(w, b, seen);
    ImportMarks(w, b, seen);
    MarkedRows(w, b, seen, c);
    hide Agreement, Marked, Pruned, Keepable, Step, WithRow;
    PruningLeavesExactly(w2, t, c);
    if w2.builds[c].target == t {
      WindowAfter(w2, t, c);
      if Unresolved(w2.builds[c].status) {
        UndecidedIsInside(Pruned(w2, t), c, w2.builds[c]);
        UndecidedIsInside(Pruned(w2, t), c, w.builds[c]);
      }
    }
  }
}
