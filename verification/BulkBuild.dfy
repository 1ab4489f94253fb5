/**
 "Build all": each candidate is started or queued on the state its predecessors left behind, so
 the slots that exist are filled in order, and asking again soon has nothing left to do.
 */
module BulkBuild {
  import opened Options
  import opened Builds
  import opened BuildFacts
  import opened TargetPointers
  import opened BuildRuns

  // ---- Which builds start ----

  ghost predicate ClockAhead(w: World) { forall b :: b in w.builds ==> b < w.clock }

  /** `w2` is `w1`, with `k1` slots free, after one `queue_or_start_build` for `t`. */
  ghost predicate OneSlotTaken(w1: World, k1: nat, t: TargetId, w2: World, k2: nat) {
    && w2.builds == w1.builds[w1.clock := Build(t, if k1 > 0 then Pending else Queued, false, false, false, "")]
    && w2.clock == w1.clock + 1
    && k2 == (if k1 > 0 then k1 - 1 else 0)
    && w2.history.started == w1.history.started + (if k1 > 0 then [w1.clock] else [])
  }

  lemma SlotsAfterCreate(w: World, t: TargetId)
    requires ClockAhead(w)
    ensures OneSlotTaken(w, FreeSlots(w), t, Created(w, t), FreeSlots(Created(w, t)))
    ensures ClockAhead(Created(w, t))
  {
    InsertFacts(w, t);
    PutFacts(w.builds, w.clock, FreshBuild(w, t));
    ToggledSize(InFlightIn(w.builds), w.clock, SlotAvailable(w));
  }

  function Successive(from: Stamp, n: nat): seq<Stamp> { seq(n, i requires 0 <= i => from + i) }

  lemma SuccessiveSnoc(from: Stamp, k: nat, n: nat)
    ensures Successive(from, Min(k, n)) + (if k - Min(k, n) > 0 then [from + n] else [])
      == Successive(from, Min(k, n + 1))
  {
  }

  predicate FilledRow(b: Stamp, t: TargetId, starts: bool, builds: map<Stamp, Build>) {
    && b in builds
    && builds[b].target == t
    && builds[b].status == (if starts then Pending else Queued)
  }

  /** The builds made for `ts`, one each in order, beside those that were there. */
  ghost predicate RowsFilled(w: World, k: nat, ts: seq<TargetId>, w': World) {
    && (forall i :: 0 <= i < |ts| ==> FilledRow(w.clock + i, ts[i], i < k, w'.builds))
    && (forall b :: b in w.builds ==> b in w'.builds && w'.builds[b] == w.builds[b])
    && |w'.builds| == |w.builds| + |ts|
  }

  /**
   With `k` slots free in `w`, exactly the first `k` targets start, in order, and each of the
   others gets a queued build, in order; no other build changes. `left` slots are then free.
   */
  ghost predicate FilledInOrder(w: World, k: nat, ts: seq<TargetId>, w': World, left: nat) {
    && w'.clock == w.clock + |ts|
    && left == k - Min(k, |ts|)
    && w'.history.started == w.history.started + Successive(w.clock, Min(k, |ts|))
    && RowsFilled(w, k, ts, w')
  }

  lemma FillingOneMoreRow(w: World, k: nat, front: seq<TargetId>, w1: World, t: TargetId, w2: World)
    requires RowsFilled(w, k, front, w1) && ClockAhead(w1) && w1.clock == w.clock + |front|
    requires w2.builds ==
      w1.builds[w1.clock := Build(t, if |front| < k then Pending else Queued, false, false, false, "")]
    ensures RowsFilled(w, k, front + [t], w2)
  {
    assert w1.clock !in w1.builds;
    var ts := front + [t];
    forall i | 0 <= i < |ts| ensures FilledRow(w.clock + i, ts[i], i < k, w2.builds) {
      if i < |front| {
        assert FilledRow(w.clock + i, front[i], i < k, w1.builds);
      }
    }
  }

  lemma FillingOneMore(w: World, k: nat, front: seq<TargetId>, w1: World, k1: nat, t: TargetId, w2: World, k2: nat)
    requires FilledInOrder(w, k, front, w1, k1) && ClockAhead(w1) && OneSlotTaken(w1, k1, t, w2, k2)
    ensures FilledInOrder(w, k, front + [t], w2, k2)
  {
    FillingOneMoreRow(w, k, front, w1, t, w2);
    hide RowsFilled, ClockAhead;
    SuccessiveSnoc(w.clock, k, |front|);
    hide Successive;
  }

  lemma {:induction false} ClockAheadAfterCreateEach(w: World, ts: seq<TargetId>)
    requires ClockAhead(w)
    ensures ClockAhead(CreatedEach(w, ts))
  {
    if ts != [] {
      ClockAheadAfterCreateEach(w, ts[..|ts| - 1]);
      InsertFacts(CreatedEach(w, ts[..|ts| - 1]), ts[|ts| - 1]);
    }
  }

  lemma {:induction false} BulkFillsSlotsInOrder(w: World, ts: seq<TargetId>)
    requires ClockAhead(w)
    ensures FilledInOrder(w, FreeSlots(w), ts, CreatedEach(w, ts), FreeSlots(CreatedEach(w, ts)))
  {
    if ts != [] {
      var front, last := ts[..|ts| - 1], ts[|ts| - 1];
      var w1 := CreatedEach(w, front);
      assert CreatedEach(w, ts) == Created(w1, last);
      var k, k1, k2 := FreeSlots(w), FreeSlots(w1), FreeSlots(Created(w1, last));
      assert FilledInOrder(w, k, front + [last], Created(w1, last), k2) by {
        BulkFillsSlotsInOrder(w, front);
        ClockAheadAfterCreateEach(w, front);
        assert OneSlotTaken(w1, k1, last, Created(w1, last), k2) by { SlotsAfterCreate(w1, last); }
        FillingOneMore(w, k, front, w1, k1, last, Created(w1, last), k2);
      }
      assert ts == front + [last];
    }
  }

  // ---- What the rows say afterwards ----

  lemma PointersAfterCreate(w: World, t: TargetId)
    requires Agreement(w) && t in w.targets
    ensures var w' := Created(w, t);
      && w'.targets.Keys == w.targets.Keys && w'.projects == w.projects
      && w'.targets[t].latest == Some(w.clock)
      && (forall u :: u in w.targets && u != t ==> w'.targets[u] == w.targets[u])
  {
    InsertFacts(w, t);
    PutFactsOf(w.builds, w.clock, FreshBuild(w, t), t);
    NewestOfGrown(BuildsOf(w.builds, t), w.clock);
  }

  lemma RowsAfterCreate(w: World, t: TargetId, u: TargetId)
    requires Agreement(w) && t in w.targets && u in w.targets
    ensures u in Created(w, t).targets
    ensures RowStateOf(Created(w, t), u) ==
      if u != t then RowStateOf(w, u) else if SlotAvailable(w) then Building else RowQueued
  {
    PointersAfterCreate(w, t);
    InsertFacts(w, t);
    assert PointersOf(w, u);
    assert w.clock !in w.builds;
    if u != t {
      SameRowState(w, Created(w, t), u);
    }
  }

  lemma SameRowState(w: World, w': World, u: TargetId)
    requires u in w.targets && u in w'.targets && w'.targets[u] == w.targets[u] && w'.projects == w.projects
    requires w.targets[u].latest.Some? ==> w.targets[u].latest.value in w.builds
    requires w.targets[u].current.Some? ==> w.targets[u].current.value in w.builds
    requires forall b :: b in w.builds ==> b in w'.builds && w'.builds[b] == w.builds[b]
    ensures RowStateOf(w', u) == RowStateOf(w, u)
  {
  }

  /** A candidate's row turns to building or queued; every other row stays what it was. */
  ghost predicate RowsMoved(w: World, ts: seq<TargetId>, w': World) {
    && w'.targets.Keys == w.targets.Keys
    && w'.projects == w.projects
    && (forall u :: u in w.targets ==>
          if u in ts then RowStateOf(w', u) in {Building, RowQueued}
          else RowStateOf(w', u) == RowStateOf(w, u))
  }

  lemma NoRowsMoved(w: World)
    ensures RowsMoved(w, [], w)
  {
  }

  ghost predicate OneRowMoved(w1: World, t: TargetId, w2: World) {
    && w2.targets.Keys == w1.targets.Keys
    && w2.projects == w1.projects
    && (forall u :: u in w1.targets ==>
          if u == t then RowStateOf(w2, u) in {Building, RowQueued}
          else RowStateOf(w2, u) == RowStateOf(w1, u))
  }

  lemma RowAfterCreate(w: World, t: TargetId)
    requires Agreement(w) && t in w.targets
    ensures OneRowMoved(w, t, Created(w, t))
  {
    PointersAfterCreate(w, t);
    forall u | u in w.targets
      ensures if u == t then RowStateOf(Created(w, t), u) in {Building, RowQueued}
              else RowStateOf(Created(w, t), u) == RowStateOf(w, u)
    {
      RowsAfterCreate(w, t, u);
    }
  }

  lemma MovingOneMore(w: World, front: seq<TargetId>, w1: World, t: TargetId, w2: World)
    requires RowsMoved(w, front, w1) && OneRowMoved(w1, t, w2)
    ensures RowsMoved(w, front + [t], w2)
  {
  }

  lemma {:induction false} AgreementAfterCreateEach(w: World, ts: seq<TargetId>)
    requires Agreement(w) && forall i :: 0 <= i < |ts| ==> ts[i] in w.targets
    ensures Agreement(CreatedEach(w, ts)) && CreatedEach(w, ts).targets.Keys == w.targets.Keys
  {
    if ts != [] {
      AgreementAfterCreateEach(w, ts[..|ts| - 1]);
      AgreementAfterCreate(CreatedEach(w, ts[..|ts| - 1]), ts[|ts| - 1]);
      InsertFacts(CreatedEach(w, ts[..|ts| - 1]), ts[|ts| - 1]);
    }
  }

  lemma {:induction false} RowsAfterBulk(w: World, ts: seq<TargetId>)
    requires Agreement(w) && forall i :: 0 <= i < |ts| ==> ts[i] in w.targets
    ensures RowsMoved(w, ts, CreatedEach(w, ts))
  {
    hide Agreement, Created, RowStateOf, RowsMoved, OneRowMoved;
    if ts == [] {
      NoRowsMoved(w);
    } else {
      var front, last := ts[..|ts| - 1], ts[|ts| - 1];
      var w1 := CreatedEach(w, front);
      RowsAfterBulk(w, front);
      assert OneRowMoved(w1, last, Created(w1, last)) by {
        AgreementAfterCreateEach(w, front);
        RowAfterCreate(w1, last);
      }
      MovingOneMore(w, front, w1, last, Created(w1, last));
      assert ts == front + [last];
    }
  }

  lemma {:induction false} RowsInMeans(w: World, ts: seq<TargetId>, state: RowState)
    ensures forall t :: t in RowsIn(w, ts, state) <==> t in ts && t in w.targets && RowStateOf(w, t) == state
  {
    if ts != [] {
      var front, last := ts[..|ts| - 1], ts[|ts| - 1];
      RowsInMeans(w, front, state);
      assert ts == front + [last];
    }
  }

  lemma {:induction false} SameRows(w: World, w': World, ts: seq<TargetId>, state: RowState)
    requires w'.targets.Keys == w.targets.Keys
    requires forall t :: t in ts && t in w.targets ==> (RowStateOf(w', t) == state <==> RowStateOf(w, t) == state)
    ensures RowsIn(w', ts, state) == RowsIn(w, ts, state)
  {
    if ts != [] {
      assert ts == ts[..|ts| - 1] + [ts[|ts| - 1]];
      SameRows(w, w', ts[..|ts| - 1], state);
    }
  }

  lemma FirstIsMember(s: seq<TargetId>)
    ensures s == [] || s[0] in s
  {
  }

  /** What building one list of candidates leaves for the next call. */
  lemma CandidatesGone(w: World, w': World, outputs: seq<TargetId>, ts: seq<TargetId>)
    requires RowsMoved(w, ts, w')
    requires var never := RowsIn(w, outputs, NeverBuilt);
      ts == if never != [] then never else RowsIn(w, outputs, Stale)
    ensures RowsIn(w', outputs, NeverBuilt) == []
    ensures if RowsIn(w, outputs, NeverBuilt) == [] then RowsIn(w', outputs, Stale) == []
            else RowsIn(w', outputs, Stale) == RowsIn(w, outputs, Stale)
  {
    RowsInMeans(w, outputs, NeverBuilt);
    RowsInMeans(w, outputs, Stale);
    RowsInMeans(w', outputs, NeverBuilt);
    RowsInMeans(w', outputs, Stale);
    FirstIsMember(RowsIn(w', outputs, NeverBuilt));
    if RowsIn(w, outputs, NeverBuilt) == [] {
      FirstIsMember(RowsIn(w', outputs, Stale));
    } else {
      SameRows(w, w', outputs, Stale);
    }
  }

  lemma AfterOneCall(w: World, p: ProjectId)
    requires Invariant(w) && p in w.projects
    ensures var w', outputs := BuiltAll(w, p), w.projects[p].outputs;
      && Invariant(w') && w'.projects == w.projects
      && RowsIn(w', outputs, NeverBuilt) == []
      && (if RowsIn(w, outputs, NeverBuilt) == [] then RowsIn(w', outputs, Stale) == []
          else RowsIn(w', outputs, Stale) == RowsIn(w, outputs, Stale))
  {
    var ts := BulkCandidates(w, p);
    InvariantAfterBuildAll(w, p);
    RowsAreTargets(w, w.projects[p].outputs, NeverBuilt);
    RowsAreTargets(w, w.projects[p].outputs, Stale);
    assert forall i :: 0 <= i < |ts| ==> ts[i] in ts;
    RowsAfterBulk(w, ts);
    CandidatesGone(w, BuiltAll(w, p), w.projects[p].outputs, ts);
  }

  /** Asked three times with nothing in between, the third time starts and queues nothing. */
  lemma ThirdBuildAllDoesNothing(w: World, p: ProjectId)
    requires Invariant(w)
    ensures var twice := BuiltAll(BuiltAll(w, p), p); BuiltAll(twice, p) == twice
  {
    if p in w.projects {
      AfterOneCall(w, p);
      AfterOneCall(BuiltAll(w, p), p);
    }
  }
}
