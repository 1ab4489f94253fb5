/**
 The queue behind the concurrency cap: no slot is left idle while a build waits for one, no more
 builds run than the cap allows except those coming back from an outcome, and slots are handed
 out oldest first.
 */
module BuildQueue {
  import opened Builds
  import opened BuildFacts

  // ---- Who acts on which build ----

  /**
   A queued build has never been handed to the background work, so nothing acts on it but a
   cancel that finds no status URL; everything else is about builds that were started once.
   */
  ghost predicate Orderly(w: World) {
    && (forall b :: b in w.builds ==> b < w.clock)
    && (forall b :: b in w.history.started ==> b < w.clock)
    && (forall b :: b in QueuedIn(w.builds) ==> b !in w.history.started)
    && (forall b :: b in InFlightIn(w.builds) ==> b in w.history.started)
    && (forall b :: b in w.builds && w.builds[b].hasStatusUrl ==> b in w.history.started)
    && (forall j :: j in w.jobs ==> j.build in w.history.started)
    && NoRepeats(w.history.started)
  }

  predicate NoRepeats(s: seq<Stamp>) { forall i, j :: 0 <= i < j < |s| ==> s[i] != s[j] }

  /** The marks the actors make: never `queued`, and in flight only for a started build. */
  predicate Allowed(w: World, id: Stamp, s: Status, ch: Changes) {
    && !s.Queued?
    && (id in w.builds && (InFlight(s) || ch.statusUrl) ==> id in w.history.started)
  }

  lemma OrderlyAfterWrite(w: World, id: Stamp, s: Status, ch: Changes)
    requires Orderly(w) && Allowed(w, id, s, ch)
    ensures Orderly(WrittenAndSynced(w, id, s, ch))
  {
    WriteFacts(w, id, s, ch);
    if id in w.builds {
      PutFacts(w.builds, id, Patched(w.builds[id], s, ch));
    }
  }

  /** Handing a build that was never started to `start!`. */
  lemma OrderlyAfterStart(w: World, id: Stamp)
    requires id in w.builds && InFlight(w.builds[id].status) && id !in w.history.started
    requires Orderly(w.(builds := w.builds - {id})) && id < w.clock && !w.builds[id].hasStatusUrl
    ensures Orderly(Started(w, id))
  {
    var rest := w.builds - {id};
    var w' := Started(w, id);
    RemoveFacts(w.builds, id);
    assert forall b :: b in w.builds ==> b == id || b in rest;
    assert forall b :: b in w'.history.started <==> b in w.history.started || b == id;
    assert forall b :: b in QueuedIn(w.builds) ==> b != id && b in QueuedIn(rest);
    assert forall b :: b in InFlightIn(w.builds) ==> b == id || b in InFlightIn(rest);
    assert forall b :: b in w.builds && b != id ==> w.builds[b] == rest[b];
  }

  lemma OrderlyAfterPromotion(w: World)
    requires Orderly(w)
    ensures Orderly(Promoted(w))
  {
    hide WrittenAndSynced, Started, Orderly;
    PromotionFacts(w);
    if Promoted(w) != w {
      var q :| IsOldest(q, QueuedIn(w.builds)) && SlotAvailable(w)
               && Promoted(w) == Started(WrittenAndSynced(w, q, Pending, NOTHING_ELSE), q);
      OrderlyAfterPromoting(w, q);
    }
  }

  lemma OrderlyAfterPromoting(w: World, q: Stamp)
    requires Orderly(w) && q in QueuedIn(w.builds)
    ensures Orderly(Started(WrittenAndSynced(w, q, Pending, NOTHING_ELSE), q))
  {
    var w1 := WrittenAndSynced(w, q, Pending, NOTHING_ELSE);
    WriteFacts(w, q, Pending, NOTHING_ELSE);
    hide WrittenAndSynced, Started;
    var rest := w1.(builds := w1.builds - {q});
    assert rest.builds == w.builds - {q};
    RemoveFacts(w.builds, q);
    assert Orderly(rest);
    assert !w.builds[q].hasStatusUrl && q !in w.history.started && q < w.clock;
    OrderlyAfterStart(w1, q);
  }

  // ---- Using the cap fully ----

  /** `slack` is how many slots a step in progress has just freed and not yet handed on. */
  ghost predicate CapacityWithin(w: World, slack: nat) {
    && (QueuedIn(w.builds) != {} ==> |InFlightIn(w.builds)| + w.history.idle + slack >= w.cap)
    && |InFlightIn(w.builds)| <= w.cap + |w.history.Revived()|
    && w.history.idle <= w.history.dropped
  }

  ghost predicate Capacity(w: World) { CapacityWithin(w, 0) }

  lemma CapacityAfterWrite(w: World, id: Stamp, s: Status, ch: Changes)
    requires Orderly(w) && Allowed(w, id, s, ch) && Capacity(w)
    ensures CapacityWithin(WrittenAndSynced(w, id, s, ch), if InFlight(s) then 0 else 1)
  {
    WriteFacts(w, id, s, ch);
    if id in w.builds {
      PutFacts(w.builds, id, Patched(w.builds[id], s, ch));
      ToggledSize(InFlightIn(w.builds), id, InFlight(s));
      assert QueuedIn(w.builds) - {id} != {} ==> QueuedIn(w.builds) != {};
    }
  }

  lemma CapacityAfterPromotion(w: World)
    requires CapacityWithin(w, 1)
    ensures Capacity(Promoted(w))
  {
    hide Promoted;
    PromotionEffects(w);
  }

  // ---- First in, first out ----

  predicate Increasing(s: seq<Stamp>) { forall i, j :: 0 <= i < j < |s| ==> s[i] < s[j] }

  /** Unless a destroyed build left a slot idle, every queued build is newer than every started one. */
  ghost predicate Fifo(w: World) {
    w.history.dropped == 0 ==>
      && Increasing(w.history.started)
      && forall q, b :: q in QueuedIn(w.builds) && b in w.history.started ==> b < q
  }

  lemma FifoAfterWrite(w: World, id: Stamp, s: Status, ch: Changes)
    requires Fifo(w) && !s.Queued?
    ensures Fifo(WrittenAndSynced(w, id, s, ch))
  {
    WriteFacts(w, id, s, ch);
    if id in w.builds {
      PutFacts(w.builds, id, Patched(w.builds[id], s, ch));
    }
  }

  /** Starting a build that is newer than all started and older than all that wait. */
  lemma FifoAfterStart(w: World, w': World, id: Stamp)
    requires Fifo(w) && w'.history.started == w.history.started + [id] && w'.history.dropped == w.history.dropped
    requires QueuedIn(w'.builds) == QueuedIn(w.builds) - {id}
    requires w.history.dropped == 0 ==> forall b :: b in w.history.started ==> b < id
    requires w.history.dropped == 0 ==> forall q :: q in QueuedIn(w.builds) ==> id <= q
    ensures Fifo(w')
  {
    var s' := w.history.started + [id];
    assert forall b :: b in s' <==> b in w.history.started || b == id;
    assert forall i :: 0 <= i < |w.history.started| ==> w.history.started[i] in w.history.started;
  }

  lemma FifoAfterPromotion(w: World)
    requires Fifo(w)
    ensures Fifo(Promoted(w))
  {
    hide Promoted, SlotAvailable, FreeSlots, Min, InFlightIn;
    PromotionEffects(w);
    if Promoted(w) != w {
      var q :| PromotedTo(w, Promoted(w), q);
      FifoAfterStart(w, Promoted(w), q);
    }
  }

  // ---- The steps ----

  ghost predicate QueueInvariant(w: World) { Orderly(w) && Capacity(w) && Fifo(w) }

  lemma QueueAfterMark(w: World, id: Stamp, s: Status, ch: Changes)
    requires QueueInvariant(w) && Allowed(w, id, s, ch)
    ensures QueueInvariant(Marked(w, id, s, ch))
  {
    var w1 := WrittenAndSynced(w, id, s, ch);
    OrderlyAfterWrite(w, id, s, ch);
    CapacityAfterWrite(w, id, s, ch);
    FifoAfterWrite(w, id, s, ch);
    if !InFlight(s) {
      OrderlyAfterPromotion(w1);
      CapacityAfterPromotion(w1);
      FifoAfterPromotion(w1);
    }
  }

  lemma OrderlyAfterCreate(w: World, t: TargetId)
    requires Orderly(w)
    ensures Orderly(Created(w, t))
  {
    InsertFacts(w, t);
    PutFacts(w.builds, w.clock, FreshBuild(w, t));
    if SlotAvailable(w) {
      var w1 := Inserted(w, t);
      assert w1.builds - {w.clock} == w.builds;
      assert Orderly(w1.(builds := w1.builds - {w.clock}));
      OrderlyAfterStart(w1, w.clock);
    }
  }

  lemma CapacityAfterCreate(w: World, t: TargetId)
    requires Orderly(w) && Capacity(w)
    ensures Capacity(Created(w, t))
  {
    InsertFacts(w, t);
    PutFacts(w.builds, w.clock, FreshBuild(w, t));
    ToggledSize(InFlightIn(w.builds), w.clock, SlotAvailable(w));
    assert w.clock !in w.builds;
  }

  lemma FifoAfterCreate(w: World, t: TargetId)
    requires Orderly(w) && Capacity(w) && Fifo(w)
    ensures Fifo(Created(w, t))
  {
    InsertFacts(w, t);
    PutFacts(w.builds, w.clock, FreshBuild(w, t));
    if SlotAvailable(w) {
      assert QueuedIn(w.builds) - {w.clock} == QueuedIn(w.builds);
      FifoAfterStart(w, Created(w, t), w.clock);
    }
  }

  lemma QueueAfterCreate(w: World, t: TargetId)
    requires QueueInvariant(w)
    ensures QueueInvariant(Created(w, t))
  {
    OrderlyAfterCreate(w, t);
    CapacityAfterCreate(w, t);
    FifoAfterCreate(w, t);
  }

  lemma QueueAfterDestroy(w: World, id: Stamp)
    requires QueueInvariant(w)
    ensures QueueInvariant(Destroyed(w, id))
  {
    if id in w.builds {
      RemoveFacts(w.builds, id);
    }
  }

  /** Any step that touches no build and starts none, and leaves jobs for started builds only. */
  lemma QueueFramed(w: World, w': World)
    requires QueueInvariant(w)
    requires w'.builds == w.builds && w'.cap == w.cap && w.clock <= w'.clock
    requires w'.history.started == w.history.started && w'.history.Revived() == w.history.Revived()
    requires w'.history.dropped == w.history.dropped && w'.history.idle == w.history.idle
    requires forall j :: j in w'.jobs ==> j in w.jobs || j.build in w.history.started
    ensures QueueInvariant(w')
  {
  }
}
