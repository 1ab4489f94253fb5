/**
 The two pointers denormalized onto every output, and what they let the public see: they always
 name the newest build and the newest live one, nothing but live output is ever served, and what
 is served only moves forward.
 */
module TargetPointers {
  import opened Options
  import opened Builds
  import opened BuildFacts

  ghost predicate PointersOf(w: World, t: TargetId)
    requires t in w.targets
  {
    && w.targets[t].latest == Newest(BuildsOf(w.builds, t))
    && w.targets[t].current == Newest(LiveOf(w.builds, t))
  }

  ghost predicate Agreement(w: World) {
    && (forall b :: b in w.builds ==> b < w.clock && w.builds[b].target in w.targets)
    && (forall t :: t in w.targets ==> t < w.clock)
    && (forall t :: t in w.targets ==> PointersOf(w, t))
  }

  /** Syncing the one target whose builds changed restores agreement everywhere. */
  lemma AgreementAfterSync(w: World, raw: World, t: TargetId)
    requires Agreement(w)
    requires raw.targets == w.targets && w.clock <= raw.clock
    requires forall b :: b in raw.builds ==> b < raw.clock && raw.builds[b].target in w.targets
    requires forall u :: u in w.targets && u != t ==>
      BuildsOf(raw.builds, u) == BuildsOf(w.builds, u) && LiveOf(raw.builds, u) == LiveOf(w.builds, u)
    ensures Agreement(Synced(raw, t))
  {
    var w' := Synced(raw, t);
    forall u | u in w'.targets ensures PointersOf(w', u) {
      assert PointersOf(w, u);
    }
  }

  lemma AgreementAfterWrite(w: World, id: Stamp, s: Status, ch: Changes)
    requires Agreement(w)
    ensures Agreement(WrittenAndSynced(w, id, s, ch))
  {
    if id in w.builds {
      var b := Patched(w.builds[id], s, ch);
      forall u | u in w.targets && u != b.target
        ensures BuildsOf(w.builds[id := b], u) == BuildsOf(w.builds, u)
        ensures LiveOf(w.builds[id := b], u) == LiveOf(w.builds, u)
      {
        PutFactsOf(w.builds, id, b, u);
      }
      AgreementAfterSync(w, Written(w, id, s, ch), b.target);
    }
  }

  lemma AgreementAfterPromotion(w: World)
    requires Agreement(w)
    ensures Agreement(Promoted(w))
  {
    PromotionFacts(w);
    if Promoted(w) != w {
      var q :| IsOldest(q, QueuedIn(w.builds)) && SlotAvailable(w)
               && Promoted(w) == Started(WrittenAndSynced(w, q, Pending, NOTHING_ELSE), q);
      AgreementAfterWrite(w, q, Pending, NOTHING_ELSE);
      AgreementFramed(WrittenAndSynced(w, q, Pending, NOTHING_ELSE), Promoted(w));
    }
  }

  lemma AgreementAfterMark(w: World, id: Stamp, s: Status, ch: Changes)
    requires Agreement(w)
    ensures Agreement(Marked(w, id, s, ch))
  {
    AgreementAfterWrite(w, id, s, ch);
    AgreementAfterPromotion(WrittenAndSynced(w, id, s, ch));
  }

  /** A new row, before the sync. */
  lemma NewRowElsewhere(w: World, b: Build, u: TargetId)
    requires Agreement(w) && u != b.target
    ensures var builds := w.builds[w.clock := b];
      BuildsOf(builds, u) == BuildsOf(w.builds, u) && LiveOf(builds, u) == LiveOf(w.builds, u)
  {
    assert w.clock !in w.builds;
    hide Agreement;
  }

  lemma NewRowIsBehindClock(w: World, b: Build)
    requires Agreement(w) && b.target in w.targets
    ensures var builds := w.builds[w.clock := b];
      forall x :: x in builds ==> x < w.clock + 1 && builds[x].target in w.targets
  {
  }

  lemma AgreementAfterInsert(w: World, t: TargetId)
    requires Agreement(w) && t in w.targets
    ensures Agreement(Inserted(w, t))
  {
    var b := FreshBuild(w, t);
    var raw := w.(clock := w.clock + 1, builds := w.builds[w.clock := b]);
    assert b.target == t;
    hide FreshBuild, Agreement, Synced, BuildsOf, LiveOf;
    NewRowIsBehindClock(w, b);
    forall u | u in w.targets && u != t
      ensures BuildsOf(raw.builds, u) == BuildsOf(w.builds, u) && LiveOf(raw.builds, u) == LiveOf(w.builds, u)
    {
      NewRowElsewhere(w, b, u);
    }
    AgreementAfterSync(w, raw, t);
  }

  lemma AgreementAfterCreate(w: World, t: TargetId)
    requires Agreement(w) && t in w.targets
    ensures Agreement(Created(w, t))
  {
    hide FreeSlots, Inserted, Agreement;
    AgreementAfterInsert(w, t);
    AgreementFramed(Inserted(w, t), Created(w, t));
  }

  lemma AgreementAfterDestroy(w: World, id: Stamp)
    requires Agreement(w)
    ensures Agreement(Destroyed(w, id))
  {
    if id in w.builds {
      var t := w.builds[id].target;
      var raw := w.(builds := w.builds - {id},
                    history := HistoryAfterDestroy(w.history, w.builds[id].status));
      forall u | u in w.targets && u != t
        ensures BuildsOf(raw.builds, u) == BuildsOf(w.builds, u) && LiveOf(raw.builds, u) == LiveOf(w.builds, u)
      {
        RemoveFacts(w.builds, id);
      }
      AgreementAfterSync(w, raw, t);
    }
  }

  /** Steps that touch neither builds nor pointers. */
  lemma AgreementFramed(w: World, w': World)
    requires Agreement(w)
    requires w'.builds == w.builds && w.clock <= w'.clock && w'.targets.Keys == w.targets.Keys
    requires forall t :: t in w.targets ==>
      w'.targets[t].latest == w.targets[t].latest && w'.targets[t].current == w.targets[t].current
    ensures Agreement(w')
  {
    forall t | t in w'.targets ensures PointersOf(w', t) {
      assert PointersOf(w, t);
    }
  }

  lemma AgreementAfterTarget(w: World, p: ProjectId)
    requires Agreement(w)
    ensures Agreement(TargetAdded(w, p))
  {
    if p in w.projects {
      var w' := TargetAdded(w, p);
      forall t | t in w'.targets ensures PointersOf(w', t) {
        if t in w.targets {
          assert PointersOf(w, t);
        } else {
          assert BuildsOf(w.builds, t) == {} && LiveOf(w.builds, t) == {};
        }
      }
    }
  }

  // ---- Visibility ----

  /** Projects and outputs know each other, and a private project has nothing published. */
  ghost predicate Privacy(w: World) {
    && (forall t :: t in w.targets ==> w.targets[t].project in w.projects)
    && (forall t :: t in w.targets && w.targets[t].published ==>
          !w.projects[w.targets[t].project].visibility.Private?)
    && (forall p, i :: p in w.projects && 0 <= i < |w.projects[p].outputs| ==>
          w.projects[p].outputs[i] in w.targets && w.targets[w.projects[p].outputs[i]].project == p)
    && (forall p, i, j :: p in w.projects && 0 <= i < j < |w.projects[p].outputs| ==>
          w.projects[p].outputs[i] != w.projects[p].outputs[j])
  }

  /** Steps that touch builds and pointers only. */
  lemma PrivacyFramed(w: World, w': World)
    requires Privacy(w)
    requires w'.targets.Keys == w.targets.Keys && w'.projects == w.projects
    requires forall t :: t in w.targets ==>
      w'.targets[t].project == w.targets[t].project && w'.targets[t].published == w.targets[t].published
    ensures Privacy(w')
  {
  }

  lemma PrivacyAfterMark(w: World, id: Stamp, s: Status, ch: Changes)
    requires Privacy(w)
    ensures Privacy(Marked(w, id, s, ch))
  {
    hide Privacy, Promoted, WrittenAndSynced;
    PrivacyAfterWrite(w, id, s, ch);
    PrivacyAfterPromotion(WrittenAndSynced(w, id, s, ch));
  }

  lemma PrivacyAfterWrite(w: World, id: Stamp, s: Status, ch: Changes)
    requires Privacy(w)
    ensures Privacy(WrittenAndSynced(w, id, s, ch))
  {
    WriteFacts(w, id, s, ch);
    hide Privacy, WrittenAndSynced;
    PrivacyFramed(w, WrittenAndSynced(w, id, s, ch));
  }

  lemma PrivacyAfterPromotion(w: World)
    requires Privacy(w)
    ensures Privacy(Promoted(w))
  {
    hide Privacy, Promoted, FreeSlots, WrittenAndSynced;
    PromotionFacts(w);
    if Promoted(w) != w {
      var q :| IsOldest(q, QueuedIn(w.builds)) && SlotAvailable(w)
               && Promoted(w) == Started(WrittenAndSynced(w, q, Pending, NOTHING_ELSE), q);
      var w1 := WrittenAndSynced(w, q, Pending, NOTHING_ELSE);
      PrivacyAfterWrite(w, q, Pending, NOTHING_ELSE);
      PrivacyFramed(w1, Promoted(w));
    }
  }

  lemma PrivacyAfterDestroy(w: World, id: Stamp)
    requires Privacy(w)
    ensures Privacy(Destroyed(w, id))
  {
    hide Privacy, Newest;
    PrivacyFramed(w, Destroyed(w, id));
  }

  lemma PrivacyAfterCreate(w: World, t: TargetId)
    requires Privacy(w)
    ensures Privacy(Created(w, t))
    ensures Created(w, t).targets.Keys == w.targets.Keys && Created(w, t).projects == w.projects
  {
    hide Privacy, Inserted, FreeSlots;
    InsertFacts(w, t);
    PrivacyFramed(w, Created(w, t));
  }

  lemma PrivacyAfterPublish(w: World, t: TargetId, published: bool)
    requires Privacy(w)
    ensures Privacy(Published(w, t, published))
  {
  }

  lemma PublishingFacts(w: World, t: TargetId, published: bool)
    ensures var w' := Published(w, t, published);
      && w'.builds == w.builds && w'.cap == w.cap && w'.clock == w.clock
      && w'.jobs == w.jobs && w'.history == w.history && w'.targets.Keys == w.targets.Keys
      && (forall u :: u in w.targets ==>
            w'.targets[u].latest == w.targets[u].latest && w'.targets[u].current == w.targets[u].current)
  {
  }

  lemma PrivacyAfterVisibility(w: World, p: ProjectId, v: Visibility)
    requires Privacy(w)
    ensures Privacy(VisibilitySet(w, p, v))
  {
    var w' := VisibilitySet(w, p, v);
    assert w'.targets.Keys == w.targets.Keys;
    assert w'.projects.Keys == w.projects.Keys;
  }

  lemma PrivacyAfterTarget(w: World, p: ProjectId)
    requires Privacy(w) && forall t :: t in w.targets ==> t < w.clock
    ensures Privacy(TargetAdded(w, p))
  {
    if p in w.projects {
      var w' := TargetAdded(w, p);
      forall q, i | q in w'.projects && 0 <= i < |w'.projects[q].outputs|
        ensures w'.projects[q].outputs[i] in w'.targets
        ensures w'.targets[w'.projects[q].outputs[i]].project == q
      {
        if i < |w.projects[q].outputs| {
          assert w.projects[q].outputs[i] in w.targets;
        }
      }
      forall q, i, j | q in w'.projects && 0 <= i < j < |w'.projects[q].outputs|
        ensures w'.projects[q].outputs[i] != w'.projects[q].outputs[j]
      {
        assert w.projects[q].outputs[i] in w.targets;
      }
    }
  }

  // ---- What a dashboard row says ----

  /** The source of `t`'s project was edited after build `b`. */
  predicate EditedSince(w: World, t: TargetId, b: Stamp)
    requires t in w.targets
  {
    w.targets[t].project in w.projects && b < w.projects[w.targets[t].project].sourceUpdatedAt
  }

  /**
   A row's state is about the newest build alone: it reads never exactly when there is none,
   whatever became of the earlier ones, and otherwise what that build is. If that build is live it
   is what readers see, and the row reads stale exactly if the source was edited after it, else
   warned exactly if it was flagged, and else current.
   */
  lemma RowReadsTheNewestBuild(w: World, t: TargetId)
    requires Agreement(w) && t in w.targets
    ensures var state, newest, row := RowStateOf(w, t), Newest(BuildsOf(w.builds, t)), w.targets[t];
      && (state.NeverBuilt? <==> newest.None?)
      && (newest.Some? ==>
            var b := w.builds[newest.value];
            && (state.RowQueued? <==> b.status == Queued)
            && (state.Building? <==> b.status in {Pending, InProgress, SentToServer, ReceivedFromServer})
            && (state.RowFailed? <==> b.status == Failed)
            && (state.RowCanceled? <==> b.status == Canceled)
            && (state.NeedsReview? <==> b.status == Success && b.completedWithErrors && !b.errorsAccepted)
            && ((state.Stale? || state.Warned? || state.Current?) <==>
                b.status == Success && (!b.completedWithErrors || b.errorsAccepted))
            && (state.Stale? || state.Warned? || state.Current? ==> row.current == newest)
            && (state.Stale? ==> EditedSince(w, t, newest.value))
            && (state.Warned? ==> !EditedSince(w, t, newest.value) && b.completedWithErrors)
            && (state.Current? ==> !EditedSince(w, t, newest.value) && !b.completedWithErrors))
  {
    assert PointersOf(w, t);
    hide Agreement;
    var newest := Newest(BuildsOf(w.builds, t));
    if newest.Some? && w.builds[newest.value].Live() {
      assert LiveOf(w.builds, t) <= BuildsOf(w.builds, t);
      NewestIs(LiveOf(w.builds, t), newest.value);
    }
  }

  // ---- What the public sees ----

  /** The rule that lets anyone read a build. */
  predicate PubliclyReadable(w: World, b: Stamp) {
    && b in w.builds
    && w.builds[b].target in w.targets
    && w.targets[w.builds[b].target].published
    && w.targets[w.builds[b].target].current == Some(b)
  }

  /** A readable build is live output, the newest its target has, in a project that is not private. */
  lemma ReadableBuildsAreLive(w: World, b: Stamp)
    requires Agreement(w) && Privacy(w) && PubliclyReadable(w, b)
    ensures w.builds[b].Live()
    ensures forall c :: c in w.builds && c > b && w.builds[c].target == w.builds[b].target ==> !w.builds[c].Live()
    ensures !w.projects[w.targets[w.builds[b].target].project].visibility.Private?
  {
    var t := w.builds[b].target;
    assert PointersOf(w, t);
    assert b in LiveOf(w.builds, t);
    forall c | c in w.builds && c > b && w.builds[c].target == t ensures !w.builds[c].Live() {
      assert c !in LiveOf(w.builds, t);
    }
  }

  /** Promotion never changes which builds are live. */
  lemma PromotionKeepsLive(w: World, t: TargetId)
    ensures LiveOf(Promoted(w).builds, t) == LiveOf(w.builds, t)
  {
    PromotionFacts(w);
    if Promoted(w) != w {
      var q :| IsOldest(q, QueuedIn(w.builds)) && SlotAvailable(w)
               && Promoted(w) == Started(WrittenAndSynced(w, q, Pending, NOTHING_ELSE), q);
      WriteFacts(w, q, Pending, NOTHING_ELSE);
      PutFactsOf(w.builds, q, Patched(w.builds[q], Pending, NOTHING_ELSE), t);
    }
  }

  /** Sets that differ only in an element that is the newest of neither have the same newest. */
  lemma NewestIgnoring(a: set<Stamp>, b: set<Stamp>, id: Stamp)
    requires a - {id} == b - {id}
    requires Newest(a) != Some(id) && Newest(b) != Some(id)
    ensures Newest(a) == Newest(b)
  {
    NewestOfShrunk(a, {id});
    NewestOfShrunk(b, {id});
  }

  lemma MarkKeepsOtherLive(w: World, id: Stamp, s: Status, ch: Changes, t: TargetId)
    ensures LiveOf(Marked(w, id, s, ch).builds, t) - {id} == LiveOf(w.builds, t) - {id}
    ensures Marked(w, id, s, ch).targets.Keys == w.targets.Keys
  {
    var w1 := WrittenAndSynced(w, id, s, ch);
    WriteFacts(w, id, s, ch);
    PromotionKeepsLive(w1, t);
    PromotionKeepsTargets(w1);
    if id in w.builds {
      PutFactsOf(w.builds, id, Patched(w.builds[id], s, ch), t);
    }
  }

  lemma PromotionKeepsTargets(w: World)
    ensures Promoted(w).targets.Keys == w.targets.Keys
  {
    hide Promoted, FreeSlots, SlotAvailable, Min, QueuedIn, InFlightIn;
    PromotionEffects(w);
  }

  /**
   Marking any build but the one being served -- a rebuild failing, above all -- either leaves
   what readers see alone or moves it to that very build, which is then newer and live.
   */
  lemma LiveOutputOnlyMovesForward(w: World, id: Stamp, s: Status, ch: Changes, t: TargetId)
    requires Agreement(w) && t in w.targets && w.targets[t].current != Some(id)
    ensures t in Marked(w, id, s, ch).targets
    ensures var before, w' := w.targets[t].current, Marked(w, id, s, ch);
      w'.targets[t].current == before
      || (w'.targets[t].current == Some(id) && id in w'.builds && w'.builds[id].Live()
          && (before.Some? ==> before.value < id))
  {
    var w' := Marked(w, id, s, ch);
    AgreementAfterMark(w, id, s, ch);
    MarkKeepsOtherLive(w, id, s, ch, t);
    assert PointersOf(w, t) && PointersOf(w', t);
    hide Agreement, Marked;
    var live, live' := LiveOf(w.builds, t), LiveOf(w'.builds, t);
    if w'.targets[t].current != Some(id) {
      NewestIgnoring(live, live', id);
    } else {
      assert id in live';
      if w.targets[t].current.Some? {
        assert w.targets[t].current.value in live' - {id};
      }
    }
  }

  /** Restoring lands exactly on the live build behind the current one, and only when there is one. */
  lemma RevertLandsOnPreviousLive(w: World, t: TargetId)
    requires Agreement(w) && t in w.targets
    ensures var previous := PreviousLive(w.builds, t);
      if previous.None? then Reverted(w, t) == w
      else
        && w.targets[t].current.Some?
        && previous.value < w.targets[t].current.value
        && Reverted(w, t).builds == w.builds - {w.targets[t].current.value}
        && t in Reverted(w, t).targets
        && Reverted(w, t).targets[t].current == previous
  {
    assert PointersOf(w, t);
    if PreviousLive(w.builds, t).Some? {
      var top := w.targets[t].current.value;
      assert PointersOf(Destroyed(w, top), t) by { AgreementAfterDestroy(w, top); }
      hide Agreement;
      RemoveFacts(w.builds, top);
    }
  }
}
