/** How the queries over builds react to one row being written or removed. */
module BuildFacts {
  import opened Options
  import opened Builds

  function Toggled(s: set<Stamp>, id: Stamp, present: bool): set<Stamp> {
    if present then s + {id} else s - {id}
  }

  lemma ToggledSize(s: set<Stamp>, id: Stamp, present: bool)
    ensures |Toggled(s, id, present)| ==
      |s| + (if present && id !in s then 1 else 0) - (if !present && id in s then 1 else 0)
  {
    if id in s {
      assert s + {id} == s;
    } else {
      assert s - {id} == s;
    }
  }

  lemma PutFacts(builds: map<Stamp, Build>, id: Stamp, b: Build)
    ensures InFlightIn(builds[id := b]) == Toggled(InFlightIn(builds), id, InFlight(b.status))
    ensures QueuedIn(builds[id := b]) == Toggled(QueuedIn(builds), id, b.status.Queued?)
  {
  }

  lemma PutFactsOf(builds: map<Stamp, Build>, id: Stamp, b: Build, t: TargetId)
    ensures BuildsOf(builds[id := b], t) == Toggled(BuildsOf(builds, t), id, b.target == t)
    ensures LiveOf(builds[id := b], t) == Toggled(LiveOf(builds, t), id, b.target == t && b.Live())
  {
  }

  lemma RemoveFacts(builds: map<Stamp, Build>, id: Stamp)
    ensures InFlightIn(builds - {id}) == InFlightIn(builds) - {id}
    ensures QueuedIn(builds - {id}) == QueuedIn(builds) - {id}
    ensures forall t :: BuildsOf(builds - {id}, t) == BuildsOf(builds, t) - {id}
    ensures forall t :: LiveOf(builds - {id}, t) == LiveOf(builds, t) - {id}
  {
  }

  lemma NewestIs(s: set<Stamp>, x: Stamp)
    requires IsNewest(x, s)
    ensures Newest(s) == Some(x)
  {
  }

  /** Adding the newest stamp so far moves `Newest` to it. */
  lemma NewestOfGrown(s: set<Stamp>, x: Stamp)
    requires forall y :: y in s ==> y < x
    ensures Newest(s + {x}) == Some(x)
  {
    NewestIs(s + {x}, x);
  }

  /** Removing anything but the newest leaves it in place. */
  lemma NewestOfShrunk(s: set<Stamp>, gone: set<Stamp>)
    requires Newest(s).Some? ==> Newest(s).value !in gone
    ensures Newest(s - gone) == Newest(s)
  {
    var top := Newest(s);
    if top.Some? {
      NewestIs(s - gone, top.value);
    }
  }

  /** What one status write does to the world, whichever build it is about. */
  lemma WriteFacts(w: World, id: Stamp, s: Status, ch: Changes)
    ensures var w' := WrittenAndSynced(w, id, s, ch);
      && w'.cap == w.cap && w'.clock == w.clock && w'.projects == w.projects && w'.jobs == w.jobs
      && w'.builds == (if id in w.builds then w.builds[id := Patched(w.builds[id], s, ch)] else w.builds)
      && w'.targets.Keys == w.targets.Keys
      && w'.history == (if id in w.builds then Recorded(w.history, id, w.builds[id].status, s) else w.history)
      && (forall t :: t in w.targets ==>
            w'.targets[t].project == w.targets[t].project && w'.targets[t].published == w.targets[t].published)
  {
    hide Newest, BuildsOf, LiveOf, Patched, Recorded;
  }

  /** What a new row does to the world. */
  lemma InsertFacts(w: World, t: TargetId)
    ensures var w' := Inserted(w, t);
      && w'.cap == w.cap && w'.clock == w.clock + 1 && w'.projects == w.projects && w'.jobs == w.jobs
      && w'.builds == w.builds[w.clock := FreshBuild(w, t)]
      && w'.targets.Keys == w.targets.Keys && w'.history == w.history
      && (forall u :: u in w.targets ==>
            w'.targets[u].project == w.targets[u].project && w'.targets[u].published == w.targets[u].published)
  {
  }

  // ---- Steps that change no build ----

  /** The builds, and what was counted about them, are the same. */
  predicate SameBuilds(w: World, w': World) {
    w'.builds == w.builds && w'.history == w.history && w'.cap == w.cap && w.clock <= w'.clock
  }

  lemma PublishingKeepsBuilds(w: World, t: TargetId, published: bool)
    ensures SameBuilds(w, Published(w, t, published)) && Published(w, t, published).jobs == w.jobs
  {
  }

  lemma VisibilityKeepsBuilds(w: World, p: ProjectId, v: Visibility)
    ensures SameBuilds(w, VisibilitySet(w, p, v)) && VisibilitySet(w, p, v).jobs == w.jobs
  {
  }

  lemma EditingKeepsBuilds(w: World, p: ProjectId)
    ensures SameBuilds(w, SourceEdited(w, p)) && SourceEdited(w, p).jobs == w.jobs
    ensures SameBuilds(w, TargetAdded(w, p)) && TargetAdded(w, p).jobs == w.jobs
  {
  }

  lemma RequestKeepsBuilds(w: World, id: Stamp)
    ensures SameBuilds(w, CheckRequested(w, id))
    ensures var jobs := CheckRequested(w, id).jobs; jobs == w.jobs || jobs == w.jobs + multiset{Checking(id)}
  {
  }

  lemma BeginningKeepsBuilds(w: World, id: Stamp)
    ensures SameBuilds(w, ImportBegun(w, id))
    ensures forall j: Job :: !j.ImportJob? && !j.Importing? ==> ImportBegun(w, id).jobs[j] == w.jobs[j]
  {
  }

  /** The step is about no build, or asks something about one. */
  predicate Quiet(a: Action) {
    a.Publish? || a.SetVisibility? || a.EditSource? || a.AddTarget? || a.RequestCheck? || a.BeginImport?
  }

  lemma QuietStepsKeepBuilds(w: World, a: Action)
    requires Quiet(a)
    ensures SameBuilds(w, Step(w, a)) && (!a.RequestCheck? && !a.BeginImport? ==> Step(w, a).jobs == w.jobs)
  {
    hide BuiltAll, Created, CancelRequested, CancelAnswered, ErrorsAccepted, Destroyed, Reverted, Published,
      VisibilitySet, SourceEdited, TargetAdded, Submitted, SubmitAnswered, CalledBack, CheckRequested, CheckAnswered,
      Rechecked, ImportBegun, ImportEnded, LogFetched, SameBuilds;
    match a {
      case Publish(t, published) => PublishingKeepsBuilds(w, t, published);
      case SetVisibility(p, v) => VisibilityKeepsBuilds(w, p, v);
      case EditSource(p) => EditingKeepsBuilds(w, p);
      case AddTarget(p) => EditingKeepsBuilds(w, p);
      case RequestCheck(id) => RequestKeepsBuilds(w, id);
      case BeginImport(id) => BeginningKeepsBuilds(w, id);
    }
  }

  // ---- Promotion ----

  /** Promotion starts one queued build, or nothing happens. */
  lemma PromotionFacts(w: World)
    ensures var w' := Promoted(w);
      w' == w || (exists q :: IsOldest(q, QueuedIn(w.builds)) && SlotAvailable(w)
                       && w' == Started(WrittenAndSynced(w, q, Pending, NOTHING_ELSE), q))
  {
    if SlotAvailable(w) && QueuedIn(w.builds) != {} {
      var q := Oldest(QueuedIn(w.builds)).value;
      assert IsOldest(q, QueuedIn(w.builds));
    }
  }

  /** `w'` is `w` with its queued build `q` started, as far as builds, jobs and counts go. */
  ghost predicate PromotedTo(w: World, w': World, q: Stamp) {
    && IsOldest(q, QueuedIn(w.builds)) && SlotAvailable(w)
    && w'.cap == w.cap && w'.clock == w.clock && w'.projects == w.projects && w'.targets.Keys == w.targets.Keys
    && w'.builds == w.builds[q := w.builds[q].(status := Pending)]
    && w'.jobs == w.jobs + multiset{SubmitJob(q), RecheckJob(q, 1)}
    && w'.history == w.history.(started := w.history.started + [q], idle := Min(w.history.idle, FreeSlots(w')))
    && QueuedIn(w'.builds) == QueuedIn(w.builds) - {q}
    && InFlightIn(w'.builds) == InFlightIn(w.builds) + {q} && q !in InFlightIn(w.builds)
  }

  lemma StartingQueued(w: World, q: Stamp)
    requires IsOldest(q, QueuedIn(w.builds)) && SlotAvailable(w)
    ensures PromotedTo(w, Started(WrittenAndSynced(w, q, Pending, NOTHING_ELSE), q), q)
  {
    var w1 := WrittenAndSynced(w, q, Pending, NOTHING_ELSE);
    WriteFacts(w, q, Pending, NOTHING_ELSE);
    PutFacts(w.builds, q, Patched(w.builds[q], Pending, NOTHING_ELSE));
    hide WrittenAndSynced;
    assert FreeSlots(Started(w1, q)) == FreeSlots(w1);
  }

  /** A promotion happens exactly where a build waits beside a free slot, and is of the oldest. */
  lemma PromotionEffects(w: World)
    ensures if SlotAvailable(w) && QueuedIn(w.builds) != {} then exists q :: PromotedTo(w, Promoted(w), q)
            else Promoted(w) == w
  {
    hide PromotedTo, Started, WrittenAndSynced, FreeSlots;
    if SlotAvailable(w) && QueuedIn(w.builds) != {} {
      var q := Oldest(QueuedIn(w.builds)).value;
      StartingQueued(w, q);
      assert PromotedTo(w, Promoted(w), q);
    }
  }

  /** `w'` has imported nothing since `w`, and started nothing or one build queued then, with its two jobs. */
  ghost predicate StartsAtMostOne(w: World, w': World) {
    && w'.history.imports == w.history.imports
    && ((w'.jobs == w.jobs && w'.history.started == w.history.started)
        || exists q :: q in w.builds && w.builds[q].status.Queued?
             && w'.jobs == w.jobs + multiset{SubmitJob(q), RecheckJob(q, 1)}
             && w'.history.started == w.history.started + [q])
  }

  lemma PromotionStartsAtMostOne(w: World)
    ensures StartsAtMostOne(w, Promoted(w))
  {
    hide Promoted, FreeSlots, SlotAvailable, Min;
    PromotionEffects(w);
    if Promoted(w) != w {
      var q :| PromotedTo(w, Promoted(w), q);
      assert w.builds[q].status.Queued?;
    }
  }

  /** A mark starts at most one build, and that one existed and was queued. */
  lemma MarkStartsAtMostOne(w: World, id: Stamp, s: Status, ch: Changes)
    requires s.Queued? && id in w.builds ==> w.builds[id].status.Queued?
    ensures StartsAtMostOne(w, Marked(w, id, s, ch))
  {
    hide Promoted, WrittenAndSynced;
    var w1 := WrittenAndSynced(w, id, s, ch);
    WriteFacts(w, id, s, ch);
    PromotionStartsAtMostOne(w1);
    assert forall q :: q in w1.builds && w1.builds[q].status.Queued? ==> q in w.builds && w.builds[q].status.Queued?;
  }
}
