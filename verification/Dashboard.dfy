/**
 The records themselves, changed in place by the methods of the application: each is written as
 its source writes it -- marks, syncs, promotions and jobs, one after the other -- and proved to
 do what the function of `Builds` named in its contract says. What holds over runs of those
 functions therefore holds of the records.
 */
module Dashboard {
  import opened Options
  import opened Builds
  import opened Texts
  import opened BuildRuns
  import AnsiLog

  class Records {
    const cap: nat
    var clock: Stamp
    var builds: map<Stamp, Build>
    var targets: map<TargetId, Target>
    var projects: map<ProjectId, Project>
    var jobs: multiset<Job>
    /** Kept for the theorems alone; nothing reads it. */
    var history: History

    constructor (cap: nat, projects: map<ProjectId, Project>)
      requires forall p :: p in projects ==> projects[p].outputs == []
      ensures Fresh(Model()) && this.cap == cap && this.projects == projects
    {
      this.cap, this.clock, this.builds, this.targets, this.projects := cap, 0, map[], map[], projects;
      this.jobs, this.history := multiset{}, NO_HISTORY;
    }

    function Model(): World
      reads this
    {
      World(cap, clock, builds, targets, projects, jobs, history)
    }

    // ---- Build and Target ----

    method SyncFromBuilds(t: TargetId)
      modifies this`targets
      ensures Model() == Synced(old(Model()), t)
    {
      if t in targets {
        var latest := Newest(BuildsOf(builds, t));
        var current := Newest(LiveOf(builds, t));
        targets := targets[t := targets[t].(latest := latest, current := current)];
      }
    }

    method UpdateColumns(id: Stamp, s: Status, ch: Changes)
      requires id in builds
      modifies this`builds, this`history
      ensures Model() == Written(old(Model()), id, s, ch)
    {
      hide AnsiLog.Scrub;
      var b := builds[id];
      history := Recorded(history, id, b.status, s);
      var log := if ch.log.Some? then AnsiLog.Scrub(ch.log.value) else b.log;
      builds := builds[id := b.(
        status := s,
        log := log,
        completedWithErrors := b.completedWithErrors || ch.completedWithErrors,
        errorsAccepted := b.errorsAccepted || ch.errorsAccepted,
        hasStatusUrl := b.hasStatusUrl || ch.statusUrl)];
    }

    method Start(id: Stamp)
      modifies this`jobs, this`history
      ensures Model() == Started(old(Model()), id)
    {
      jobs := jobs + multiset{SubmitJob(id)};
      jobs := jobs + multiset{RecheckJob(id, 1)};
      history := history.(started := history.started + [id], idle := Min(history.idle, FreeSlots(Model())));
    }

    /** `mark!`. It and the promotion call each other, but a promoted build is in flight. */
    method Mark(id: Stamp, s: Status, ch: Changes)
      modifies this
      ensures Model() == Marked(old(Model()), id, s, ch)
      decreases if InFlight(s) then 0 else 2
    {
      if id in builds {
        var t := builds[id].target;
        UpdateColumns(id, s, ch);
        SyncFromBuilds(t);
      }
      if !InFlight(s) {
        PromoteNextQueuedBuild();
      }
    }

    method PromoteNextQueuedBuild()
      modifies this
      ensures Model() == Promoted(old(Model()))
      decreases 1
    {
      if |InFlightIn(builds)| >= cap { return; }
      var next := Oldest(QueuedIn(builds));
      if next.None? { return; }
      Mark(next.value, Pending, NOTHING_ELSE);
      Start(next.value);
    }

    method Destroy(id: Stamp)
      modifies this`builds, this`targets, this`history
      ensures Model() == Destroyed(old(Model()), id)
    {
      if id in builds {
        var b := builds[id];
        history := HistoryAfterDestroy(history, b.status);
        builds := builds - {id};
        SyncFromBuilds(b.target);
      }
    }

    /** `prune_builds!`; an exception may end it after `limit` destroys. */
    method PruneBuilds(t: TargetId, limit: Option<nat>)
      modifies this`builds, this`targets, this`history
      ensures Model() == if limit.Some? then PrunedUpTo(old(Model()), t, limit.value) else Pruned(old(Model()), t)
    {
      hide Surplus, Destroyed;
      ghost var w := Model();
      var surplus := Surplus(Model(), t);
      if limit.Some? { surplus := surplus[..Min(limit.value, |surplus|)]; }
      for i := 0 to |surplus|
        invariant Model() == DestroyedEach(w, surplus[..i])
      {
        assert surplus[..i + 1][..i] == surplus[..i];
        Destroy(surplus[i]);
      }
      assert surplus[..|surplus|] == surplus;
    }

    // ---- The author ----

    method QueueOrStartBuild(t: TargetId) returns (id: Stamp)
      modifies this
      ensures id == old(clock) && Model() == Created(old(Model()), t)
    {
      id := clock;
      var status := if |InFlightIn(builds)| < cap then Pending else Queued;
      builds := builds[id := Build(t, status, false, false, false, "")];
      clock := clock + 1;
      SyncFromBuilds(t);
      if status.Pending? {
        Start(id);
      }
    }

    method BuildAll(p: ProjectId)
      modifies this
      ensures Model() == BuiltAll(old(Model()), p)
    {
      if p !in projects { return; }
      hide Created, BulkCandidates;
      ghost var w := Model();
      var candidates := BulkCandidates(Model(), p);
      for i := 0 to |candidates|
        invariant Model() == CreatedEach(w, candidates[..i])
      {
        assert candidates[..i + 1][..i] == candidates[..i];
        var _ := QueueOrStartBuild(candidates[i]);
      }
      assert candidates[..|candidates|] == candidates;
    }

    /** `cancel!` as far as its request to the build server. */
    method RequestCancel(id: Stamp)
      modifies this
      ensures Model() == CancelRequested(old(Model()), id)
    {
      if id !in builds || !Unresolved(builds[id].status) { return; }
      if !builds[id].hasStatusUrl {
        Mark(id, Canceled, LogOnly(CANCEL_LOG));
      } else {
        jobs := jobs + multiset{Canceling(id)};
      }
    }

    /** ... and once it has answered. */
    method FinishCancel(id: Stamp, stopped: bool)
      modifies this
      ensures Model() == CancelAnswered(old(Model()), id, stopped)
    {
      if Canceling(id) !in jobs { return; }
      jobs := jobs - multiset{Canceling(id)};
      if stopped {
        Mark(id, Canceled, LogOnly(CANCEL_LOG));
      }
    }

    method Accept(id: Stamp)
      modifies this
      ensures Model() == ErrorsAccepted(old(Model()), id)
    {
      if id in builds && builds[id].AwaitingReview() {
        Mark(id, Success, Changes(None, false, true, false));
      }
    }

    method Revert(t: TargetId)
      modifies this
      ensures Model() == Reverted(old(Model()), t)
    {
      if t !in targets { return; }
      var previous := PreviousLive(builds, t);
      if previous.None? { return; }
      if targets[t].current.Some? {
        Destroy(targets[t].current.value);
      }
    }

    method Publish(t: TargetId, published: bool)
      modifies this`targets, this`projects
      ensures Model() == Published(old(Model()), t, published)
    {
      if t !in targets || (published && targets[t].current.None?) { return; }
      var was, p := targets[t].published, targets[t].project;
      targets := targets[t := targets[t].(published := published)];
      if published != was && published && p in projects && projects[p].visibility.Private? {
        projects := projects[p := projects[p].(visibility := Unlisted)];
      }
    }

    method SetVisibility(p: ProjectId, v: Visibility)
      modifies this`targets, this`projects
      ensures Model() == VisibilitySet(old(Model()), p, v)
    {
      if p !in projects || projects[p].visibility == v { return; }
      projects := projects[p := projects[p].(visibility := v)];
      if v.Private? {
        targets := map t | t in targets ::
          if targets[t].project == p then targets[t].(published := false) else targets[t];
      }
    }

    method EditSource(p: ProjectId)
      modifies this`clock, this`projects
      ensures Model() == SourceEdited(old(Model()), p)
    {
      if p in projects {
        projects := projects[p := projects[p].(sourceUpdatedAt := clock)];
        clock := clock + 1;
      }
    }

    method AddTarget(p: ProjectId)
      modifies this`clock, this`targets, this`projects
      ensures Model() == TargetAdded(old(Model()), p)
    {
      if p in projects {
        targets := targets[clock := Target(p, false, None, None)];
        projects := projects[p := projects[p].(outputs := projects[p].outputs + [clock])];
        clock := clock + 1;
      }
    }

    // ---- The build server ----

    method Submit(id: Stamp)
      modifies this
      ensures Model() == Submitted(old(Model()), id)
    {
      if SubmitJob(id) !in jobs { return; }
      jobs := jobs - multiset{SubmitJob(id)};
      if id in builds {
        jobs := jobs + multiset{Submitting(id)};
        Mark(id, InProgress, NOTHING_ELSE);
      }
    }

    method FinishSubmit(id: Stamp, answer: SubmitAnswer)
      modifies this
      ensures Model() == SubmitAnswered(old(Model()), id, answer)
    {
      if Submitting(id) !in jobs { return; }
      jobs := jobs - multiset{Submitting(id)};
      match answer {
        case Accepted(url) => Mark(id, SentToServer, Changes(None, false, false, url));
        case Rejected => Mark(id, Failed, NOTHING_ELSE);
      }
    }

    /** The mark and the import a finished build with output gets, from webhook and poll alike. */
    method Claim(id: Stamp, tail: string, flagged: bool)
      modifies this
      ensures Model() == Claimed(old(Model()), id, tail, flagged)
    {
      Mark(id, ReceivedFromServer, Changes(Some(InlineLog(tail)), flagged, false, false));
      jobs := jobs + multiset{ImportJob(id)};
      history := history.(imports := history.imports + multiset{id});
    }

    method TakeReport(id: Stamp, r: Report)
      modifies this
      ensures Model() == Reported(old(Model()), id, r)
    {
      match r {
        case Succeeded(tail) => Claim(id, tail, false);
        case FailedWithOutput(tail) => Claim(id, tail, true);
        case FailedWithoutOutput(tail) => Mark(id, Failed, LogOnly(InlineLog(tail)));
        case SomethingElse =>
      }
    }

    method Callback(id: Stamp, r: Report, moreLog: bool)
      modifies this
      ensures Model() == CalledBack(old(Model()), id, r, moreLog)
    {
      if id !in builds || !Waiting(builds[id].status) { return; }
      TakeReport(id, r);
      if moreLog && !r.SomethingElse? {
        jobs := jobs + multiset{LogJob(id)};
      }
    }

    /** `check!` as far as its request to the build server. */
    method RequestCheck(id: Stamp)
      modifies this`jobs
      ensures Model() == CheckRequested(old(Model()), id)
    {
      if id !in builds { return; }
      var b := builds[id];
      if b.status.Success? || b.status.Failed? || b.status.Canceled? || !b.hasStatusUrl { return; }
      jobs := jobs + multiset{Checking(id)};
    }

    /** ... and once it has answered. */
    method FinishCheck(id: Stamp, a: CheckAnswer)
      modifies this
      ensures Model() == CheckAnswered(old(Model()), id, a)
    {
      if Checking(id) !in jobs { return; }
      jobs := jobs - multiset{Checking(id)};
      if a.Unreachable? || id !in builds || builds[id].status.ReceivedFromServer? { return; }
      TakeReport(id, a.report);
    }

    method Advance(id: Stamp, stalled: bool)
      requires id in builds
      modifies this
      ensures Model() == Advanced(old(Model()), id, stalled)
    {
      if builds[id].status.SentToServer? {
        RequestCheck(id);
      } else if builds[id].status.ReceivedFromServer? && stalled {
        Mark(id, Failed, LogOnly(Appended(builds[id].log, STALLED_LOG)));
      }
    }

    method Recheck(id: Stamp, attempt: nat, stalled: bool)
      modifies this
      ensures Model() == Rechecked(old(Model()), id, attempt, stalled)
    {
      if RecheckJob(id, attempt) !in jobs { return; }
      jobs := jobs - multiset{RecheckJob(id, attempt)};
      if id !in builds { return; }
      Advance(id, stalled);
      if id in builds && InFlight(builds[id].status) && attempt < MAX_ATTEMPTS {
        jobs := jobs + multiset{RecheckJob(id, attempt + 1)};
      }
    }

    /** `FullBuildArtifactJob#perform` as far as the download. */
    method BeginImport(id: Stamp)
      modifies this`jobs
      ensures Model() == ImportBegun(old(Model()), id)
    {
      if ImportJob(id) !in jobs { return; }
      jobs := jobs - multiset{ImportJob(id)};
      if id !in builds || builds[id].status.Success? || builds[id].status.Canceled? { return; }
      jobs := jobs + multiset{Importing(id, builds[id])};
    }

    /** ... and from there on; an exception after the success mark takes it back. */
    method FinishImport(id: Stamp, seen: Build, o: ImportOutcome)
      modifies this
      ensures Model() == ImportEnded(old(Model()), id, seen, o)
    {
      hide Marked, Pruned, PrunedUpTo, Appended;
      if Importing(id, seen) !in jobs { return; }
      jobs := jobs - multiset{Importing(id, seen)};
      if o.DownloadFailed? || o.Crashed? {
        Mark(id, Failed, NOTHING_ELSE);
      } else if o.TimedOut? {
        Mark(id, Failed, LogOnly(Appended(seen.log, TIMEOUT_LOG)));
      } else {
        var t := if id in builds then builds[id].target else seen.target;
        Mark(id, Success, NOTHING_ELSE);
        PruneBuilds(t, if o.CrashedAfterSuccess? then Some(o.pruned) else None);
        if o.CrashedAfterSuccess? {
          Mark(id, Failed, NOTHING_ELSE);
        }
      }
    }

    method FetchLog(id: Stamp, body: Option<string>)
      modifies this
      ensures Model() == LogFetched(old(Model()), id, body)
    {
      if LogJob(id) !in jobs { return; }
      jobs := jobs - multiset{LogJob(id)};
      if body.None? || Blank(body.value) || id !in builds { return; }
      Mark(id, builds[id].status, LogOnly(body.value));
    }

    /** A step of the author. */
    method TakeAuthors(a: Action)
      requires FromAuthor(a)
      modifies this
      ensures Model() == Step(old(Model()), a)
    {
      hide Created, BuiltAll, CancelRequested, CancelAnswered, ErrorsAccepted, Destroyed, Reverted, Published,
        VisibilitySet, SourceEdited, TargetAdded;
      match a {
        case CreateBuild(t) =>
          if t in targets { var _ := QueueOrStartBuild(t); }
        case BuildAll(p) => BuildAll(p);
        case RequestCancel(b) => RequestCancel(b);
        case CancelReply(b, stopped) => FinishCancel(b, stopped);
        case AcceptErrors(b) => Accept(b);
        case DeleteBuild(b) => Destroy(b);
        case Revert(t) => Revert(t);
        case Publish(t, published) => Publish(t, published);
        case SetVisibility(p, v) => SetVisibility(p, v);
        case EditSource(p) => EditSource(p);
        case AddTarget(p) => AddTarget(p);
      }
    }

    /** A step of the background jobs or the build server. */
    method TakeServers(a: Action)
      requires !FromAuthor(a)
      modifies this
      ensures Model() == Step(old(Model()), a)
    {
      hide Submitted, SubmitAnswered, CalledBack, CheckRequested, CheckAnswered, Rechecked, ImportBegun, ImportEnded,
        LogFetched;
      match a {
        case Submit(b) => Submit(b);
        case SubmitReply(b, answer) => FinishSubmit(b, answer);
        case Callback(b, report, moreLog) => Callback(b, report, moreLog);
        case RequestCheck(b) => RequestCheck(b);
        case CheckReply(b, reply) => FinishCheck(b, reply);
        case Recheck(b, attempt, stalled) => Recheck(b, attempt, stalled);
        case BeginImport(b) => BeginImport(b);
        case EndImport(b, seen, outcome) => FinishImport(b, seen, outcome);
        case FetchLog(b, body) => FetchLog(b, body);
      }
    }

    /** Any step of any actor; the guarantees of every reachable world go on holding. */
    method Take(a: Action)
      modifies this
      ensures Model() == Step(old(Model()), a)
      ensures old(Invariant(Model())) ==> Invariant(Model())
    {
      hide Invariant, Step;
      ghost var w := Model();
      if FromAuthor(a) { TakeAuthors(a); } else { TakeServers(a); }
      if Invariant(w) { StepKeepsInvariant(w, a); }
    }
  }
}
