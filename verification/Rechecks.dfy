/**
 The recheck job that follows every started build. Over every run its attempts are numbered
 without a gap, one at a time, and none comes after the last: whatever the build server does, no
 build is looked at more than `MAX_ATTEMPTS` times. And it does not give up before: a build is
 left without a recheck only after the last one, or after one that did not find it on its way.
 */
module Rechecks {
  import opened Options
  import opened Builds
  import opened Texts
  import opened BuildFacts
  import opened BuildQueue
  import opened BuildRuns
  import opened Outcomes

  /** What the rechecks so far came to: how many there were of each build, and which were the last. */
  datatype Watch = Watch(looks: multiset<Stamp>, ended: set<Stamp>)

  /**
   An outstanding recheck is the next in number and the only one of its build; only started
   builds were ever looked at; and a started build without one outstanding has had its last.
   */
  predicate Numbered(w: World, past: Watch) {
    && (forall j :: j in w.jobs && j.RecheckJob? ==>
          w.jobs[j] == 1 && j.attempt == past.looks[j.build] + 1 && j.attempt <= MAX_ATTEMPTS)
    && (forall b :: b in past.looks ==> b in w.history.started && past.looks[b] <= MAX_ATTEMPTS)
    && (forall b :: b in w.history.started ==>
          || RecheckJob(b, past.looks[b] + 1) in w.jobs || past.looks[b] == MAX_ATTEMPTS || b in past.ended)
  }

  /** No recheck of `b` is outstanding. */
  predicate NoRecheck(w: World, b: Stamp) { forall j :: j in w.jobs && j.RecheckJob? ==> j.build != b }

  /** Other jobs may come and go. */
  lemma OtherJobs(w: World, w': World, past: Watch)
    requires Numbered(w, past) && w'.history.started == w.history.started
    requires forall j: Job :: j.RecheckJob? ==> w'.jobs[j] == w.jobs[j]
    ensures Numbered(w', past)
  {
    assert forall j: Job :: j.RecheckJob? ==> (j in w'.jobs <==> j in w.jobs);
  }

  lemma FirstRecheck(w: World, w': World, q: Stamp, past: Watch)
    requires Orderly(w) && Numbered(w, past) && q !in w.history.started
    requires w'.jobs == w.jobs + multiset{SubmitJob(q), RecheckJob(q, 1)}
    requires w'.history.started == w.history.started + [q]
    ensures Numbered(w', past)
  {
    assert forall j :: j in w.jobs ==> j.build != q;
    hide Orderly;
    assert past.looks[q] == 0;
    assert RecheckJob(q, 1) !in w.jobs;
    forall j | j in w'.jobs && j.RecheckJob?
      ensures w'.jobs[j] == 1 && j.attempt == past.looks[j.build] + 1 <= MAX_ATTEMPTS
    {
      if j != RecheckJob(q, 1) { assert j in w.jobs && w'.jobs[j] == w.jobs[j]; }
    }
  }

  lemma QueuedIsNotStarted(w: World, q: Stamp)
    requires Orderly(w) && q in w.builds && w.builds[q].status.Queued?
    ensures q !in w.history.started
  {
    assert q in QueuedIn(w.builds);
  }

  lemma MarkKeepsRechecks(w: World, id: Stamp, s: Status, ch: Changes, past: Watch)
    requires Orderly(w) && Numbered(w, past) && !s.Queued?
    ensures Numbered(Marked(w, id, s, ch), past)
  {
    hide Marked, Numbered, Orderly;
    var w' := Marked(w, id, s, ch);
    MarkStartsAtMostOne(w, id, s, ch);
    if w'.jobs == w.jobs && w'.history.started == w.history.started {
      OtherJobs(w, w', past);
    } else {
      var q :| q in w.builds && w.builds[q].status.Queued?
               && w'.jobs == w.jobs + multiset{SubmitJob(q), RecheckJob(q, 1)}
               && w'.history.started == w.history.started + [q];
      QueuedIsNotStarted(w, q);
      FirstRecheck(w, w', q, past);
    }
  }

  lemma WithoutJobIsOrderly(w: World, j: Job)
    requires Orderly(w)
    ensures Orderly(WithoutJob(w, j))
  {
    assert forall i :: i in WithoutJob(w, j).jobs ==> i in w.jobs;
  }

  /** Taking a job and marking its build. */
  lemma TakeThenMark(w: World, j: Job, id: Stamp, s: Status, ch: Changes, past: Watch)
    requires Orderly(w) && Numbered(w, past) && !s.Queued? && !j.RecheckJob?
    ensures Numbered(Marked(WithoutJob(w, j), id, s, ch), past)
  {
    hide Marked, Orderly, Numbered;
    WithoutJobIsOrderly(w, j);
    OtherJobs(w, WithoutJob(w, j), past);
    MarkKeepsRechecks(WithoutJob(w, j), id, s, ch, past);
  }

  lemma ClaimKeepsRechecks(w: World, id: Stamp, tail: string, flagged: bool, past: Watch)
    requires Orderly(w) && Numbered(w, past)
    ensures Numbered(Claimed(w, id, tail, flagged), past)
  {
    hide Marked, Orderly, Numbered, InlineLog;
    var ch := Changes(Some(InlineLog(tail)), flagged, false, false);
    MarkKeepsRechecks(w, id, ReceivedFromServer, ch, past);
    OtherJobs(Marked(w, id, ReceivedFromServer, ch), Claimed(w, id, tail, flagged), past);
  }

  lemma ReportKeepsRechecks(w: World, id: Stamp, r: Report, past: Watch)
    requires Orderly(w) && Numbered(w, past)
    ensures Numbered(Reported(w, id, r), past)
  {
    hide Marked, Claimed, Orderly, Numbered, InlineLog;
    match r {
      case Succeeded(tail) => ClaimKeepsRechecks(w, id, tail, false, past);
      case FailedWithOutput(tail) => ClaimKeepsRechecks(w, id, tail, true, past);
      case FailedWithoutOutput(tail) => MarkKeepsRechecks(w, id, Failed, LogOnly(InlineLog(tail)), past);
      case SomethingElse =>
    }
  }

  // ---- The job itself ----

  function WithLook(past: Watch, id: Stamp, last: bool): Watch {
    Watch(past.looks + multiset{id}, if last then past.ended + {id} else past.ended)
  }

  /** Of the rechecks, taking one leaves exactly those of other builds. */
  lemma TakingOneLeaves(w: World, id: Stamp, k: nat, past: Watch, j: Job)
    requires Numbered(w, past) && RecheckJob(id, k) in w.jobs && j.RecheckJob?
    ensures WithoutJob(w, RecheckJob(id, k)).jobs[j] == if j.build == id then 0 else w.jobs[j]
  {
    assert j in w.jobs && j.build == id ==> j == RecheckJob(id, k);
  }

  lemma NumberedAfterLook(w: World, w1: World, past: Watch, more: Watch, id: Stamp, k: nat)
    requires Numbered(w, past) && RecheckJob(id, k) in w.jobs && id in w.history.started
    requires w1.history.started == w.history.started
    requires forall j: Job :: j.RecheckJob? ==> w1.jobs[j] == if j.build == id then 0 else w.jobs[j]
    requires forall b :: more.looks[b] == if b == id then k else past.looks[b]
    requires id in more.ended && forall b :: b in past.ended ==> b in more.ended
    ensures Numbered(w1, more) && NoRecheck(w1, id)
  {
    assert past.looks[id] + 1 == k <= MAX_ATTEMPTS by { assert RecheckJob(id, k).RecheckJob?; }
    assert forall j :: j in w1.jobs && j.RecheckJob? ==> j in w.jobs && j.build != id;
    forall b | b in w1.history.started && b != id
      ensures RecheckJob(b, more.looks[b] + 1) in w1.jobs || more.looks[b] == MAX_ATTEMPTS || b in more.ended
    {
      assert w1.jobs[RecheckJob(b, past.looks[b] + 1)] == w.jobs[RecheckJob(b, past.looks[b] + 1)];
    }
  }

  /** Taking a recheck is one more look, after which none of that build is outstanding. */
  lemma OneMoreLook(w: World, id: Stamp, k: nat, past: Watch)
    requires Orderly(w) && Numbered(w, past) && RecheckJob(id, k) in w.jobs
    ensures var w1, more := WithoutJob(w, RecheckJob(id, k)), WithLook(past, id, true);
      Numbered(w1, more) && NoRecheck(w1, id) && more.looks[id] == k <= MAX_ATTEMPTS
  {
    var w1, more := WithoutJob(w, RecheckJob(id, k)), WithLook(past, id, true);
    assert id in w.history.started by { assert RecheckJob(id, k).build == id; }
    assert k == past.looks[id] + 1 <= MAX_ATTEMPTS by { assert RecheckJob(id, k).RecheckJob?; }
    assert forall b :: more.looks[b] == if b == id then k else past.looks[b];
    hide Orderly, Numbered, NoRecheck;
    forall j: Job | j.RecheckJob? ensures w1.jobs[j] == if j.build == id then 0 else w.jobs[j] {
      TakingOneLeaves(w, id, k, past, j);
    }
    NumberedAfterLook(w, w1, past, more, id, k);
  }

  lemma NumberedWithNext(w: World, w': World, more: Watch, past': Watch, id: Stamp, k: nat)
    requires Numbered(w, more) && NoRecheck(w, id) && more.looks[id] == k < MAX_ATTEMPTS
    requires w'.history.started == w.history.started && past'.looks == more.looks
    requires forall j: Job :: j.RecheckJob? ==>
      w'.jobs[j] == if j == RecheckJob(id, k + 1) then 1 else w.jobs[j]
    requires forall b :: b in more.ended ==> b in past'.ended || b == id
    ensures Numbered(w', past')
  {
    assert RecheckJob(id, k + 1) in w'.jobs;
    assert forall j :: j in w'.jobs && j.RecheckJob? ==> j == RecheckJob(id, k + 1) || j in w.jobs;
    forall b | b in w'.history.started && b != id && RecheckJob(b, more.looks[b] + 1) in w.jobs
      ensures RecheckJob(b, more.looks[b] + 1) in w'.jobs
    {
      assert w'.jobs[RecheckJob(b, more.looks[b] + 1)] == w.jobs[RecheckJob(b, more.looks[b] + 1)];
    }
  }

  /** With the next one enqueued, the look was not the last. */
  lemma NextAttempt(w: World, id: Stamp, k: nat, past: Watch)
    requires var more := WithLook(past, id, true); Numbered(w, more) && NoRecheck(w, id) && more.looks[id] == k
    requires k < MAX_ATTEMPTS
    ensures Numbered(WithJob(w, RecheckJob(id, k + 1)), WithLook(past, id, false))
  {
    var next := RecheckJob(id, k + 1);
    assert next !in w.jobs;
    hide Numbered, NoRecheck;
    NumberedWithNext(w, WithJob(w, next), WithLook(past, id, true), WithLook(past, id, false), id, k);
  }

  /** Nor was it for want of looking, if it was the eleventh. */
  lemma NoneLeft(w: World, id: Stamp, past: Watch)
    requires var more := WithLook(past, id, true); Numbered(w, more) && more.looks[id] == MAX_ATTEMPTS
    ensures Numbered(w, WithLook(past, id, false))
  {
  }

  lemma AfterCheckRequest(w: World, id: Stamp, past: Watch)
    requires Numbered(w, past) && NoRecheck(w, id)
    ensures Numbered(CheckRequested(w, id), past) && NoRecheck(CheckRequested(w, id), id)
    ensures CheckRequested(w, id).builds == w.builds
  {
    var w' := CheckRequested(w, id);
    RequestKeepsBuilds(w, id);
    assert NoRecheck(w', id);
    hide Numbered, NoRecheck, CheckRequested;
    OtherJobs(w, w', past);
  }

  /** The build is there, and in one of the statuses that hold a slot. */
  predicate OnItsWay(w: World, b: Stamp) { b in w.builds && InFlight(w.builds[b].status) }

  lemma RecheckKeepsOne(w: World, id: Stamp, k: nat, stalled: bool, past: Watch)
    requires Orderly(w) && Numbered(w, past) && RecheckJob(id, k) in w.jobs
    ensures var w' := Rechecked(w, id, k, stalled); Numbered(w', WithLook(past, id, !OnItsWay(w', id)))
  {
    hide Marked, Orderly, Numbered, NoRecheck, Appended, CheckRequested, WithLook;
    var w1 := WithoutJob(w, RecheckJob(id, k));
    var more := WithLook(past, id, true);
    WithoutJobIsOrderly(w, RecheckJob(id, k));
    OneMoreLook(w, id, k, past);
    if id in w1.builds {
      if w1.builds[id].status.ReceivedFromServer? && stalled {
        var ch := LogOnly(Appended(w1.builds[id].log, STALLED_LOG));
        MarkKeepsRechecks(w1, id, Failed, ch, more);
        MarkingItself(w1, id, Failed, ch);
      } else if w1.builds[id].status.SentToServer? {
        AfterCheckRequest(w1, id, more);
        if k < MAX_ATTEMPTS { NextAttempt(CheckRequested(w1, id), id, k, past); }
        else { NoneLeft(CheckRequested(w1, id), id, past); }
      } else if InFlight(w1.builds[id].status) {
        if k < MAX_ATTEMPTS { NextAttempt(w1, id, k, past); } else { NoneLeft(w1, id, past); }
      }
    }
  }

  // ---- The other steps ----

  lemma CreateKeepsRechecks(w: World, t: TargetId, past: Watch)
    requires Orderly(w) && Numbered(w, past)
    ensures Numbered(Created(w, t), past) && Orderly(Created(w, t))
  {
    OrderlyAfterCreate(w, t);
    InsertFacts(w, t);
    assert w.clock !in w.history.started;
    hide Orderly, Numbered, FreeSlots, Inserted;
    if SlotAvailable(w) { FirstRecheck(w, Created(w, t), w.clock, past); } else { OtherJobs(w, Created(w, t), past); }
  }

  lemma {:induction false} CreateEachKeepsRechecks(w: World, ts: seq<TargetId>, past: Watch)
    requires Orderly(w) && Numbered(w, past)
    ensures Numbered(CreatedEach(w, ts), past) && Orderly(CreatedEach(w, ts))
  {
    hide Orderly, Numbered, Created;
    if ts != [] {
      CreateEachKeepsRechecks(w, ts[..|ts| - 1], past);
      CreateKeepsRechecks(CreatedEach(w, ts[..|ts| - 1]), ts[|ts| - 1], past);
    }
  }

  lemma DestroyKeepsRechecks(w: World, id: Stamp, past: Watch)
    requires Numbered(w, past)
    ensures Numbered(Destroyed(w, id), past)
  {
    var w' := Destroyed(w, id);
    assert w'.jobs == w.jobs && w'.history.started == w.history.started;
    hide Destroyed, Numbered;
    OtherJobs(w, w', past);
  }

  lemma CancelKeepsRechecks(w: World, id: Stamp, stopped: bool, past: Watch)
    requires Orderly(w) && Numbered(w, past)
    ensures Numbered(CancelRequested(w, id), past) && Numbered(CancelAnswered(w, id, stopped), past)
  {
    hide Orderly, Numbered, Marked;
    MarkKeepsRechecks(w, id, Canceled, LogOnly(CANCEL_LOG), past);
    OtherJobs(w, WithJob(w, Canceling(id)), past);
    TakeThenMark(w, Canceling(id), id, Canceled, LogOnly(CANCEL_LOG), past);
    OtherJobs(w, WithoutJob(w, Canceling(id)), past);
  }

  lemma AcceptKeepsRechecks(w: World, id: Stamp, past: Watch)
    requires Orderly(w) && Numbered(w, past)
    ensures Numbered(ErrorsAccepted(w, id), past)
  {
    hide Orderly, Numbered, Marked;
    MarkKeepsRechecks(w, id, Success, Changes(None, false, true, false), past);
  }

  lemma ArrangingKeepsRechecks(w: World, a: Action, past: Watch)
    requires Numbered(w, past) && (a.Publish? || a.SetVisibility? || a.EditSource? || a.AddTarget?)
    ensures Numbered(Step(w, a), past)
  {
    hide Step, Numbered;
    QuietStepsKeepBuilds(w, a);
    OtherJobs(w, Step(w, a), past);
  }

  lemma AuthorsKeepRechecks(w: World, a: Action, past: Watch)
    requires Orderly(w) && Numbered(w, past) && FromAuthor(a)
    ensures Numbered(Step(w, a), past)
  {
    if a.Publish? || a.SetVisibility? || a.EditSource? || a.AddTarget? {
      hide Step, Numbered, Orderly;
      ArrangingKeepsRechecks(w, a, past);
    } else {
      hide Orderly, Numbered, Created, CreatedEach, BulkCandidates, Destroyed, CancelRequested, CancelAnswered,
        ErrorsAccepted, PreviousLive;
      match a {
        case CreateBuild(t) => CreateKeepsRechecks(w, t, past);
        case BuildAll(p) => if p in w.projects { CreateEachKeepsRechecks(w, BulkCandidates(w, p), past); }
        case RequestCancel(id) => CancelKeepsRechecks(w, id, false, past);
        case CancelReply(id, stopped) => CancelKeepsRechecks(w, id, stopped, past);
        case AcceptErrors(id) => AcceptKeepsRechecks(w, id, past);
        case DeleteBuild(id) => DestroyKeepsRechecks(w, id, past);
        case Revert(t) =>
          if t in w.targets && w.targets[t].current.Some? {
            DestroyKeepsRechecks(w, w.targets[t].current.value, past);
          }
      }
    }
  }

  lemma SubmittingIsOrderly(w: World, id: Stamp)
    requires Orderly(w) && SubmitJob(id) in w.jobs
    ensures Orderly(WithJob(WithoutJob(w, SubmitJob(id)), Submitting(id)))
  {
    var w1 := WithJob(WithoutJob(w, SubmitJob(id)), Submitting(id));
    assert forall i :: i in w1.jobs ==> i in w.jobs || i == Submitting(id);
  }

  lemma SubmitKeepsRechecks(w: World, id: Stamp, past: Watch)
    requires Orderly(w) && Numbered(w, past)
    ensures Numbered(Submitted(w, id), past)
  {
    hide Numbered, Marked, Orderly;
    if SubmitJob(id) in w.jobs {
      var w1 := WithoutJob(w, SubmitJob(id));
      SubmittingIsOrderly(w, id);
      OtherJobs(w, w1, past);
      OtherJobs(w, WithJob(w1, Submitting(id)), past);
      MarkKeepsRechecks(WithJob(w1, Submitting(id)), id, InProgress, NOTHING_ELSE, past);
    }
  }

  lemma SubmitReplyKeepsRechecks(w: World, id: Stamp, answer: SubmitAnswer, past: Watch)
    requires Orderly(w) && Numbered(w, past)
    ensures Numbered(SubmitAnswered(w, id, answer), past)
  {
    hide Numbered, Marked, Orderly;
    TakeThenMark(w, Submitting(id), id, Failed, NOTHING_ELSE, past);
    if answer.Accepted? {
      TakeThenMark(w, Submitting(id), id, SentToServer, Changes(None, false, false, answer.statusUrl), past);
    }
  }

  lemma CallbackKeepsRechecks(w: World, id: Stamp, r: Report, moreLog: bool, past: Watch)
    requires Orderly(w) && Numbered(w, past)
    ensures Numbered(CalledBack(w, id, r, moreLog), past)
  {
    hide Orderly, Numbered, Reported;
    ReportKeepsRechecks(w, id, r, past);
    OtherJobs(Reported(w, id, r), WithJob(Reported(w, id, r), LogJob(id)), past);
  }

  lemma CheckReplyKeepsRechecks(w: World, id: Stamp, reply: CheckAnswer, past: Watch)
    requires Orderly(w) && Numbered(w, past)
    ensures Numbered(CheckAnswered(w, id, reply), past)
  {
    hide Orderly, Numbered, Reported;
    var w1 := WithoutJob(w, Checking(id));
    WithoutJobIsOrderly(w, Checking(id));
    OtherJobs(w, w1, past);
    if reply.Answer? { ReportKeepsRechecks(w1, id, reply.report, past); }
  }

  lemma RequestsKeepRechecks(w: World, id: Stamp, past: Watch)
    requires Numbered(w, past)
    ensures Numbered(CheckRequested(w, id), past) && Numbered(ImportBegun(w, id), past)
  {
    hide Numbered, CheckRequested, ImportBegun;
    RequestKeepsBuilds(w, id);
    BeginningKeepsBuilds(w, id);
    OtherJobs(w, CheckRequested(w, id), past);
    OtherJobs(w, ImportBegun(w, id), past);
  }

  lemma {:induction false} PruningKeepsRechecks(w: World, ids: seq<Stamp>, past: Watch)
    requires Numbered(w, past)
    ensures Numbered(DestroyedEach(w, ids), past)
  {
    hide Numbered, Destroyed;
    if ids != [] {
      PruningKeepsRechecks(w, ids[..|ids| - 1], past);
      DestroyKeepsRechecks(DestroyedEach(w, ids[..|ids| - 1]), ids[|ids| - 1], past);
    }
  }

  lemma ImportKeepsRechecks(w: World, id: Stamp, seen: Build, o: ImportOutcome, past: Watch)
    requires Invariant(w) && Numbered(w, past)
    ensures Numbered(ImportEnded(w, id, seen, o), past)
  {
    hide Invariant, Orderly, Numbered, Marked, Surplus, DestroyedEach, Appended, WithoutJob, PrunedUpTo;
    InvariantIsOrderly(w);
    if Importing(id, seen) in w.jobs {
      var j, t := Importing(id, seen), PruningTarget(w, id, seen);
      var w2 := Marked(WithoutJob(w, j), id, Success, NOTHING_ELSE);
      TakeThenMark(w, j, id, Success, NOTHING_ELSE, past);
      TakeThenMark(w, j, id, Failed, NOTHING_ELSE, past);
      TakeThenMark(w, j, id, Failed, LogOnly(Appended(seen.log, TIMEOUT_LOG)), past);
      PruningKeepsRechecks(w2, Surplus(w2, t), past);
      if o.CrashedAfterSuccess? {
        InvariantAfterTaking(w, j);
        InvariantAfterMark(WithoutJob(w, j), id, Success, NOTHING_ELSE);
        CrashKeepsRechecks(w2, id, t, o.pruned, past);
      }
    }
  }

  lemma CrashKeepsRechecks(w: World, id: Stamp, t: TargetId, k: nat, past: Watch)
    requires Invariant(w) && Numbered(w, past)
    ensures Numbered(Marked(PrunedUpTo(w, t, k), id, Failed, NOTHING_ELSE), past)
  {
    hide Marked, Numbered, Surplus, DestroyedEach, Invariant, Orderly;
    var surplus := Surplus(w, t);
    InvariantAfterDestroyEach(w, surplus[..Min(k, |surplus|)]);
    InvariantIsOrderly(PrunedUpTo(w, t, k));
    PruningKeepsRechecks(w, surplus[..Min(k, |surplus|)], past);
    MarkKeepsRechecks(PrunedUpTo(w, t, k), id, Failed, NOTHING_ELSE, past);
  }

  lemma FetchKeepsRechecks(w: World, id: Stamp, body: Option<string>, past: Watch)
    requires Orderly(w) && Numbered(w, past)
    ensures Numbered(LogFetched(w, id, body), past)
  {
    if LogJob(id) in w.jobs && id in w.builds && body.Some? { LogJobsAreForStartedBuilds(w, id); }
    hide Orderly, Numbered, Marked, Blank;
    OtherJobs(w, WithoutJob(w, LogJob(id)), past);
    if LogJob(id) in w.jobs && id in w.builds && body.Some? {
      TakeThenMark(w, LogJob(id), id, w.builds[id].status, LogOnly(body.value), past);
    }
  }

  // ---- Counting the looks ----

  /** A recheck of `b` runs. */
  predicate LooksAt(w: World, a: Action, b: Stamp) {
    a.Recheck? && a.build == b && RecheckJob(b, a.attempt) in w.jobs
  }

  function LookedAfter(w: World, a: Action, past: Watch): Watch {
    if a.Recheck? && LooksAt(w, a, a.build) then WithLook(past, a.build, !OnItsWay(Step(w, a), a.build)) else past
  }

  lemma JobsKeepRechecks(w: World, a: Action, past: Watch)
    requires Invariant(w) && Orderly(w) && Numbered(w, past) && !FromAuthor(a) && !a.Recheck?
    ensures Numbered(Step(w, a), past)
  {
    hide Invariant, Orderly, Numbered, ImportBegun, ImportEnded, LogFetched, Submitted, SubmitAnswered, CalledBack,
      CheckRequested, CheckAnswered;
    match a {
      case Submit(id) => SubmitKeepsRechecks(w, id, past);
      case SubmitReply(id, answer) => SubmitReplyKeepsRechecks(w, id, answer, past);
      case Callback(id, r, moreLog) => CallbackKeepsRechecks(w, id, r, moreLog, past);
      case RequestCheck(id) => RequestsKeepRechecks(w, id, past);
      case CheckReply(id, reply) => CheckReplyKeepsRechecks(w, id, reply, past);
      case BeginImport(id) => RequestsKeepRechecks(w, id, past);
      case EndImport(id, seen, o) => ImportKeepsRechecks(w, id, seen, o, past);
      case FetchLog(id, body) => FetchKeepsRechecks(w, id, body, past);
    }
  }

  lemma RecheckWithoutJob(w: World, id: Stamp, k: nat, stalled: bool)
    ensures Step(w, Recheck(id, k, stalled)) == if RecheckJob(id, k) in w.jobs then Rechecked(w, id, k, stalled) else w
  {
  }

  lemma StepKeepsRechecks(w: World, a: Action, past: Watch)
    requires Invariant(w) && Numbered(w, past)
    ensures Numbered(Step(w, a), LookedAfter(w, a, past))
  {
    hide Invariant, Orderly, Numbered, Rechecked, Step;
    InvariantIsOrderly(w);
    if FromAuthor(a) {
      AuthorsKeepRechecks(w, a, past);
    } else if a.Recheck? {
      RecheckWithoutJob(w, a.build, a.attempt, a.stalled);
      if RecheckJob(a.build, a.attempt) in w.jobs { RecheckKeepsOne(w, a.build, a.attempt, a.stalled, past); }
    } else {
      JobsKeepRechecks(w, a, past);
    }
  }

  /** The steps of a run at which a recheck of `b` runs. */
  function Looks(w: World, actions: seq<Action>, b: Stamp): set<nat> {
    set k: nat | k < |actions| && LooksAt(Run(w, actions[..k]), actions[k], b)
  }

  /** Step `k` is such a recheck, and does not leave `b` on its way. */
  predicate LastLook(w: World, actions: seq<Action>, k: nat, b: Stamp) {
    k < |actions| && LooksAt(Run(w, actions[..k]), actions[k], b) && !OnItsWay(Run(w, actions[..k + 1]), b)
  }

  function Looked(w: World, actions: seq<Action>): Watch {
    if actions == [] then Watch(multiset{}, {})
    else
      var front := actions[..|actions| - 1];
      LookedAfter(Run(w, front), actions[|actions| - 1], Looked(w, front))
  }

  lemma LooksGrow(w: World, actions: seq<Action>, a: Action, b: Stamp)
    ensures Looks(w, actions + [a], b)
         == Looks(w, actions, b) + if LooksAt(Run(w, actions), a, b) then {|actions|} else {}
  {
    hide LooksAt, Run;
    var all := actions + [a];
    assert all[..|actions|] == actions;
    assert forall k: nat :: k < |actions| ==> all[..k] == actions[..k] && all[k] == actions[k];
    forall k: nat ensures k in Looks(w, all, b)
      <==> k in Looks(w, actions, b) + if LooksAt(Run(w, actions), a, b) then {|actions|} else {} {
    }
  }

  lemma {:induction false} LooksAreCounted(w: World, actions: seq<Action>, b: Stamp)
    ensures |Looks(w, actions, b)| == Looked(w, actions).looks[b]
  {
    if actions == [] {
      assert Looks(w, actions, b) == {};
    } else {
      var n := |actions| - 1;
      var front := actions[..n];
      assert actions == front + [actions[n]];
      LooksAreCounted(w, front, b);
      LooksGrow(w, front, actions[n], b);
      assert n !in Looks(w, front, b);
      hide Run, Looks, OnItsWay, Step;
    }
  }

  lemma LastLookLater(w: World, front: seq<Action>, actions: seq<Action>, k: nat, b: Stamp)
    requires LastLook(w, front, k, b) && front <= actions
    ensures LastLook(w, actions, k, b)
  {
    assert front[..k] == actions[..k] && front[..k + 1] == actions[..k + 1];
    hide Run, LooksAt, OnItsWay;
  }

  lemma {:induction false} EndedByLastLook(w: World, actions: seq<Action>, b: Stamp)
    requires b in Looked(w, actions).ended
    ensures exists k: nat :: LastLook(w, actions, k, b)
  {
    var n := |actions| - 1;
    var front, a := actions[..n], actions[n];
    assert Run(w, actions) == Step(Run(w, front), a);
    assert Looked(w, actions) == LookedAfter(Run(w, front), a, Looked(w, front));
    assert actions[..n + 1] == actions;
    hide Run, Step, OnItsWay, Looked, LooksAt, LookedAfter;
    if b in Looked(w, front).ended {
      EndedByLastLook(w, front, b);
      var k: nat :| LastLook(w, front, k, b);
      LastLookLater(w, front, actions, k, b);
    } else {
      EndedNow(Run(w, front), a, Looked(w, front), b);
      assert LastLook(w, actions, n, b);
    }
  }

  lemma EndedNow(w: World, a: Action, past: Watch, b: Stamp)
    requires b in LookedAfter(w, a, past).ended && b !in past.ended
    ensures LooksAt(w, a, b) && !OnItsWay(Step(w, a), b)
  {
    hide Step, OnItsWay;
  }

  lemma {:induction false} RunIsNumbered(w: World, actions: seq<Action>)
    requires Fresh(w)
    ensures Numbered(Run(w, actions), Looked(w, actions))
  {
    if actions != [] {
      var front, a := actions[..|actions| - 1], actions[|actions| - 1];
      assert Run(w, actions) == Step(Run(w, front), a);
      hide Step, Numbered, Run, Invariant, LookedAfter;
      RunIsNumbered(w, front);
      ReachableWorldsAreInvariant(w, front);
      StepKeepsRechecks(Run(w, front), a, Looked(w, front));
    }
  }

  lemma NumberedMeans(w: World, past: Watch, b: Stamp)
    requires Numbered(w, past)
    ensures past.looks[b] <= MAX_ATTEMPTS
    ensures forall k: nat :: RecheckJob(b, k) in w.jobs ==>
      w.jobs[RecheckJob(b, k)] == 1 && k == past.looks[b] + 1 && k <= MAX_ATTEMPTS
    ensures b in w.history.started ==>
      RecheckJob(b, past.looks[b] + 1) in w.jobs || past.looks[b] == MAX_ATTEMPTS || b in past.ended
  {
  }

  /**
   Over every run, however long and whatever the answers, a recheck of a build runs at most
   eleven times; one that is outstanding is the only one of its build, and bears the number of
   the looks there have been and one more.
   */
  lemma RechecksEnd(w: World, actions: seq<Action>, b: Stamp)
    requires Fresh(w)
    ensures |Looks(w, actions, b)| <= 11
    ensures var jobs := Run(w, actions).jobs;
      forall k: nat :: RecheckJob(b, k) in jobs ==>
        jobs[RecheckJob(b, k)] == 1 && k == |Looks(w, actions, b)| + 1 && k <= 11
  {
    hide Looks, Looked, Run, Fresh, Numbered;
    RunIsNumbered(w, actions);
    LooksAreCounted(w, actions, b);
    NumberedMeans(Run(w, actions), Looked(w, actions), b);
  }

  /**
   Nor does the watch over a build stop early: over every run, a build that was started has its
   next recheck outstanding, or has had all eleven, or one of them left it finished or gone.
   */
  lemma RechecksGoOn(w: World, actions: seq<Action>, b: Stamp)
    requires Fresh(w) && b in Run(w, actions).history.started
    ensures || RecheckJob(b, |Looks(w, actions, b)| + 1) in Run(w, actions).jobs
            || |Looks(w, actions, b)| == 11
            || exists k: nat :: LastLook(w, actions, k, b)
  {
    hide Looks, Looked, Run, Fresh, Numbered, LastLook;
    RunIsNumbered(w, actions);
    LooksAreCounted(w, actions, b);
    NumberedMeans(Run(w, actions), Looked(w, actions), b);
    if b in Looked(w, actions).ended { EndedByLastLook(w, actions, b); }
  }
}
