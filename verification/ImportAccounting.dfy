/**
 How often one build's output is imported. Webhook and poll both claim a finished build, and may
 both be told about it any number of times; each import has to be paid for by the build's first
 wait for an answer or by a later step that put it back in flight.
 */
module ImportAccounting {
  import opened Options
  import opened Builds
  import opened BuildFacts

  /** 1 while the build may still be claimed without coming back from anywhere. */
  function Claimable(builds: map<Stamp, Build>, b: Stamp): nat {
    if b in builds && (Waiting(builds[b].status) || builds[b].status.Queued?) then 1 else 0
  }

  /** How many imports of `b` the run has paid for so far. */
  function Allowance(w: World, b: Stamp): nat { 1 + w.history.Reentered()[b] + w.history.lateClaims[b] }

  ghost predicate Accounts(w: World) {
    && (forall b :: b in w.builds ==> b < w.clock)
    && (forall b: Stamp :: w.history.imports[b] + Claimable(w.builds, b) <= Allowance(w, b))
    && (forall b: Stamp :: b >= w.clock ==> w.history.imports[b] == 0)
  }

  lemma AccountsAfterWrite(w: World, id: Stamp, s: Status, ch: Changes)
    requires Accounts(w) && !s.Queued?
    ensures Accounts(WrittenAndSynced(w, id, s, ch))
  {
    var w' := WrittenAndSynced(w, id, s, ch);
    WriteFacts(w, id, s, ch);
    forall b: Stamp ensures w'.history.imports[b] + Claimable(w'.builds, b) <= Allowance(w', b) {
      assert w.history.imports[b] + Claimable(w.builds, b) <= Allowance(w, b);
    }
  }

  lemma AccountsAfterPromotion(w: World)
    requires Accounts(w)
    ensures Accounts(Promoted(w))
  {
    PromotionFacts(w);
    if Promoted(w) != w {
      var q :| IsOldest(q, QueuedIn(w.builds)) && SlotAvailable(w)
               && Promoted(w) == Started(WrittenAndSynced(w, q, Pending, NOTHING_ELSE), q);
      AccountsAfterWrite(w, q, Pending, NOTHING_ELSE);
      AccountsFramed(WrittenAndSynced(w, q, Pending, NOTHING_ELSE), Promoted(w));
    }
  }

  lemma AccountsAfterMark(w: World, id: Stamp, s: Status, ch: Changes)
    requires Accounts(w) && !s.Queued?
    ensures Accounts(Marked(w, id, s, ch))
  {
    AccountsAfterWrite(w, id, s, ch);
    AccountsAfterPromotion(WrittenAndSynced(w, id, s, ch));
  }

  /** A claim uses up what made the build claimable, or the revival that the claim itself is. */
  lemma AccountsAfterClaim(w: World, id: Stamp, tail: string, flagged: bool)
    requires Accounts(w) && id in w.builds && !w.builds[id].status.ReceivedFromServer?
    ensures Accounts(Claimed(w, id, tail, flagged))
  {
    var ch := Changes(Some(InlineLog(tail)), flagged, false, false);
    var w1 := Marked(w, id, ReceivedFromServer, ch);
    var w' := Claimed(w, id, tail, flagged);
    WriteFacts(w, id, ReceivedFromServer, ch);
    AccountsAfterMark(w, id, ReceivedFromServer, ch);
    forall b: Stamp ensures w'.history.imports[b] + Claimable(w'.builds, b) <= Allowance(w', b) {
      assert w1.history.imports[b] + Claimable(w1.builds, b) <= Allowance(w1, b);
      assert w.history.imports[b] + Claimable(w.builds, b) <= Allowance(w, b);
    }
  }

  lemma AccountsAfterCreate(w: World, t: TargetId)
    requires Accounts(w)
    ensures Accounts(Created(w, t))
  {
    var w' := Created(w, t);
    InsertFacts(w, t);
    forall b: Stamp ensures w'.history.imports[b] + Claimable(w'.builds, b) <= Allowance(w', b) {
      assert w.history.imports[b] + Claimable(w.builds, b) <= Allowance(w, b);
      assert b == w.clock ==> w.history.imports[b] == 0;
    }
  }

  lemma AccountsAfterDestroy(w: World, id: Stamp)
    requires Accounts(w)
    ensures Accounts(Destroyed(w, id))
  {
    var w' := Destroyed(w, id);
    forall b: Stamp ensures w'.history.imports[b] + Claimable(w'.builds, b) <= Allowance(w', b) {
      assert w.history.imports[b] + Claimable(w.builds, b) <= Allowance(w, b);
    }
  }

  lemma AccountsFramed(w: World, w': World)
    requires Accounts(w) && w'.builds == w.builds && w.clock <= w'.clock
    requires w'.history.imports == w.history.imports && w'.history.resubmitted == w.history.resubmitted
    requires w'.history.reopened == w.history.reopened && w'.history.lateClaims == w.history.lateClaims
    ensures Accounts(w')
  {
    forall b: Stamp ensures w'.history.imports[b] + Claimable(w'.builds, b) <= Allowance(w', b) {
      assert w.history.imports[b] + Claimable(w.builds, b) <= Allowance(w, b);
    }
  }
}
