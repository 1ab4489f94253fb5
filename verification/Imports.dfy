/** When a build that has already been answered for is imported again. */
module Imports {
  import opened Builds
  import opened BuildRuns
  import opened Outcomes
  import opened Claims

  /** Step `k` of the run claims the build's output. */
  predicate ClaimingAt(w: World, actions: seq<Action>, k: nat, b: Stamp) {
    k < |actions| && Claiming(Run(w, actions[..k]), actions[k], b)
  }

  /** How many of the first `n` steps claim it. */
  function ClaimsAmong(w: World, actions: seq<Action>, n: nat, b: Stamp): nat {
    if n == 0 then 0 else ClaimsAmong(w, actions, n - 1, b) + One(ClaimingAt(w, actions, n - 1, b))
  }

  lemma {:induction false} ImportsAreCounted(w: World, actions: seq<Action>, n: nat, b: Stamp)
    requires n <= |actions|
    ensures Run(w, actions[..n]).history.imports[b] == w.history.imports[b] + ClaimsAmong(w, actions, n, b)
  {
    if n == 0 {
      assert actions[..0] == [];
    } else {
      assert actions[..n][..n - 1] == actions[..n - 1];
      assert Run(w, actions[..n]) == Step(Run(w, actions[..n - 1]), actions[n - 1]);
      hide Run, Step, Claiming;
      ImportsAreCounted(w, actions, n - 1, b);
      ImportsAreClaims(Run(w, actions[..n - 1]), actions[n - 1], b);
    }
  }

  lemma {:induction false} SomeAmong(w: World, actions: seq<Action>, n: nat, b: Stamp)
    ensures ClaimsAmong(w, actions, n, b) > 0 <==> exists k: nat :: k < n && ClaimingAt(w, actions, k, b)
  {
    hide ClaimingAt;
    if n > 0 { SomeAmong(w, actions, n - 1, b); }
  }

  /**
   Over any run from any state, a build is imported as often as steps claim its output, each in
   the state it meets; so it is imported again exactly if one does.
   */
  lemma ImportedAgainExactlyWhen(w: World, actions: seq<Action>, b: Stamp)
    ensures Run(w, actions).history.imports[b] == w.history.imports[b] + ClaimsAmong(w, actions, |actions|, b)
    ensures Run(w, actions).history.imports[b] > w.history.imports[b]
      <==> exists k: nat :: ClaimingAt(w, actions, k, b)
  {
    assert actions[..|actions|] == actions;
    assert forall k: nat :: ClaimingAt(w, actions, k, b) ==> k < |actions|;
    hide Run, ClaimingAt;
    ImportsAreCounted(w, actions, |actions|, b);
    SomeAmong(w, actions, |actions|, b);
  }

  // ---- Where nothing puts the build back ----

  /** Step `k` of the run claims a build that has an outcome. */
  predicate LateClaimAt(w: World, actions: seq<Action>, k: nat, b: Stamp) {
    && k < |actions|
    && var w1 := Run(w, actions[..k]);
       b in w1.builds && Terminal(w1.builds[b].status) && ClaimingByCheck(w1, actions[k], b)
  }

  lemma AnsweredIsClaimedLate(w: World, a: Action, b: Stamp)
    requires Answered(w, b)
    ensures Claiming(w, a, b) <==> b in w.builds && Terminal(w.builds[b].status) && ClaimingByCheck(w, a, b)
  {
  }

  /**
   As long as no step puts it back to waiting, a build that has been answered for is imported
   again exactly if a check claims it after its outcome.
   */
  lemma ImportedLateExactlyWhen(w: World, actions: seq<Action>, b: Stamp)
    requires Invariant(w) && b < w.clock && Answered(w, b)
    requires forall k: nat :: !ResubmittedAt(w, actions, k, b)
    ensures Run(w, actions).history.imports[b] > w.history.imports[b]
      <==> exists k: nat :: LateClaimAt(w, actions, k, b)
  {
    hide Run, Invariant, Answered, Claiming, ClaimingByCheck, ResubmittedAt;
    ImportedAgainExactlyWhen(w, actions, b);
    forall k: nat ensures ClaimingAt(w, actions, k, b) <==> LateClaimAt(w, actions, k, b) {
      if k < |actions| {
        AnsweredUpTo(w, actions, k, b);
        AnsweredIsClaimedLate(Run(w, actions[..k]), actions[k], b);
      }
    }
  }
}
