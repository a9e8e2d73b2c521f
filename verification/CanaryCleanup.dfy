/** `closeCanaryResourceSet` (apps/cli/src/canary-operator-startup-cleanup.ts:58-71): every step is attempted,
    whatever the others do, and the failures decide. */
module CanaryCleanup {
  import opened CanaryProvider

  /** Which steps fail, in order. */
  function FailuresOf(outcomes: seq<bool>): (r: seq<nat>)
  {
    if outcomes == [] then []
    else
      var n := |outcomes| - 1;
      FailuresOf(outcomes[..n]) + if outcomes[n] then [] else [n]
  }

  lemma {:induction false} FailuresAre(outcomes: seq<bool>, i: nat)
    ensures i in FailuresOf(outcomes) <==> i < |outcomes| && !outcomes[i]
  {
    if outcomes == [] {
    } else {
      var n := |outcomes| - 1;
      FailuresAre(outcomes[..n], i);
      assert FailuresOf(outcomes) == FailuresOf(outcomes[..n]) + if outcomes[n] then [] else [n];
    }
  }

  /** `outcomes[i]`: the i-th cleanup step, once attempted, succeeds. */
  method CloseCanaryResourceSet(outcomes: seq<bool>) returns (attempted: seq<nat>, failures: seq<nat>, result: Outcome)
    ensures attempted == seq(|outcomes|, i => i)
    ensures failures == FailuresOf(outcomes)
    ensures result == (if exists i :: 0 <= i < |outcomes| && !outcomes[i] then Incomplete else Fulfilled)
  {
    attempted, failures := [], [];
    var i := 0;
    while i < |outcomes|
      invariant 0 <= i <= |outcomes|
      invariant attempted == seq(i, j => j)
      invariant failures == FailuresOf(outcomes[..i])
    {
      assert outcomes[..i + 1][..i] == outcomes[..i];
      attempted := attempted + [i];
      if !outcomes[i] { failures := failures + [i]; }
      i := i + 1;
    }
    assert outcomes[..i] == outcomes;
    forall k | 0 <= k < |outcomes| ensures k in failures <==> !outcomes[k] { FailuresAre(outcomes, k); }
    if failures != [] {
      assert failures[0] in failures;
      FailuresAre(outcomes, failures[0]);
      result := Incomplete;
    } else {
      result := Fulfilled;
    }
  }

  /** Closing what the work holds, one handle after another. */
  function CloseAll(w: Work, outcomes: seq<bool>): (Work, nat)
    decreases |outcomes|
  {
    if outcomes == [] then (w, 0)
    else
      var (next, lost) := Proceed(w, Closed(outcomes[0]));
      var (last, more) := CloseAll(next, outcomes[1..]);
      (last, lost + more)
  }

  /** The cleanup of a callback, step by step over the interleavings, is one such set: it ends with every
      handle attempted, keeps its outcome only if all of them closed, and loses exactly those that did not. */
  lemma {:induction false} CleaningClosesASet(outcome: Outcome, outcomes: seq<bool>)
    ensures CloseAll(Cleaning(|outcomes|, outcome), outcomes)
            == (Cleaning(0, if FailuresOf(outcomes) == [] then outcome else Incomplete), |FailuresOf(outcomes)|)
    decreases |outcomes|
  {
    if outcomes == [] {
    } else {
      CleaningClosesASet(if outcomes[0] then outcome else Incomplete, outcomes[1..]);
      FailuresFirst(outcomes);
    }
  }

  lemma {:induction false} FailuresFirst(outcomes: seq<bool>)
    requires outcomes != []
    ensures |FailuresOf(outcomes)| == |FailuresOf(outcomes[1..])| + if outcomes[0] then 0 else 1
  {
    if |outcomes| > 1 {
      var n := |outcomes| - 1;
      FailuresFirst(outcomes[..n]);
      assert outcomes[..n][1..] == outcomes[1..][..n - 1];
    }
  }
}
