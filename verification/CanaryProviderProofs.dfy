/** What every interleaving of the canary provider keeps. */
module CanaryProviderProofs {
  import opened CanaryProvider

  predicate Past(stage: RunStage) { stage.AwaitingSecrets? || stage.InBody? }

  predicate AllRecovered(p: Provider) { forall k :: 0 <= k < |p.recoveries| ==> p.recoveries[k].RecoverySettled? }

  predicate AllRecoveredBut(p: Provider, wait: Wait)
  {
    forall k :: 0 <= k < |p.recoveries| && (wait.NoWait? || wait.recovery != k) ==> p.recoveries[k].RecoverySettled?
  }

  /** A run that has not settled is the active one, one that failed to clean up is remembered, and none was
      admitted after aborts that are yet to come. */
  predicate RunsOk(p: Provider)
  {
    && NONE <= p.activeRun < |p.runs|
    && (forall i :: 0 <= i < |p.runs| ==> p.runs[i].epoch <= p.abortEpoch)
    && forall i :: 0 <= i < |p.runs| && p.activeRun != i ==>
         p.runs[i].stage.RunSettled? && (p.runs[i].stage.outcome == Incomplete ==> p.incomplete)
  }

  predicate RecoveriesOk(p: Provider)
  {
    && NONE <= p.activeRecovery < |p.recoveries|
    && forall k :: 0 <= k < |p.recoveries| && p.activeRecovery != k ==>
         p.recoveries[k].RecoverySettled? && (p.recoveries[k].outcome == Incomplete ==> p.incomplete)
  }

  /** Behind its wait, a run has no recovery beside it. */
  predicate Exclusive(p: Provider)
  {
    forall i :: 0 <= i < |p.runs| ==>
      match p.runs[i].stage
      case AwaitingRecovery(wait) => AllRecoveredBut(p, wait) && (wait.WaitFor? ==> wait.recovery < |p.recoveries|)
      case RunSettled(_) => true
      case _ => AllRecovered(p)
  }

  /** Secrets are asked for once, by the run that won the claim, and after it no run gets that far. */
  predicate OneShot(p: Provider)
  {
    && p.claimsWon == (if p.ownedClaim then 1 else 0) && p.secretRequests <= p.claimsWon
    && forall i :: 0 <= i < |p.runs| ==>
         if p.ownedClaim then Past(p.runs[i].stage) || p.runs[i].stage.RunSettled? else !Past(p.runs[i].stage)
  }

  predicate RunWorkOk(w: Work)
  {
    match w
    case Acquiring(held) => held <= STORAGE
    case Cleaning(left, _) => left <= STORAGE + 1
    case _ => true
  }

  predicate RecoveryWorkOk(w: Work)
  {
    match w
    case Acquiring(held) => held < STORAGE
    case Cleaning(left, _) => left <= STORAGE
    case Recovering => true
    case Executing => false
  }

  predicate WorkOk(p: Provider)
  {
    && (forall i :: 0 <= i < |p.runs| && p.runs[i].stage.InBody? ==> RunWorkOk(p.runs[i].stage.work))
    && (forall k :: 0 <= k < |p.recoveries| && p.recoveries[k].InRecovery? ==> RecoveryWorkOk(p.recoveries[k].work))
  }

  /** The controller is the active one exactly while a run executes. */
  predicate ControllerOk(p: Provider)
  {
    p.activeController <==> p.activeRun >= 0 && p.activeRun < |p.runs| && p.runs[p.activeRun].stage == InBody(Executing)
  }

  predicate FlagsOk(p: Provider)
  {
    (p.closingBegan ==> p.closing) && (p.incomplete ==> p.closing)
  }

  predicate Inv(p: Provider)
  {
    RunsOk(p) && RecoveriesOk(p) && Exclusive(p) && OneShot(p) && WorkOk(p) && ControllerOk(p) && FlagsOk(p)
  }

  lemma FreshInv()
    ensures Inv(FRESH)
  {}

  lemma RecoverKeeps(p: Provider, interrupted: bool)
    requires Inv(p)
    ensures Inv(RecoverIfPossible(p, interrupted).0)
    ensures p.activeRun < 0 && !p.ownedClaim ==> AllRecoveredBut(RecoverIfPossible(p, interrupted).0, RecoverIfPossible(p, interrupted).1)
    ensures RecoverIfPossible(p, interrupted).1.WaitFor?
            ==> RecoverIfPossible(p, interrupted).1.recovery < |RecoverIfPossible(p, interrupted).0.recoveries|
    ensures RecoverIfPossible(p, interrupted).0.runs == p.runs && RecoverIfPossible(p, interrupted).0.activeRun == p.activeRun
    ensures RecoverIfPossible(p, interrupted).0.ownedClaim == p.ownedClaim && RecoverIfPossible(p, interrupted).0.activeController == p.activeController
  {}

  // ---------------------------------------------------------------- small changes

  /** Latching touches two flags. */
  lemma LatchFacts(p: Provider, outcome: Outcome)
    ensures var q := Latch(p, outcome);
            && q.secretRequests == p.secretRequests && q.claimsWon == p.claimsWon && q.ownedClaim == p.ownedClaim && q.stranded == p.stranded
            && q.runs == p.runs && q.recoveries == p.recoveries && q.statuses == p.statuses && q.abortEpoch == p.abortEpoch
            && (p.closing ==> q.closing) && q.incomplete == (p.incomplete || outcome == Incomplete) && q.closing == (p.closing || outcome == Incomplete)
            && q.activeRun == p.activeRun && q.activeRecovery == p.activeRecovery && q.activeStatus == p.activeStatus
  {}

  lemma LatchKeeps(p: Provider, outcome: Outcome)
    requires Inv(p)
    ensures Inv(Latch(p, outcome))
  {}

  lemma StatusesKeep(p: Provider, statuses: seq<StatusStage>, activeStatus: int)
    requires Inv(p)
    ensures Inv(p.(statuses := statuses)) && Inv(p.(activeStatus := activeStatus))
  {}

  lemma AbortKeeps(p: Provider, epoch: nat)
    requires Inv(p) && p.abortEpoch <= epoch
    ensures Inv(p.(abortEpoch := epoch)) && Inv(p.(closingBegan := true, closing := true, abortEpoch := epoch))
  {}

  lemma AbortFailureKeeps(p: Provider)
    requires Inv(p)
    ensures Inv(p.(abortFailed := true))
  {}

  /** What a run in flight may turn into. */
  predicate StageFits(p: Provider, stage: RunStage)
  {
    match stage
    case AwaitingRecovery(_) => false
    case AwaitingClaim => AllRecovered(p) && !p.ownedClaim
    case AwaitingSecrets => AllRecovered(p) && p.ownedClaim
    case InBody(work) => AllRecovered(p) && p.ownedClaim && RunWorkOk(work)
    case RunSettled(_) => true
  }

  lemma SetRunKeeps(p: Provider, i: nat, stage: RunStage)
    requires Inv(p) && i < |p.runs| && !p.runs[i].stage.RunSettled? && StageFits(p, stage)
    ensures Inv(SetRun(p, i, stage).(activeController := stage == InBody(Executing)))
  {}

  /** A settled recovery leaves no other in flight behind a waiting run. */
  lemma WaitIsOver(p: Provider, i: nat)
    requires Inv(p) && i < |p.runs| && p.runs[i].stage.AwaitingRecovery? && WaitOver(p, p.runs[i].stage.wait)
    ensures AllRecovered(p) && !p.ownedClaim && !p.activeController && p.activeRun == i
  {}

  lemma Awaits(p: Provider, i: nat)
    requires Inv(p) && i < |p.runs| && !p.runs[i].stage.RunSettled?
    ensures p.activeRun == i && (p.activeController <==> p.runs[i].stage == InBody(Executing))
    ensures p.runs[i].stage.AwaitingClaim? ==> AllRecovered(p) && !p.ownedClaim
    ensures Past(p.runs[i].stage) ==> AllRecovered(p) && p.ownedClaim
    ensures p.runs[i].stage.InBody? ==> RunWorkOk(p.runs[i].stage.work)
  {}

  lemma SetRecoveryKeeps(p: Provider, k: nat, stage: RecoveryStage)
    requires Inv(p) && k < |p.recoveries| && !p.recoveries[k].RecoverySettled? && !stage.AwaitingStorageSecrets?
    requires stage.InRecovery? ==> RecoveryWorkOk(stage.work)
    ensures Inv(p.(recoveries := p.recoveries[k := stage]))
  {}

  lemma ClaimedKeeps(p: Provider, i: nat, won: bool, asks: bool)
    requires Inv(p) && i < |p.runs| && p.runs[i].stage.AwaitingClaim? && (asks ==> won)
    ensures Inv(SetRun(p.(ownedClaim := p.ownedClaim || won, claimsWon := if won then p.claimsWon + 1 else p.claimsWon,
                          secretRequests := if asks then p.secretRequests + 1 else p.secretRequests),
                       i, if asks then AwaitingSecrets else RunSettled(Rejected)))
  {}

  lemma FinishKeeps(p: Provider, k: nat, reconciled: bool)
    requires Inv(p) && k < |p.recoveries| && p.recoveries[k].RecoverySettled? && p.activeRecovery == k
    ensures Inv(Latch(p.(reconciled := reconciled), p.recoveries[k].outcome).(activeRecovery := NONE))
  {
    LatchFacts(p.(reconciled := reconciled), p.recoveries[k].outcome);
    hide Latch;
  }

  lemma ClearKeeps(p: Provider, i: nat)
    requires Inv(p) && i < |p.runs| && p.runs[i].stage.RunSettled? && p.activeRun == i
    requires p.runs[i].stage.outcome == Incomplete ==> p.incomplete
    ensures Inv(p.(activeRun := NONE))
  {}

  lemma LossKeeps(p: Provider, stranded: nat)
    requires Inv(p)
    ensures Inv(p.(stranded := stranded))
  {}

  /** Keeping track of the work inside a callback. */
  lemma ProceedOk(w: Work, e: WorkEvent)
    ensures RunWorkOk(w) ==> RunWorkOk(Proceed(w, e).0)
    ensures RecoveryWorkOk(w) && (e.Recovered? ==> !e.more) ==> RecoveryWorkOk(Proceed(w, e).0)
  {}

  // ---------------------------------------------------------------- the events

  lemma ReadStatusKeeps(p: Provider, interrupted: bool)
    requires Inv(p)
    ensures Inv(OnReadStatus(p, interrupted))
  {
    hide Inv, RecoverIfPossible;
    var q := p.(activeStatus := |p.statuses|);
    StatusesKeep(p, [], |p.statuses|);
    StatusesKeep(q, q.statuses + [StatusSettled(Fulfilled)], NONE);
    RecoverKeeps(q, interrupted);
    var (r, wait) := RecoverIfPossible(q, interrupted);
    StatusesKeep(r, r.statuses + [StatusAwaitingRecovery(wait)], NONE);
  }

  lemma ExecuteKeeps(p: Provider, runtimeOk: bool, existing: Existing, interrupted: bool)
    requires Inv(p)
    ensures Inv(OnExecute(p, runtimeOk, existing, interrupted))
  {
    RecoverKeeps(p, interrupted);
    hide RecoverIfPossible;
  }

  lemma ClosingKeeps(p: Provider, abort: Outcome)
    requires Inv(p)
    ensures Inv(OnAbort(p)) && Inv(OnBeginClosing(p, abort))
  {
    hide Inv;
    AbortKeeps(p, p.abortEpoch + 1);
    var q := p.(closingBegan := true, closing := true, abortEpoch := p.abortEpoch + 1);
    LatchKeeps(q, abort);
    AbortFailureKeeps(Latch(q, abort));
  }

  lemma ResumeRunKeeps(p: Provider, i: nat, runtimeOk: bool, existing: Existing)
    requires Inv(p)
    ensures Inv(OnResumeRun(p, i, runtimeOk, existing))
  {
    hide Inv, SetRun, Latch, Stopped;
    if i < |p.runs| && p.runs[i].stage.AwaitingRecovery? && WaitOver(p, p.runs[i].stage.wait) {
      WaitIsOver(p, i);
      hide WaitOver;
      var outcome := WaitOutcome(p, p.runs[i].stage.wait, false);
      hide WaitOutcome;
      ResumedKeeps(p, i, outcome, Resumed(outcome, Stopped(p, i), runtimeOk, existing));
    }
  }

  lemma ResumedKeeps(p: Provider, i: nat, outcome: Outcome, stage: RunStage)
    requires Inv(p) && i < |p.runs| && p.runs[i].stage.AwaitingRecovery? && !p.activeController
    requires stage.RunSettled? || (stage.AwaitingClaim? && AllRecovered(p) && !p.ownedClaim)
    ensures Inv(SetRun(Latch(p, outcome), i, stage))
  {
    hide Inv;
    LatchKeeps(p, outcome);
    SetRunKeeps(Latch(p, outcome), i, stage);
  }

  lemma ClaimKeeps(p: Provider, i: nat, won: bool, runtimeOk: bool)
    requires Inv(p)
    ensures Inv(OnClaimSettled(p, i, won, runtimeOk))
  {
    hide Inv;
    if i < |p.runs| && p.runs[i].stage.AwaitingClaim? {
      ClaimedKeeps(p, i, won, won && !Stopped(p, i) && runtimeOk);
    }
  }

  lemma SecretsKeep(p: Provider, i: nat, given: bool)
    requires Inv(p)
    ensures Inv(OnSecretsSettled(p, i, given))
  {
    hide Inv;
    if i < |p.runs| && p.runs[i].stage.AwaitingSecrets? {
      Awaits(p, i);
      SetRunKeeps(p, i, RunSettled(Rejected));
      SetRunKeeps(p, i, InBody(Acquiring(0)));
    }
  }

  lemma RunWorksKeep(p: Provider, i: nat, e: WorkEvent)
    requires Inv(p)
    ensures Inv(OnRunWorks(p, i, e))
  {
    hide Inv, Proceed, RunWorkOk, RecoveryWorkOk, AllRecovered;
    if i < |p.runs| && p.runs[i].stage.InBody? {
      Awaits(p, i);
      ProceedOk(p.runs[i].stage.work, e);
      var (work, lost) := Proceed(p.runs[i].stage.work, e);
      SetRunKeeps(p, i, InBody(work));
      LossKeeps(SetRun(p, i, InBody(work)).(activeController := work.Executing?), p.stranded + lost);
    }
  }

  lemma RunBodyEndsKeeps(p: Provider, i: nat)
    requires Inv(p)
    ensures Inv(OnRunBodyEnds(p, i))
  {
    hide Inv;
    if i < |p.runs| && p.runs[i].stage.InBody? && p.runs[i].stage.work.Cleaning? && p.runs[i].stage.work.left == 0 {
      Awaits(p, i);
      SetRunKeeps(p, i, RunSettled(p.runs[i].stage.work.outcome));
    }
  }

  lemma ClearRunKeeps(p: Provider, i: nat)
    requires Inv(p)
    ensures Inv(OnClearRun(p, i))
  {
    hide Inv;
    if i < |p.runs| && p.runs[i].stage.RunSettled? {
      var q := Latch(p, p.runs[i].stage.outcome);
      LatchKeeps(p, p.runs[i].stage.outcome);
      if p.activeRun == i { ClearKeeps(q, i); }
    }
  }

  lemma StorageSecretsKeep(p: Provider, k: nat, given: bool)
    requires Inv(p)
    ensures Inv(OnStorageSecretsSettled(p, k, given))
  {
    hide Inv;
    if k < |p.recoveries| && p.recoveries[k].AwaitingStorageSecrets? {
      SetRecoveryKeeps(p, k, InRecovery(Acquiring(0)));
      SetRecoveryKeeps(p, k, RecoverySettled(CredentialRejected));
    }
  }

  lemma InFlight(p: Provider, k: nat)
    requires Inv(p) && k < |p.recoveries| && p.recoveries[k].InRecovery?
    ensures RecoveryWorkOk(p.recoveries[k].work)
  {}

  lemma NoController(e: WorkEvent)
    ensures WithoutController(e).Recovered? ==> !WithoutController(e).more
  {}

  lemma RecoveryWorksKeep(p: Provider, k: nat, e: WorkEvent)
    requires Inv(p)
    ensures Inv(OnRecoveryWorks(p, k, e))
  {
    hide Inv, Proceed, RunWorkOk, RecoveryWorkOk, WithoutController;
    if k < |p.recoveries| && p.recoveries[k].InRecovery? {
      var f := WithoutController(e);
      NoController(e);
      InFlight(p, k);
      ProceedOk(p.recoveries[k].work, f);
      var (work, lost) := Proceed(p.recoveries[k].work, f);
      SetRecoveryKeeps(p, k, InRecovery(work));
      LossKeeps(p.(recoveries := p.recoveries[k := InRecovery(work)]), p.stranded + lost);
    }
  }

  lemma RecoveryBodyEndsKeeps(p: Provider, k: nat)
    requires Inv(p)
    ensures Inv(OnRecoveryBodyEnds(p, k))
  {
    hide Inv;
    if k < |p.recoveries| && p.recoveries[k].InRecovery? && p.recoveries[k].work.Cleaning? && p.recoveries[k].work.left == 0 {
      SetRecoveryKeeps(p, k, RecoverySettled(p.recoveries[k].work.outcome));
    }
  }

  lemma FinishRecoveryKeeps(p: Provider, k: nat)
    requires Inv(p)
    ensures Inv(OnFinishRecovery(p, k))
  {
    hide Inv;
    if k < |p.recoveries| && p.recoveries[k].RecoverySettled? && p.activeRecovery == k {
      FinishKeeps(p, k, p.reconciled || p.recoveries[k].outcome == Fulfilled);
    }
  }

  lemma ResumeStatusKeeps(p: Provider, j: nat)
    requires Inv(p)
    ensures Inv(OnResumeStatus(p, j))
  {
    hide Inv;
    if j < |p.statuses| && p.statuses[j].StatusAwaitingRecovery? && WaitOver(p, p.statuses[j].wait) {
      hide WaitOver;
      var outcome := WaitOutcome(p, p.statuses[j].wait, true);
      hide WaitOutcome;
      LatchKeeps(p, outcome);
      StatusesKeep(Latch(p, outcome), p.statuses[j := if outcome == Fulfilled then AwaitingCredential else StatusSettled(outcome)], NONE);
    }
  }

  lemma CredentialKeeps(p: Provider, j: nat, ok: bool)
    requires Inv(p)
    ensures Inv(OnCredentialSettled(p, j, ok))
  {
    hide Inv;
    if j < |p.statuses| { StatusesKeep(p, p.statuses[j := StatusSettled(if ok then Fulfilled else Rejected)], NONE); }
  }

  lemma ClearStatusKeeps(p: Provider, j: nat)
    requires Inv(p)
    ensures Inv(OnClearStatus(p, j))
  {
    hide Inv;
    if j < |p.statuses| && p.statuses[j].StatusSettled? {
      LatchKeeps(p, p.statuses[j].outcome);
      StatusesKeep(Latch(p, p.statuses[j].outcome), [], NONE);
    }
  }

  /** Every event keeps the invariant. */
  lemma StepKeeps(p: Provider, e: Event)
    requires Inv(p)
    ensures Inv(Step(p, e))
  {
    hide Inv, OnReadStatus, OnExecute, OnAbort, OnBeginClosing, OnResumeRun, OnClaimSettled, OnSecretsSettled, OnRunWorks, OnRunBodyEnds;
    hide OnClearRun, OnStorageSecretsSettled, OnRecoveryWorks, OnRecoveryBodyEnds, OnFinishRecovery, OnResumeStatus, OnCredentialSettled;
    hide OnClearStatus;
    match e
    case ReadStatus(interrupted) => ReadStatusKeeps(p, interrupted);
    case Execute(runtimeOk, existing, interrupted) => ExecuteKeeps(p, runtimeOk, existing, interrupted);
    case Abort => ClosingKeeps(p, Fulfilled);
    case BeginClosing(abort) => ClosingKeeps(p, abort);
    case ResumeRun(i, runtimeOk, existing) => ResumeRunKeeps(p, i, runtimeOk, existing);
    case ClaimSettled(i, won, runtimeOk) => ClaimKeeps(p, i, won, runtimeOk);
    case SecretsSettled(i, given) => SecretsKeep(p, i, given);
    case RunWorks(i, we) => RunWorksKeep(p, i, we);
    case RunBodyEnds(i) => RunBodyEndsKeeps(p, i);
    case ClearRun(i) => ClearRunKeeps(p, i);
    case StorageSecretsSettled(k, given) => StorageSecretsKeep(p, k, given);
    case RecoveryWorks(k, we) => RecoveryWorksKeep(p, k, we);
    case RecoveryBodyEnds(k) => RecoveryBodyEndsKeeps(p, k);
    case FinishRecovery(k) => FinishRecoveryKeeps(p, k);
    case ResumeStatus(j) => ResumeStatusKeeps(p, j);
    case CredentialSettled(j, ok) => CredentialKeeps(p, j, ok);
    case ClearStatus(j) => ClearStatusKeeps(p, j);
  }

  // ---------------------------------------------------------------- lost resources are never forgotten

  predicate BlamedWork(w: Work) { w.Cleaning? && w.outcome == Incomplete }

  predicate BlamedRun(stage: RunStage) { (stage.InBody? && BlamedWork(stage.work)) || stage == RunSettled(Incomplete) }

  predicate BlamedRecovery(stage: RecoveryStage) { (stage.InRecovery? && BlamedWork(stage.work)) || stage == RecoverySettled(Incomplete) }

  predicate Blamed(p: Provider)
  {
    || (exists i :: 0 <= i < |p.runs| && BlamedRun(p.runs[i].stage))
    || (exists k :: 0 <= k < |p.recoveries| && BlamedRecovery(p.recoveries[k]))
  }

  /** Blame is never taken back. */
  predicate KeepsBlame(p: Provider, q: Provider)
  {
    && |p.runs| <= |q.runs| && (forall i :: 0 <= i < |p.runs| && BlamedRun(p.runs[i].stage) ==> BlamedRun(q.runs[i].stage))
    && |p.recoveries| <= |q.recoveries| && (forall k :: 0 <= k < |p.recoveries| && BlamedRecovery(p.recoveries[k]) ==> BlamedRecovery(q.recoveries[k]))
  }

  lemma BlameStays(p: Provider, q: Provider)
    requires KeepsBlame(p, q) && Blamed(p)
    ensures Blamed(q)
  {
    if i :| 0 <= i < |p.runs| && BlamedRun(p.runs[i].stage) {
      assert BlamedRun(q.runs[i].stage);
    } else {
      var k :| 0 <= k < |p.recoveries| && BlamedRecovery(p.recoveries[k]);
      assert BlamedRecovery(q.recoveries[k]);
    }
  }

  /** Work that loses a resource is to blame for it, and work to blame stays so until it settles incomplete. */
  lemma LostIsBlamed(w: Work, e: WorkEvent)
    ensures Proceed(w, e).1 > 0 || BlamedWork(w) ==> BlamedWork(Proceed(w, e).0)
  {}

  lemma RunBlames(p: Provider, i: nat, e: WorkEvent)
    requires i < |p.runs| && p.runs[i].stage.InBody?
    ensures KeepsBlame(p, OnRunWorks(p, i, e))
    ensures OnRunWorks(p, i, e).stranded > p.stranded ==> Blamed(OnRunWorks(p, i, e))
  {
    LostIsBlamed(p.runs[i].stage.work, e);
    hide Proceed;
    var q := OnRunWorks(p, i, e);
    if q.stranded > p.stranded { assert BlamedRun(q.runs[i].stage); }
  }

  lemma RecoveryBlames(p: Provider, k: nat, e: WorkEvent)
    requires k < |p.recoveries| && p.recoveries[k].InRecovery?
    ensures KeepsBlame(p, OnRecoveryWorks(p, k, e))
    ensures OnRecoveryWorks(p, k, e).stranded > p.stranded ==> Blamed(OnRecoveryWorks(p, k, e))
  {
    LostIsBlamed(p.recoveries[k].work, WithoutController(e));
    hide Proceed;
    var q := OnRecoveryWorks(p, k, e);
    if q.stranded > p.stranded { assert BlamedRecovery(q.recoveries[k]); }
  }

  ghost predicate Harmless(p: Provider, q: Provider) { KeepsBlame(p, q) && q.stranded == p.stranded }

  lemma Grown(p: Provider, q: Provider)
    requires p.runs <= q.runs && p.recoveries <= q.recoveries && q.stranded == p.stranded
    ensures Harmless(p, q)
  {}

  lemma RunSet(p: Provider, q: Provider, i: nat)
    requires i < |p.runs| == |q.runs| && q.runs == p.runs[i := q.runs[i]] && q.recoveries == p.recoveries && q.stranded == p.stranded
    requires BlamedRun(p.runs[i].stage) ==> BlamedRun(q.runs[i].stage)
    ensures Harmless(p, q)
  {
    hide BlamedRun;
  }

  lemma RecoverySet(p: Provider, q: Provider, k: nat)
    requires k < |p.recoveries| == |q.recoveries| && q.recoveries == p.recoveries[k := q.recoveries[k]] && q.runs == p.runs && q.stranded == p.stranded
    requires BlamedRecovery(p.recoveries[k]) ==> BlamedRecovery(q.recoveries[k])
    ensures Harmless(p, q)
  {
    hide BlamedRecovery;
  }

  lemma ReadStatusHarmless(p: Provider, interrupted: bool)
    ensures Harmless(p, OnReadStatus(p, interrupted))
  {
    hide Harmless;
    Grown(p, OnReadStatus(p, interrupted));
  }

  lemma ExecuteHarmless(p: Provider, runtimeOk: bool, existing: Existing, interrupted: bool)
    ensures Harmless(p, OnExecute(p, runtimeOk, existing, interrupted))
  {
    hide Harmless;
    Grown(p, OnExecute(p, runtimeOk, existing, interrupted));
  }

  lemma AbortHarmless(p: Provider)
    ensures Harmless(p, OnAbort(p))
  {
    hide Harmless;
    Grown(p, OnAbort(p));
  }

  lemma BeginClosingHarmless(p: Provider, abort: Outcome)
    ensures Harmless(p, OnBeginClosing(p, abort))
  {
    hide Harmless;
    Grown(p, OnBeginClosing(p, abort));
  }

  lemma ClearRunHarmless(p: Provider, i: nat)
    ensures Harmless(p, OnClearRun(p, i))
  {
    if i < |p.runs| && p.runs[i].stage.RunSettled? { LatchFacts(p, p.runs[i].stage.outcome); }
    hide Harmless, Latch;
    Grown(p, OnClearRun(p, i));
  }

  lemma FinishRecoveryHarmless(p: Provider, k: nat)
    ensures Harmless(p, OnFinishRecovery(p, k))
  {
    if k < |p.recoveries| && p.recoveries[k].RecoverySettled? { LatchFacts(p.(reconciled := p.reconciled || p.recoveries[k].outcome == Fulfilled), p.recoveries[k].outcome); }
    hide Harmless, Latch;
    Grown(p, OnFinishRecovery(p, k));
  }

  lemma ResumeStatusHarmless(p: Provider, j: nat)
    ensures Harmless(p, OnResumeStatus(p, j))
  {
    hide WaitOver, WaitOutcome, Harmless;
    Grown(p, OnResumeStatus(p, j));
  }

  lemma CredentialSettledHarmless(p: Provider, j: nat, ok: bool)
    ensures Harmless(p, OnCredentialSettled(p, j, ok))
  {
    hide Harmless;
    Grown(p, OnCredentialSettled(p, j, ok));
  }

  lemma ClearStatusHarmless(p: Provider, j: nat)
    ensures Harmless(p, OnClearStatus(p, j))
  {
    if j < |p.statuses| && p.statuses[j].StatusSettled? { LatchFacts(p, p.statuses[j].outcome); }
    hide Harmless, Latch;
    Grown(p, OnClearStatus(p, j));
  }

  lemma ResumeRunHarmless(p: Provider, i: nat, runtimeOk: bool, existing: Existing)
    ensures Harmless(p, OnResumeRun(p, i, runtimeOk, existing))
  {
    hide WaitOver, WaitOutcome, Stopped, Harmless;
    if i < |p.runs| && p.runs[i].stage.AwaitingRecovery? { RunSet(p, OnResumeRun(p, i, runtimeOk, existing), i); } else { Grown(p, p); }
  }

  lemma ClaimSettledHarmless(p: Provider, i: nat, won: bool, runtimeOk: bool)
    ensures Harmless(p, OnClaimSettled(p, i, won, runtimeOk))
  {
    hide Stopped, Harmless;
    if i < |p.runs| && p.runs[i].stage.AwaitingClaim? { RunSet(p, OnClaimSettled(p, i, won, runtimeOk), i); } else { Grown(p, p); }
  }

  lemma SecretsSettledHarmless(p: Provider, i: nat, given: bool)
    ensures Harmless(p, OnSecretsSettled(p, i, given))
  {
    hide Stopped, Harmless;
    if i < |p.runs| && p.runs[i].stage.AwaitingSecrets? { RunSet(p, OnSecretsSettled(p, i, given), i); } else { Grown(p, p); }
  }

  lemma RunBodyEndsHarmless(p: Provider, i: nat)
    ensures Harmless(p, OnRunBodyEnds(p, i))
  {
    hide Harmless;
    if i < |p.runs| && p.runs[i].stage.InBody? { RunSet(p, OnRunBodyEnds(p, i), i); } else { Grown(p, p); }
  }

  lemma StorageSecretsSettledHarmless(p: Provider, k: nat, given: bool)
    ensures Harmless(p, OnStorageSecretsSettled(p, k, given))
  {
    hide Harmless;
    if k < |p.recoveries| && p.recoveries[k].AwaitingStorageSecrets? { RecoverySet(p, OnStorageSecretsSettled(p, k, given), k); } else { Grown(p, p); }
  }

  lemma RecoveryBodyEndsHarmless(p: Provider, k: nat)
    ensures Harmless(p, OnRecoveryBodyEnds(p, k))
  {
    hide Harmless;
    if k < |p.recoveries| && p.recoveries[k].InRecovery? { RecoverySet(p, OnRecoveryBodyEnds(p, k), k); } else { Grown(p, p); }
  }

  /** Whatever an event loses track of, some work is to blame for from then on. */
  lemma StepBlames(p: Provider, e: Event)
    ensures KeepsBlame(p, Step(p, e))
    ensures Step(p, e).stranded > p.stranded ==> Blamed(Step(p, e))
  {
    hide KeepsBlame, Blamed, OnReadStatus, OnExecute, OnAbort, OnBeginClosing, OnResumeRun, OnClaimSettled, OnSecretsSettled, OnRunBodyEnds;
    hide OnClearRun, OnStorageSecretsSettled, OnRecoveryBodyEnds, OnFinishRecovery, OnResumeStatus, OnCredentialSettled, OnClearStatus;
    match e
    case ReadStatus(interrupted) => ReadStatusHarmless(p, interrupted);
    case Execute(runtimeOk, existing, interrupted) => ExecuteHarmless(p, runtimeOk, existing, interrupted);
    case Abort => AbortHarmless(p);
    case BeginClosing(abort) => BeginClosingHarmless(p, abort);
    case ResumeRun(i, runtimeOk, existing) => ResumeRunHarmless(p, i, runtimeOk, existing);
    case ClaimSettled(i, won, runtimeOk) => ClaimSettledHarmless(p, i, won, runtimeOk);
    case SecretsSettled(i, given) => SecretsSettledHarmless(p, i, given);
    case RunWorks(i, we) =>
      if i < |p.runs| && p.runs[i].stage.InBody? { RunBlames(p, i, we); } else { NothingBlames(p); }
    case RunBodyEnds(i) => RunBodyEndsHarmless(p, i);
    case ClearRun(i) => ClearRunHarmless(p, i);
    case StorageSecretsSettled(k, given) => StorageSecretsSettledHarmless(p, k, given);
    case RecoveryWorks(k, we) =>
      if k < |p.recoveries| && p.recoveries[k].InRecovery? { RecoveryBlames(p, k, we); } else { NothingBlames(p); }
    case RecoveryBodyEnds(k) => RecoveryBodyEndsHarmless(p, k);
    case FinishRecovery(k) => FinishRecoveryHarmless(p, k);
    case ResumeStatus(j) => ResumeStatusHarmless(p, j);
    case CredentialSettled(j, ok) => CredentialSettledHarmless(p, j, ok);
    case ClearStatus(j) => ClearStatusHarmless(p, j);
  }

  lemma NothingBlames(p: Provider)
    ensures KeepsBlame(p, p)
  {}

  // ---------------------------------------------------------------- every interleaving

  ghost predicate Sound(p: Provider) { Inv(p) && (p.stranded > 0 ==> Blamed(p)) }

  lemma StepSound(p: Provider, e: Event)
    requires Sound(p)
    ensures Sound(Step(p, e))
  {
    hide Inv, Step, KeepsBlame, Blamed;
    StepKeeps(p, e);
    StepBlames(p, e);
    if Blamed(p) { BlameStays(p, Step(p, e)); }
  }

  lemma {:induction false} EveryRunSound(p: Provider, es: seq<Event>)
    requires Sound(p)
    ensures Sound(RunEvents(p, es))
  {
    hide Sound, Step;
    if es == [] {
    } else {
      EveryRunSound(p, es[..|es| - 1]);
      StepSound(RunEvents(p, es[..|es| - 1]), es[|es| - 1]);
    }
  }

  /** In every interleaving the provider asks for secrets at most once, and only after it won the claim. */
  lemma SecretsAreAskedForOnce(es: seq<Event>)
    ensures RunEvents(FRESH, es).secretRequests <= RunEvents(FRESH, es).claimsWon <= 1
  {
    FreshInv();
    EveryRunSound(FRESH, es);
    hide RunEvents;
  }

  /** In every interleaving no run is inside its secrets callback, or waits for it, while a recovery is in
      flight; at most one run and at most one recovery have not settled. */
  lemma RunsAndRecoveriesNeverOverlap(es: seq<Event>, p: Provider)
    requires p == RunEvents(FRESH, es)
    ensures forall i, k :: 0 <= i < |p.runs| && 0 <= k < |p.recoveries| && Past(p.runs[i].stage) ==> p.recoveries[k].RecoverySettled?
    ensures forall i, j :: 0 <= i < |p.runs| && 0 <= j < |p.runs| && !p.runs[i].stage.RunSettled? && !p.runs[j].stage.RunSettled? ==> i == j
    ensures forall k, l :: 0 <= k < |p.recoveries| && 0 <= l < |p.recoveries| && !p.recoveries[k].RecoverySettled? && !p.recoveries[l].RecoverySettled?
                           ==> k == l
  {
    FreshInv();
    EveryRunSound(FRESH, es);
    hide RunEvents;
  }

  /** The run was stopped before its callback began. */
  ghost predicate ShutOut(p: Provider, i: nat)
  {
    i < |p.runs| && p.runs[i].epoch <= p.abortEpoch && Stopped(p, i) && !p.runs[i].stage.InBody?
  }

  /** Asks for nothing, claims nothing, and lets nobody in who was shut out. */
  ghost predicate Quiet(p: Provider, q: Provider, i: nat)
  {
    && q.secretRequests == p.secretRequests && q.claimsWon == p.claimsWon && q.ownedClaim == p.ownedClaim
    && (ShutOut(p, i) ==> ShutOut(q, i))
  }

  lemma ReadStatusQuiet(p: Provider, r: nat, interrupted: bool)
    ensures Quiet(p, OnReadStatus(p, interrupted), r)
  {}

  lemma ExecuteQuiet(p: Provider, r: nat, runtimeOk: bool, existing: Existing, interrupted: bool)
    ensures Quiet(p, OnExecute(p, runtimeOk, existing, interrupted), r)
  {}

  lemma AbortQuiet(p: Provider, r: nat)
    ensures Quiet(p, OnAbort(p), r)
  {}

  lemma BeginClosingQuiet(p: Provider, r: nat, abort: Outcome)
    ensures Quiet(p, OnBeginClosing(p, abort), r)
  {}

  lemma ResumeRunQuiet(p: Provider, r: nat, i: nat, runtimeOk: bool, existing: Existing)
    ensures Quiet(p, OnResumeRun(p, i, runtimeOk, existing), r)
  {
    if i < |p.runs| && p.runs[i].stage.AwaitingRecovery? && WaitOver(p, p.runs[i].stage.wait) {
      LatchFacts(p, WaitOutcome(p, p.runs[i].stage.wait, false));
    }
    hide WaitOver, WaitOutcome, Latch;
  }

  lemma SecretsSettledQuiet(p: Provider, r: nat, i: nat, given: bool)
    ensures Quiet(p, OnSecretsSettled(p, i, given), r)
  {}

  lemma RunWorksQuiet(p: Provider, r: nat, i: nat, we: WorkEvent)
    ensures Quiet(p, OnRunWorks(p, i, we), r)
  {
    hide Proceed;
  }

  lemma RunBodyEndsQuiet(p: Provider, r: nat, i: nat)
    ensures Quiet(p, OnRunBodyEnds(p, i), r)
  {}

  lemma ClearRunQuiet(p: Provider, r: nat, i: nat)
    ensures Quiet(p, OnClearRun(p, i), r)
  {
    if i < |p.runs| && p.runs[i].stage.RunSettled? { LatchFacts(p, p.runs[i].stage.outcome); }
    hide Latch;
  }

  lemma StorageSecretsSettledQuiet(p: Provider, r: nat, k: nat, given: bool)
    ensures Quiet(p, OnStorageSecretsSettled(p, k, given), r)
  {}

  lemma RecoveryWorksQuiet(p: Provider, r: nat, k: nat, we: WorkEvent)
    ensures Quiet(p, OnRecoveryWorks(p, k, we), r)
  {
    hide Proceed;
  }

  lemma RecoveryBodyEndsQuiet(p: Provider, r: nat, k: nat)
    ensures Quiet(p, OnRecoveryBodyEnds(p, k), r)
  {}

  lemma FinishRecoveryQuiet(p: Provider, r: nat, k: nat)
    ensures Quiet(p, OnFinishRecovery(p, k), r)
  {
    if k < |p.recoveries| && p.recoveries[k].RecoverySettled? { LatchFacts(p.(reconciled := p.reconciled || p.recoveries[k].outcome == Fulfilled), p.recoveries[k].outcome); }
    hide Latch;
  }

  lemma ResumeStatusQuiet(p: Provider, r: nat, j: nat)
    ensures Quiet(p, OnResumeStatus(p, j), r)
  {
    hide WaitOver, WaitOutcome;
  }

  lemma CredentialSettledQuiet(p: Provider, r: nat, j: nat, ok: bool)
    ensures Quiet(p, OnCredentialSettled(p, j, ok), r)
  {}

  lemma ClearStatusQuiet(p: Provider, r: nat, j: nat)
    ensures Quiet(p, OnClearStatus(p, j), r)
  {
    if j < |p.statuses| && p.statuses[j].StatusSettled? { LatchFacts(p, p.statuses[j].outcome); }
    hide Latch;
  }

  lemma OthersQuiet(p: Provider, e: Event, i: nat)
    requires !e.ClaimSettled?
    ensures Quiet(p, Step(p, e), i)
  {
    hide Quiet, OnReadStatus, OnExecute, OnAbort, OnBeginClosing, OnResumeRun, OnClaimSettled, OnSecretsSettled, OnRunWorks, OnRunBodyEnds;
    hide OnClearRun, OnStorageSecretsSettled, OnRecoveryWorks, OnRecoveryBodyEnds, OnFinishRecovery, OnResumeStatus, OnCredentialSettled;
    hide OnClearStatus;
    match e
    case ReadStatus(interrupted) => ReadStatusQuiet(p, i, interrupted);
    case Execute(runtimeOk, existing, interrupted) => ExecuteQuiet(p, i, runtimeOk, existing, interrupted);
    case Abort => AbortQuiet(p, i);
    case BeginClosing(abort) => BeginClosingQuiet(p, i, abort);
    case ResumeRun(l, runtimeOk, existing) => ResumeRunQuiet(p, i, l, runtimeOk, existing);
    case SecretsSettled(l, given) => SecretsSettledQuiet(p, i, l, given);
    case RunWorks(l, we) => RunWorksQuiet(p, i, l, we);
    case RunBodyEnds(l) => RunBodyEndsQuiet(p, i, l);
    case ClearRun(l) => ClearRunQuiet(p, i, l);
    case StorageSecretsSettled(k, given) => StorageSecretsSettledQuiet(p, i, k, given);
    case RecoveryWorks(k, we) => RecoveryWorksQuiet(p, i, k, we);
    case RecoveryBodyEnds(k) => RecoveryBodyEndsQuiet(p, i, k);
    case FinishRecovery(k) => FinishRecoveryQuiet(p, i, k);
    case ResumeStatus(j) => ResumeStatusQuiet(p, i, j);
    case CredentialSettled(j, ok) => CredentialSettledQuiet(p, i, j, ok);
    case ClearStatus(j) => ClearStatusQuiet(p, i, j);
  }

  /** Secrets are requested only in the step in which the claim is won, by a run that nothing has stopped. */
  lemma OnlyTheClaimAsks(p: Provider, e: Event)
    ensures Step(p, e).secretRequests > p.secretRequests
            ==> && e.ClaimSettled? && e.won && e.runtimeOk && e.i < |p.runs| && !Stopped(p, e.i)
                && Step(p, e).ownedClaim && Step(p, e).claimsWon == p.claimsWon + 1
    ensures p.ownedClaim ==> Step(p, e).ownedClaim
    ensures Step(p, e).claimsWon > p.claimsWon ==> e.ClaimSettled? && e.won && Step(p, e).claimsWon == p.claimsWon + 1
  {
    if e.ClaimSettled? {
      ClaimAsks(p, e.i, e.won, e.runtimeOk);
      assert Step(p, e) == OnClaimSettled(p, e.i, e.won, e.runtimeOk);
    } else {
      OthersQuiet(p, e, 0);
    }
    hide Step, OnClaimSettled;
  }

  lemma ClaimAsks(p: Provider, i: nat, won: bool, runtimeOk: bool)
    ensures var q := OnClaimSettled(p, i, won, runtimeOk);
            && (q.secretRequests > p.secretRequests
                ==> won && runtimeOk && i < |p.runs| && !Stopped(p, i) && q.ownedClaim && q.claimsWon == p.claimsWon + 1)
            && (p.ownedClaim ==> q.ownedClaim) && (q.claimsWon > p.claimsWon ==> won && q.claimsWon == p.claimsWon + 1)
  {}

  // ---------------------------------------------------------------- abort and close

  lemma ShutOutStays(p: Provider, i: nat, e: Event)
    requires ShutOut(p, i)
    ensures ShutOut(Step(p, e), i)
  {
    if e.ClaimSettled? {
      ClaimShutsOut(p, i, e.i, e.won, e.runtimeOk);
      assert Step(p, e) == OnClaimSettled(p, e.i, e.won, e.runtimeOk);
    } else {
      OthersQuiet(p, e, i);
    }
    hide Step, OnClaimSettled, ShutOut;
  }

  lemma ClaimShutsOut(p: Provider, i: nat, j: nat, won: bool, runtimeOk: bool)
    requires ShutOut(p, i)
    ensures ShutOut(OnClaimSettled(p, j, won, runtimeOk), i)
  {}

  lemma {:induction false} ShutOutForever(p: Provider, i: nat, es: seq<Event>)
    requires ShutOut(p, i)
    ensures ShutOut(RunEvents(p, es), i)
  {
    hide ShutOut, Step;
    if es == [] {
    } else {
      ShutOutForever(p, i, es[..|es| - 1]);
      ShutOutStays(RunEvents(p, es[..|es| - 1]), i, es[|es| - 1]);
    }
  }

  /** An abort and a closing host stop every run there is. */
  lemma StopShutsOut(p: Provider, i: nat, stop: Event)
    requires Inv(p) && i < |p.runs| && !p.runs[i].stage.InBody? && (stop.Abort? || stop.BeginClosing?)
    ensures ShutOut(Step(p, stop), i)
  {
    hide RecoveriesOk, Exclusive, OneShot, WorkOk, ControllerOk;
    assert Step(p, stop) == if stop.Abort? then OnAbort(p) else OnBeginClosing(p, stop.abort);
    hide Step;
  }

  /** In every interleaving: a run that is not yet inside its callback when an abort or a close comes is never
      inside it afterwards, and so never opens anything. */
  lemma AbortedRunsOpenNothing(es: seq<Event>, stop: Event, more: seq<Event>, p: Provider, q: Provider, i: nat)
    requires p == RunEvents(FRESH, es) && i < |p.runs| && !p.runs[i].stage.InBody?
    requires (stop.Abort? || stop.BeginClosing?) && q == RunEvents(Step(p, stop), more)
    ensures i < |q.runs| && !q.runs[i].stage.InBody?
  {
    FreshInv();
    EveryRunSound(FRESH, es);
    hide RunEvents, Inv, Step, Stopped;
    StopShutsOut(p, i, stop);
    ShutOutForever(Step(p, stop), i, more);
  }
}
