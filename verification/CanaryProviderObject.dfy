/** The canary provider as the object it is: private fields that every segment between two awaits reads and
    writes (apps/cli/src/x-canary-operator-host-core.ts:264-614). Each method is one segment, and changes the
    fields exactly as the protocol's event does. */
module CanaryProviderObject {
  import opened CanaryProvider
  import opened CanaryProviderProofs
  import opened CanaryRecovery

  /** The segments of the object are the protocol's events, and each of them keeps a sound provider sound. */
  lemma SegmentsSound(p: Provider)
    requires Sound(p)
    ensures forall interrupted :: Sound(OnReadStatus(p, interrupted))
    ensures forall runtimeOk, existing, interrupted :: Sound(OnExecute(p, runtimeOk, existing, interrupted))
    ensures Sound(OnAbort(p))
    ensures forall abort :: Sound(OnBeginClosing(p, abort))
    ensures forall i, runtimeOk, existing :: Sound(OnResumeRun(p, i, runtimeOk, existing))
    ensures forall i, won, runtimeOk :: Sound(OnClaimSettled(p, i, won, runtimeOk))
    ensures forall i, given :: Sound(OnSecretsSettled(p, i, given))
    ensures forall i, e :: Sound(OnRunWorks(p, i, e))
    ensures forall i :: Sound(OnRunBodyEnds(p, i)) && Sound(OnClearRun(p, i))
    ensures forall k :: Sound(OnFinishRecovery(p, k))
  {
    hide Sound, OnReadStatus, OnExecute, OnAbort, OnBeginClosing, OnResumeRun, OnClaimSettled, OnSecretsSettled, OnRunWorks, OnRunBodyEnds,
      OnClearRun, OnStorageSecretsSettled, OnRecoveryWorks, OnRecoveryBodyEnds, OnFinishRecovery, OnResumeStatus, OnCredentialSettled, OnClearStatus;
    forall interrupted ensures Sound(OnReadStatus(p, interrupted)) { StepSound(p, Event.ReadStatus(interrupted)); }
    forall runtimeOk, existing, interrupted ensures Sound(OnExecute(p, runtimeOk, existing, interrupted)) {
      StepSound(p, Event.Execute(runtimeOk, existing, interrupted));
    }
    StepSound(p, Event.Abort);
    forall abort ensures Sound(OnBeginClosing(p, abort)) { StepSound(p, Event.BeginClosing(abort)); }
    forall i, runtimeOk, existing ensures Sound(OnResumeRun(p, i, runtimeOk, existing)) { StepSound(p, Event.ResumeRun(i, runtimeOk, existing)); }
    forall i, won, runtimeOk ensures Sound(OnClaimSettled(p, i, won, runtimeOk)) { StepSound(p, Event.ClaimSettled(i, won, runtimeOk)); }
    forall i, given ensures Sound(OnSecretsSettled(p, i, given)) { StepSound(p, Event.SecretsSettled(i, given)); }
    forall i, e ensures Sound(OnRunWorks(p, i, e)) { StepSound(p, Event.RunWorks(i, e)); }
    forall i ensures Sound(OnRunBodyEnds(p, i)) && Sound(OnClearRun(p, i)) {
      StepSound(p, Event.RunBodyEnds(i));
      StepSound(p, Event.ClearRun(i));
    }
    forall k ensures Sound(OnFinishRecovery(p, k)) { StepSound(p, Event.FinishRecovery(k)); }
  }

  lemma ClaimOutcomes(p: Provider, i: nat, won: bool, runtimeOk: bool)
    requires i < |p.runs| && p.runs[i].stage.AwaitingClaim?
    ensures !won ==> OnClaimSettled(p, i, won, runtimeOk) == SetRun(p, i, RunSettled(Rejected))
    ensures won && (Stopped(p, i) || !runtimeOk)
            ==> OnClaimSettled(p, i, won, runtimeOk) == SetRun(p.(ownedClaim := true, claimsWon := p.claimsWon + 1), i, RunSettled(Rejected))
    ensures won && !Stopped(p, i) && runtimeOk
            ==> OnClaimSettled(p, i, won, runtimeOk)
                == SetRun(p.(ownedClaim := true, claimsWon := p.claimsWon + 1, secretRequests := p.secretRequests + 1), i, AwaitingSecrets)
  {}

  lemma ClosingOutcomes(p: Provider, abort: Outcome)
    ensures p.closingBegan ==> OnBeginClosing(p, abort) == p
    ensures !p.closingBegan && !(p.activeController && abort != Fulfilled)
            ==> OnBeginClosing(p, abort) == p.(closingBegan := true, closing := true, abortEpoch := p.abortEpoch + 1)
    ensures !p.closingBegan && p.activeController && abort != Fulfilled
            ==> OnBeginClosing(p, abort)
                == Latch(p.(closingBegan := true, closing := true, abortEpoch := p.abortEpoch + 1), abort).(abortFailed := true)
  {}

  lemma FinishOutcome(p: Provider, k: nat)
    requires k < |p.recoveries| && p.recoveries[k].RecoverySettled? && p.activeRecovery == k
    ensures var outcome := p.recoveries[k].outcome;
            OnFinishRecovery(p, k) == Latch(p.(reconciled := p.reconciled || outcome == Fulfilled), outcome).(activeRecovery := NONE)
  {
    hide Latch;
  }

  lemma StatusLooks(p: Provider, interrupted: bool)
    requires Sound(p)
    ensures var q := OnReadStatus(p, interrupted);
            && RecoveryFits(p, q, Looks(p, ReadStatus(interrupted), false), Looks(p, ReadStatus(interrupted), true))
            && (!p.closing && p.activeStatus < 0 && !p.activeController
                ==> |q.statuses| == |p.statuses| + 1 && q.statuses[|p.statuses|].StatusAwaitingRecovery?
                    && WaitFits(p, interrupted, q.statuses[|p.statuses|].wait))
  {
    hide Inv, OnReadStatus, RecoveryFits, WaitFits, Looks, Idle, Blamed;
    StatusRecovers(p, interrupted);
  }

  lemma ExecuteLooks(p: Provider, runtimeOk: bool, existing: Existing, interrupted: bool)
    requires Sound(p)
    ensures var e := Execute(runtimeOk, existing, interrupted);
            var q := OnExecute(p, runtimeOk, existing, interrupted);
            && RecoveryFits(p, q, Looks(p, e, false), Looks(p, e, true))
            && (!p.closing && p.activeRun < 0 && runtimeOk && existing.NoReceipt? && !p.ownedClaim
                ==> |q.runs| == |p.runs| + 1 && q.runs[|p.runs|].stage.AwaitingRecovery? && WaitFits(p, interrupted, q.runs[|p.runs|].stage.wait))
  {
    hide Inv, OnExecute, RecoveryFits, WaitFits, Looks, Idle, Blamed;
    ExecuteRecovers(p, runtimeOk, existing, interrupted);
  }

  class ReadCanaryProvider {
    var activeController: bool
    var activeRun: int
    var activeRecovery: int
    var activeStatus: int
    var abortFailed: bool
    var abortEpoch: nat
    var closing: bool
    var closingBegan: bool
    var incomplete: bool
    var ownedClaim: bool
    var reconciled: bool
    var runs: seq<Run>
    var recoveries: seq<RecoveryStage>
    var statuses: seq<StatusStage>
    ghost var secretRequests: nat
    ghost var claimsWon: nat
    ghost var stranded: nat

    ghost function State(): Provider
      reads this
    {
      Provider(activeController, activeRun, activeRecovery, activeStatus, abortFailed, abortEpoch, closing, closingBegan, incomplete, ownedClaim,
               reconciled, runs, recoveries, statuses, secretRequests, claimsWon, stranded)
    }

    ghost predicate Valid()
      reads this
    {
      Sound(State())
    }

    constructor ()
      ensures State() == FRESH && Valid()
    {
      activeController, activeRun, activeRecovery, activeStatus := false, NONE, NONE, NONE;
      abortFailed, abortEpoch, closing, closingBegan, incomplete := false, 0, false, false, false;
      ownedClaim, reconciled, runs, recoveries, statuses := false, false, [], [], [];
      secretRequests, claimsWon, stranded := 0, 0, 0;
      new;
      FreshInv();
    }

    method LatchIncompleteCleanupError(outcome: Outcome)
      modifies this`closing, this`incomplete
      ensures State() == Latch(old(State()), outcome)
    {
      if outcome == Incomplete { closing, incomplete := true, true; }
    }

    method SetStage(i: nat, stage: RunStage)
      requires i < |runs|
      modifies this`runs
      ensures State() == SetRun(old(State()), i, stage)
    {
      runs := runs[i := runs[i].(stage := stage)];
    }

    /** The permanent marker is this provider's from here on. */
    method OwnClaim()
      modifies this`ownedClaim, this`claimsWon
      ensures State() == old(State()).(ownedClaim := true, claimsWon := old(claimsWon) + 1)
    {
      ownedClaim, claimsWon := true, claimsWon + 1;
    }

    method AskForSecrets()
      modifies this`secretRequests
      ensures State() == old(State()).(secretRequests := old(secretRequests) + 1)
    {
      secretRequests := secretRequests + 1;
    }

    method Reconcile(fulfilled: bool)
      modifies this`reconciled
      ensures State() == old(State()).(reconciled := old(reconciled) || fulfilled)
    {
      reconciled := reconciled || fulfilled;
    }

    /** A new status promise. */
    method MakeStatus(stage: StatusStage)
      modifies this`statuses
      ensures State() == old(State()).(statuses := old(statuses) + [stage])
    {
      statuses := statuses + [stage];
    }

    method StopAdmitting()
      modifies this`closingBegan, this`closing, this`abortEpoch
      ensures State() == old(State()).(closingBegan := true, closing := true, abortEpoch := old(abortEpoch) + 1)
      ensures closing
    {
      closingBegan, closing := true, true;
      abortEpoch := abortEpoch + 1;
    }

    method RememberAbortFailure(abort: Outcome)
      modifies this`closing, this`incomplete, this`abortFailed
      ensures State() == Latch(old(State()), abort).(abortFailed := true)
    {
      LatchIncompleteCleanupError(abort);
      abortFailed := true;
    }

    /** Up to its first await; the caller waits for what is returned. */
    method RecoverInterruptedIfPossible(interrupted: bool) returns (wait: Wait)
      modifies this`reconciled, this`recoveries, this`activeRecovery
      ensures (State(), wait) == RecoverIfPossible(old(State()), interrupted)
      ensures WaitFits(old(State()), interrupted, wait)
      ensures RecoveryFits(old(State()), State(), Idle(old(State())) && !interrupted, Idle(old(State())) && interrupted)
    {
      if activeController || ownedClaim { return NoWait; }
      if activeRecovery >= 0 { return WaitFor(activeRecovery, false); }
      if activeRun >= 0 || reconciled { return NoWait; }
      if !interrupted {
        reconciled := true;
        return NoWait;
      }
      wait := WaitFor(|recoveries|, true);
      activeRecovery := |recoveries|;
      recoveries := recoveries + [AwaitingStorageSecrets];
    }

    /** The status promise that is shared, or made; none while closing. */
    method GetReadCanaryProjection(interrupted: bool) returns (status: int)
      requires Valid()
      modifies this`activeStatus, this`statuses, this`reconciled, this`recoveries, this`activeRecovery
      ensures Valid() && State() == OnReadStatus(old(State()), interrupted)
      ensures status == if old(closing) then NONE else activeStatus
      ensures var asked := ReadStatus(interrupted); RecoveryFits(old(State()), State(), Looks(old(State()), asked, false), Looks(old(State()), asked, true))
      ensures !old(closing) && old(activeStatus) < 0 && !old(activeController)
              ==> 0 <= status < |statuses| && statuses[status].StatusAwaitingRecovery? && WaitFits(old(State()), interrupted, statuses[status].wait)
    {
      hide Sound, RecoverIfPossible, RecoveryFits, WaitFits, Looks, Idle;
      StatusLooks(State(), interrupted);
      assert Sound(OnReadStatus(State(), interrupted)) by { SegmentsSound(State()); }
      if closing { return NONE; }
      if activeStatus >= 0 { return activeStatus; }
      status := |statuses|;
      activeStatus := status;
      if activeController {
        MakeStatus(StatusSettled(Fulfilled));
      } else {
        var wait := RecoverInterruptedIfPossible(interrupted);
        MakeStatus(StatusAwaitingRecovery(wait));
      }
    }

    /** The run that is started; none if it is refused or its receipt is already there. */
    method ExecuteReadCanary(runtimeOk: bool, existing: Existing, interrupted: bool) returns (run: int)
      requires Valid()
      modifies this`runs, this`activeRun, this`reconciled, this`recoveries, this`activeRecovery
      ensures Valid() && State() == OnExecute(old(State()), runtimeOk, existing, interrupted)
      ensures run >= 0 <==> !old(closing) && old(activeRun) < 0 && runtimeOk && existing.NoReceipt? && !old(ownedClaim)
      ensures run >= 0 ==> run == activeRun && !runs[run].stage.RunSettled?
      ensures var asked := Execute(runtimeOk, existing, interrupted);
              RecoveryFits(old(State()), State(), Looks(old(State()), asked, false), Looks(old(State()), asked, true))
      ensures run >= 0 ==> runs[run].stage.AwaitingRecovery? && WaitFits(old(State()), interrupted, runs[run].stage.wait)
    {
      hide Sound, RecoverIfPossible, RecoveryFits, WaitFits, Looks, Idle;
      ExecuteLooks(State(), runtimeOk, existing, interrupted);
      assert Sound(OnExecute(State(), runtimeOk, existing, interrupted)) by { SegmentsSound(State()); }
      if closing || activeRun >= 0 || !runtimeOk || !existing.NoReceipt? || ownedClaim { return NONE; }
      var epoch := abortEpoch;
      var wait := RecoverInterruptedIfPossible(interrupted);
      run := |runs|;
      runs := runs + [Run(epoch, AwaitingRecovery(wait))];
      activeRun := run;
    }

    method AbortActive()
      requires Valid()
      modifies this`abortEpoch
      ensures Valid() && State() == OnAbort(old(State()))
    {
      hide Sound;
      assert Sound(OnAbort(State())) by { SegmentsSound(State()); }
      abortEpoch := abortEpoch + 1;
    }

    method BeginClosing(abort: Outcome)
      requires Valid()
      modifies this`closingBegan, this`closing, this`abortEpoch, this`abortFailed, this`incomplete
      ensures Valid() && State() == OnBeginClosing(old(State()), abort)
    {
      ghost var was := State();
      assert Sound(OnBeginClosing(was, abort)) by { SegmentsSound(was); }
      ClosingOutcomes(was, abort);
      hide Sound, Latch, OnBeginClosing;
      ghost var closed := OnBeginClosing(was, abort);
      if closingBegan { return; }
      StopAdmitting();
      assert activeController == was.activeController;
      if activeController && abort != Fulfilled {
        RememberAbortFailure(abort);
        assert State() == closed;
      } else {
        assert State() == closed;
      }
    }

    /** Behind the recovery: stop, return the receipt, or go for the claim. */
    method ResumeRun(i: nat, runtimeOk: bool, existing: Existing)
      requires Valid() && i < |runs| && runs[i].stage.AwaitingRecovery? && WaitOver(State(), runs[i].stage.wait)
      modifies this`closing, this`incomplete, this`runs
      ensures Valid() && State() == OnResumeRun(old(State()), i, runtimeOk, existing)
    {
      hide Sound, Latch;
      assert Sound(OnResumeRun(State(), i, runtimeOk, existing)) by { SegmentsSound(State()); }
      var outcome := Fulfilled;
      if runs[i].stage.wait.WaitFor? { outcome := recoveries[runs[i].stage.wait.recovery].outcome; }
      var stopped := closing || abortEpoch != runs[i].epoch;
      LatchIncompleteCleanupError(outcome);
      var stage := AwaitingClaim;
      if outcome != Fulfilled {
        stage := RunSettled(outcome);
      } else if stopped || existing.OtherRequest? {
        stage := RunSettled(Rejected);
      } else if existing.SameRequest? {
        stage := RunSettled(Fulfilled);
      } else if !runtimeOk {
        stage := RunSettled(Rejected);
      }
      assert stage == Resumed(outcome, stopped, runtimeOk, existing);
      hide Resumed;
      SetStage(i, stage);
    }

    /** Behind the claim: the claim is owned for good, and secrets are asked for unless something stopped the run. */
    method SettleClaim(i: nat, won: bool, runtimeOk: bool) returns (asks: bool)
      requires Valid() && i < |runs| && runs[i].stage.AwaitingClaim?
      modifies this`ownedClaim, this`claimsWon, this`secretRequests, this`runs
      ensures Valid() && State() == OnClaimSettled(old(State()), i, won, runtimeOk)
      ensures asks ==> won && runtimeOk && !old(closing) && old(abortEpoch) == old(runs)[i].epoch
      ensures secretRequests == old(secretRequests) + if asks then 1 else 0
      ensures won ==> ownedClaim
    {
      ghost var was := State();
      ghost var settled := OnClaimSettled(was, i, won, runtimeOk);
      ClaimOutcomes(was, i, won, runtimeOk);
      hide Sound, OnClaimSettled, SetRun;
      assert Sound(OnClaimSettled(was, i, won, runtimeOk)) by { SegmentsSound(was); }
      asks := false;
      if !won {
        SetStage(i, RunSettled(Rejected));
        assert State() == settled;
        return;
      }
      OwnClaim();
      if closing || abortEpoch != runs[i].epoch || !runtimeOk {
        SetStage(i, RunSettled(Rejected));
        assert State() == settled;
        return;
      }
      asks := true;
      AskForSecrets();
      SetStage(i, AwaitingSecrets);
      assert State() == settled;
    }

    /** The secrets callback begins, unless the run was stopped meanwhile. */
    method ReceiveSecrets(i: nat, given: bool)
      requires Valid() && i < |runs| && runs[i].stage.AwaitingSecrets?
      modifies this`runs
      ensures Valid() && State() == OnSecretsSettled(old(State()), i, given)
    {
      hide Sound;
      assert Sound(OnSecretsSettled(State(), i, given)) by { SegmentsSound(State()); }
      var stage := if given && !closing && abortEpoch == runs[i].epoch then InBody(Acquiring(0)) else RunSettled(Rejected);
      SetStage(i, stage);
    }

    /** One step inside the run's callback. */
    method WorkOnRun(i: nat, e: WorkEvent)
      requires Valid() && i < |runs| && runs[i].stage.InBody?
      modifies this`activeController, this`stranded, this`runs
      ensures Valid() && State() == OnRunWorks(old(State()), i, e)
    {
      hide Sound;
      assert Sound(OnRunWorks(State(), i, e)) by { SegmentsSound(State()); }
      var (work, lost) := Proceed(runs[i].stage.work, e);
      activeController := work.Executing?;
      stranded := stranded + lost;
      SetStage(i, InBody(work));
    }

    method EndRunBody(i: nat)
      requires Valid() && i < |runs| && runs[i].stage.InBody? && runs[i].stage.work.Cleaning? && runs[i].stage.work.left == 0
      modifies this`runs
      ensures Valid() && State() == OnRunBodyEnds(old(State()), i)
    {
      hide Sound;
      assert Sound(OnRunBodyEnds(State(), i)) by { SegmentsSound(State()); }
      SetStage(i, RunSettled(runs[i].stage.work.outcome));
    }

    method ClearRun(i: nat)
      requires Valid() && i < |runs| && runs[i].stage.RunSettled?
      modifies this`closing, this`incomplete, this`activeRun
      ensures Valid() && State() == OnClearRun(old(State()), i)
    {
      hide Sound, Latch;
      assert Sound(OnClearRun(State(), i)) by { SegmentsSound(State()); }
      LatchIncompleteCleanupError(runs[i].stage.outcome);
      if activeRun == i { activeRun := NONE; }
    }

    /** The starter of a recovery, behind its await. */
    method FinishRecovery(k: nat)
      requires Valid() && k < |recoveries| && recoveries[k].RecoverySettled? && activeRecovery == k
      modifies this`closing, this`incomplete, this`reconciled, this`activeRecovery
      ensures Valid() && State() == OnFinishRecovery(old(State()), k)
    {
      hide Sound, Latch, OnFinishRecovery;
      assert Sound(OnFinishRecovery(State(), k)) by { SegmentsSound(State()); }
      ghost var was := State();
      FinishOutcome(was, k);
      Reconcile(recoveries[k].outcome == Fulfilled);
      LatchIncompleteCleanupError(recoveries[k].outcome);
      activeRecovery := NONE;
    }
  }
}
