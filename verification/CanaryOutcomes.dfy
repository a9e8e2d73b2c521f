/** How the promises of the canary provider settle: over every interleaving, a run, a recovery or a status read is
    fulfilled exactly if nothing went wrong for it, and a run or a recovery ends with an incomplete cleanup exactly if
    something was lost (apps/cli/src/x-canary-operator-host-core.ts:298-614). */
module CanaryOutcomes {
  import opened CanaryProvider
  import opened CanaryProviderProofs

  // ---------------------------------------------------------------- what can go wrong

  /** A step of the work that fails. */
  predicate WorkFails(w: Work, e: WorkEvent)
  {
    match w
    case Acquiring(_) => e == AcquisitionFailed
    case Recovering => e.Recovered? && !e.more && !e.ok
    case Executing => e == Executed(false)
    case Cleaning(left, _) => left > 0 && e == Closed(false)
  }

  /** A step of the work that leaves something open for good. */
  predicate WorkLoses(w: Work, e: WorkEvent)
  {
    (w.Acquiring? && e == AcquisitionFailed) || (w.Cleaning? && w.left > 0 && e == Closed(false))
  }

  /** How what is waited for ended. */
  function Awaited(p: Provider, wait: Wait): Outcome
  {
    if wait.WaitFor? && wait.recovery < |p.recoveries| && p.recoveries[wait.recovery].RecoverySettled? then p.recoveries[wait.recovery].outcome
    else Fulfilled
  }

  predicate Interrupted(p: Provider, i: nat)
    requires i < |p.runs|
  {
    p.closing || p.abortEpoch != p.runs[i].epoch
  }

  /** The event goes wrong for the i-th run: its recovery failed, it was stopped, another request has the receipt, the
      runtime changed, the claim or the secrets were not given, or its work failed. */
  predicate RunGoesWrong(p: Provider, e: Event, i: nat)
  {
    && i < |p.runs|
    && var stage := p.runs[i].stage;
       match e
       case ResumeRun(j, runtimeOk, existing) =>
         && j == i && stage.AwaitingRecovery? && WaitOver(p, stage.wait)
         && (Awaited(p, stage.wait) != Fulfilled || Interrupted(p, i) || existing.OtherRequest? || (existing.NoReceipt? && !runtimeOk))
       case ClaimSettled(j, won, runtimeOk) => j == i && stage.AwaitingClaim? && (!won || Interrupted(p, i) || !runtimeOk)
       case SecretsSettled(j, given) => j == i && stage.AwaitingSecrets? && (!given || Interrupted(p, i))
       case RunWorks(j, we) => j == i && stage.InBody? && WorkFails(stage.work, we)
       case _ => false
  }

  /** The event loses something for the i-th run, or tells it that its recovery did. */
  predicate RunLoses(p: Provider, e: Event, i: nat)
  {
    && i < |p.runs|
    && var stage := p.runs[i].stage;
       match e
       case ResumeRun(j, _, _) => j == i && stage.AwaitingRecovery? && WaitOver(p, stage.wait) && Awaited(p, stage.wait) == Incomplete
       case RunWorks(j, we) => j == i && stage.InBody? && WorkLoses(stage.work, we)
       case _ => false
  }

  predicate RecoveryGoesWrong(p: Provider, e: Event, k: nat)
  {
    && k < |p.recoveries|
    && match e
       case StorageSecretsSettled(l, given) => l == k && p.recoveries[k].AwaitingStorageSecrets? && !given
       case RecoveryWorks(l, we) =>
         l == k && p.recoveries[k].InRecovery? && (WorkFails(p.recoveries[k].work, we) || (p.recoveries[k].work.Recovering? && we.Recovered? && !we.ok))
       case _ => false
  }

  predicate RecoveryLoses(p: Provider, e: Event, k: nat)
  {
    k < |p.recoveries| && e.RecoveryWorks? && e.k == k && p.recoveries[k].InRecovery? && WorkLoses(p.recoveries[k].work, e.e)
  }

  /** A status read goes wrong if its recovery failed for any reason but credentials, or the credential check did. */
  predicate StatusGoesWrong(p: Provider, e: Event, j: nat)
  {
    && j < |p.statuses|
    && match e
       case ResumeStatus(l) =>
         && l == j && p.statuses[j].StatusAwaitingRecovery? && WaitOver(p, p.statuses[j].wait)
         && Awaited(p, p.statuses[j].wait) in {Rejected, Incomplete}
       case CredentialSettled(l, ok) => l == j && p.statuses[j].AwaitingCredential? && !ok
       case _ => false
  }

  // ---------------------------------------------------------------- how it shows

  predicate WorkFine(w: Work) { w.Cleaning? ==> w.outcome == Fulfilled }

  predicate WorkLossy(w: Work) { w.Cleaning? && w.outcome == Incomplete }

  predicate RunFine(stage: RunStage)
  {
    match stage
    case InBody(work) => WorkFine(work)
    case RunSettled(outcome) => outcome == Fulfilled
    case _ => true
  }

  predicate RunLossy(stage: RunStage) { (stage.InBody? && WorkLossy(stage.work)) || stage == RunSettled(Incomplete) }

  predicate RecoveryFine(stage: RecoveryStage)
  {
    match stage
    case AwaitingStorageSecrets => true
    case InRecovery(work) => WorkFine(work)
    case RecoverySettled(outcome) => outcome == Fulfilled
  }

  predicate RecoveryLossy(stage: RecoveryStage) { (stage.InRecovery? && WorkLossy(stage.work)) || stage == RecoverySettled(Incomplete) }

  predicate StatusFine(stage: StatusStage) { stage.StatusSettled? ==> stage.outcome == Fulfilled }

  lemma WorkShows(w: Work, e: WorkEvent)
    ensures WorkFine(Proceed(w, e).0) <==> WorkFine(w) && !WorkFails(w, e)
    ensures WorkLossy(Proceed(w, e).0) <==> WorkLossy(w) || WorkLoses(w, e)
  {}

  lemma RecoveryWorkShows(w: Work, e: WorkEvent)
    ensures WorkFine(Proceed(w, WithoutController(e)).0) <==> WorkFine(w) && !WorkFails(w, e) && !(w.Recovering? && e.Recovered? && !e.ok)
    ensures WorkLossy(Proceed(w, WithoutController(e)).0) <==> WorkLossy(w) || WorkLoses(w, e)
  {}

  // ---------------------------------------------------------------- one event

  /** What one event makes of the i-th run. */
  predicate RunShows(p: Provider, q: Provider, e: Event, i: nat)
  {
    && i < |q.runs|
    && (i < |p.runs| ==> (RunFine(q.runs[i].stage) <==> RunFine(p.runs[i].stage) && !RunGoesWrong(p, e, i))
                         && (RunLossy(q.runs[i].stage) <==> RunLossy(p.runs[i].stage) || RunLoses(p, e, i)))
    && (i >= |p.runs| ==> RunFine(q.runs[i].stage) && !RunLossy(q.runs[i].stage))
  }

  lemma RunSetShows(p: Provider, q: Provider, e: Event, j: nat, i: nat)
    requires |q.runs| == |p.runs| && i < |q.runs| && (j < |p.runs| ==> q.runs == p.runs[j := q.runs[j]]) && (j >= |p.runs| ==> q.runs == p.runs)
    requires i != j ==> !RunGoesWrong(p, e, i) && !RunLoses(p, e, i)
    requires i == j ==> RunShows(p, q, e, i)
    ensures RunShows(p, q, e, i)
  {
    hide RunGoesWrong, RunLoses, RunFine, RunLossy;
    if i != j { assert q.runs[i] == p.runs[i]; }
  }

  lemma ResumeStage(p: Provider, i: nat, runtimeOk: bool, existing: Existing)
    requires i < |p.runs|
    ensures var (q, stage) := (OnResumeRun(p, i, runtimeOk, existing), p.runs[i].stage);
            && i < |q.runs|
            && q.runs[i].stage == if stage.AwaitingRecovery? && WaitOver(p, stage.wait)
                                  then Resumed(Awaited(p, stage.wait), Interrupted(p, i), runtimeOk, existing) else stage
  {
    hide Resumed;
    if p.runs[i].stage.AwaitingRecovery? && WaitOver(p, p.runs[i].stage.wait) { AwaitedIs(p, p.runs[i].stage.wait); }
    hide WaitOver, WaitOutcome, Awaited;
  }

  lemma AwaitedIs(p: Provider, wait: Wait)
    requires WaitOver(p, wait)
    ensures Awaited(p, wait) == WaitOutcome(p, wait, false)
    ensures WaitOutcome(p, wait, true) == if Awaited(p, wait) == CredentialRejected then Fulfilled else Awaited(p, wait)
  {}

  lemma OwnResumeShows(p: Provider, i: nat, runtimeOk: bool, existing: Existing)
    requires i < |p.runs|
    ensures RunShows(p, OnResumeRun(p, i, runtimeOk, existing), ResumeRun(i, runtimeOk, existing), i)
  {
    ResumeStage(p, i, runtimeOk, existing);
    hide OnResumeRun, WaitOver, Awaited, Interrupted;
  }

  lemma ResumeShows(p: Provider, e: Event, i: nat)
    requires e.ResumeRun? && i < |Step(p, e).runs|
    ensures RunShows(p, Step(p, e), e, i)
  {
    ResumeKeepsRuns(p, e.i, e.runtimeOk, e.existing);
    hide RunShows, WaitOver, OnResumeRun;
    if e.i == i { OwnResumeShows(p, i, e.runtimeOk, e.existing); }
    RunSetShows(p, Step(p, e), e, e.i, i);
  }

  lemma ResumeKeepsRuns(p: Provider, i: nat, runtimeOk: bool, existing: Existing)
    ensures var q := OnResumeRun(p, i, runtimeOk, existing);
            |q.runs| == |p.runs| && if i < |p.runs| then q.runs == p.runs[i := q.runs[i]] else q.runs == p.runs
  {
    hide WaitOver, WaitOutcome, Resumed, Stopped;
  }

  lemma ClaimStage(p: Provider, i: nat, won: bool, runtimeOk: bool)
    requires i < |p.runs|
    ensures var (q, stage) := (OnClaimSettled(p, i, won, runtimeOk), p.runs[i].stage);
            && i < |q.runs|
            && q.runs[i].stage == if !stage.AwaitingClaim? then stage
                                  else if won && !Stopped(p, i) && runtimeOk then AwaitingSecrets else RunSettled(Rejected)
  {
    hide Stopped;
  }

  lemma OwnClaimShows(p: Provider, i: nat, won: bool, runtimeOk: bool)
    requires i < |p.runs|
    ensures RunShows(p, OnClaimSettled(p, i, won, runtimeOk), ClaimSettled(i, won, runtimeOk), i)
  {
    hide OnClaimSettled;
    ClaimStage(p, i, won, runtimeOk);
  }

  lemma SecretsStage(p: Provider, i: nat, given: bool)
    requires i < |p.runs|
    ensures var (q, stage) := (OnSecretsSettled(p, i, given), p.runs[i].stage);
            && i < |q.runs|
            && q.runs[i].stage == if !stage.AwaitingSecrets? then stage
                                  else if !given || Stopped(p, i) then RunSettled(Rejected) else InBody(Acquiring(0))
  {
    hide Stopped;
  }

  lemma OwnSecretsShow(p: Provider, i: nat, given: bool)
    requires i < |p.runs|
    ensures RunShows(p, OnSecretsSettled(p, i, given), SecretsSettled(i, given), i)
  {
    hide OnSecretsSettled;
    SecretsStage(p, i, given);
  }

  lemma ClaimKeepsRuns(p: Provider, i: nat, won: bool, runtimeOk: bool)
    ensures var q := OnClaimSettled(p, i, won, runtimeOk);
            |q.runs| == |p.runs| && if i < |p.runs| then q.runs == p.runs[i := q.runs[i]] else q.runs == p.runs
  {
    hide Stopped;
  }

  lemma SecretsKeepRuns(p: Provider, i: nat, given: bool)
    ensures var q := OnSecretsSettled(p, i, given);
            |q.runs| == |p.runs| && if i < |p.runs| then q.runs == p.runs[i := q.runs[i]] else q.runs == p.runs
  {
    hide Stopped;
  }

  lemma ClaimShows(p: Provider, e: Event, i: nat)
    requires (e.ClaimSettled? || e.SecretsSettled?) && i < |Step(p, e).runs|
    ensures RunShows(p, Step(p, e), e, i)
  {
    hide RunShows, OnClaimSettled, OnSecretsSettled;
    if e.ClaimSettled? {
      ClaimKeepsRuns(p, e.i, e.won, e.runtimeOk);
      if e.i == i { OwnClaimShows(p, i, e.won, e.runtimeOk); }
    } else {
      SecretsKeepRuns(p, e.i, e.given);
      if e.i == i { OwnSecretsShow(p, i, e.given); }
    }
    RunSetShows(p, Step(p, e), e, e.i, i);
  }

  lemma RunWorkShows(p: Provider, e: Event, i: nat)
    requires e.RunWorks? && i < |Step(p, e).runs|
    ensures RunShows(p, Step(p, e), e, i)
  {
    hide Proceed, WorkFine, WorkFails, WorkLossy, WorkLoses;
    if e.i < |p.runs| && p.runs[e.i].stage.InBody? { WorkShows(p.runs[e.i].stage.work, e.e); }
    NotCleaning();
  }

  lemma NotCleaning()
    ensures WorkFine(Acquiring(0)) && !WorkLossy(Acquiring(0))
  {}

  lemma EndStage(p: Provider, i: nat)
    requires i < |p.runs|
    ensures var (q, stage) := (OnRunBodyEnds(p, i), p.runs[i].stage);
            && i < |q.runs|
            && q.runs[i].stage == if stage.InBody? && stage.work.Cleaning? && stage.work.left == 0 then RunSettled(stage.work.outcome) else stage
  {}

  lemma OwnEndShows(p: Provider, i: nat)
    requires i < |p.runs|
    ensures RunShows(p, OnRunBodyEnds(p, i), RunBodyEnds(i), i)
  {
    hide OnRunBodyEnds;
    EndStage(p, i);
  }

  lemma EndKeepsRuns(p: Provider, i: nat)
    ensures var q := OnRunBodyEnds(p, i); |q.runs| == |p.runs| && if i < |p.runs| then q.runs == p.runs[i := q.runs[i]] else q.runs == p.runs
    ensures OnClearRun(p, i).runs == p.runs
  {}

  lemma RunEndShows(p: Provider, e: Event, i: nat)
    requires (e.RunBodyEnds? || e.ClearRun?) && i < |Step(p, e).runs|
    ensures RunShows(p, Step(p, e), e, i)
  {
    EndKeepsRuns(p, e.i);
    hide OnRunBodyEnds, OnClearRun;
    if e.RunBodyEnds? {
      hide RunShows;
      if e.i == i { OwnEndShows(p, i); }
      RunSetShows(p, Step(p, e), e, e.i, i);
    }
  }

  lemma EntryShows(p: Provider, e: Event, i: nat)
    requires (e.ReadStatus? || e.Execute?) && i < |Step(p, e).runs|
    ensures RunShows(p, Step(p, e), e, i)
  {}

  lemma StopKeepsRuns(p: Provider, abort: Outcome, k: nat, given: bool, we: WorkEvent)
    ensures OnAbort(p).runs == p.runs && OnBeginClosing(p, abort).runs == p.runs
    ensures OnStorageSecretsSettled(p, k, given).runs == p.runs && OnRecoveryWorks(p, k, we).runs == p.runs
  {
    hide Proceed, WithoutController;
  }

  lemma EndsKeepRuns(p: Provider, k: nat)
    ensures OnRecoveryBodyEnds(p, k).runs == p.runs
    ensures OnFinishRecovery(p, k).runs == p.runs
  {}

  lemma CredentialKeepsRuns(p: Provider, j: nat, ok: bool)
    ensures OnCredentialSettled(p, j, ok).runs == p.runs
    ensures OnClearStatus(p, j).runs == p.runs
  {}

  lemma StatusKeepsRuns(p: Provider, j: nat)
    ensures OnResumeStatus(p, j).runs == p.runs
  {
    hide WaitOver, WaitOutcome;
  }

  lemma OthersShow(p: Provider, e: Event, i: nat)
    requires e.Abort? || e.BeginClosing? || e.StorageSecretsSettled? || e.RecoveryWorks? || e.RecoveryBodyEnds? || e.FinishRecovery?
             || e.ResumeStatus? || e.CredentialSettled? || e.ClearStatus?
    requires i < |Step(p, e).runs|
    ensures RunShows(p, Step(p, e), e, i)
  {
    hide OnAbort, OnBeginClosing, OnStorageSecretsSettled, OnRecoveryWorks, OnRecoveryBodyEnds, OnFinishRecovery, OnResumeStatus, OnCredentialSettled,
      OnClearStatus, RunFine, RunLossy;
    match e
    case Abort => StopKeepsRuns(p, Fulfilled, 0, true, Acquired);
    case BeginClosing(abort) => StopKeepsRuns(p, abort, 0, true, Acquired);
    case StorageSecretsSettled(k, given) => StopKeepsRuns(p, Fulfilled, k, given, Acquired);
    case RecoveryWorks(k, we) => StopKeepsRuns(p, Fulfilled, k, true, we);
    case RecoveryBodyEnds(k) => EndsKeepRuns(p, k);
    case FinishRecovery(k) => EndsKeepRuns(p, k);
    case CredentialSettled(j, ok) => CredentialKeepsRuns(p, j, ok);
    case ClearStatus(j) => CredentialKeepsRuns(p, j, true);
    case ResumeStatus(j) => StatusKeepsRuns(p, j);
  }

  lemma RunStepShows(p: Provider, e: Event, i: nat)
    requires i < |Step(p, e).runs|
    ensures RunShows(p, Step(p, e), e, i)
  {
    hide Step, RunShows;
    match e
    case ReadStatus(_) => EntryShows(p, e, i);
    case Execute(_, _, _) => EntryShows(p, e, i);
    case ResumeRun(_, _, _) => ResumeShows(p, e, i);
    case ClaimSettled(_, _, _) => ClaimShows(p, e, i);
    case SecretsSettled(_, _) => ClaimShows(p, e, i);
    case RunWorks(_, _) => RunWorkShows(p, e, i);
    case RunBodyEnds(_) => RunEndShows(p, e, i);
    case ClearRun(_) => RunEndShows(p, e, i);
    case _ => OthersShow(p, e, i);
  }

  /** What one event makes of the k-th recovery. */
  predicate RecoveryShows(p: Provider, q: Provider, e: Event, k: nat)
  {
    && k < |q.recoveries|
    && (k < |p.recoveries| ==> (RecoveryFine(q.recoveries[k]) <==> RecoveryFine(p.recoveries[k]) && !RecoveryGoesWrong(p, e, k))
                               && (RecoveryLossy(q.recoveries[k]) <==> RecoveryLossy(p.recoveries[k]) || RecoveryLoses(p, e, k)))
    && (k >= |p.recoveries| ==> RecoveryFine(q.recoveries[k]) && !RecoveryLossy(q.recoveries[k]))
  }

  lemma StorageStage(p: Provider, l: nat, given: bool, k: nat)
    requires k < |p.recoveries|
    ensures var q := OnStorageSecretsSettled(p, l, given);
            && k < |q.recoveries| == |p.recoveries|
            && q.recoveries[k] == if l == k && p.recoveries[k].AwaitingStorageSecrets?
                                  then (if given then InRecovery(Acquiring(0)) else RecoverySettled(CredentialRejected)) else p.recoveries[k]
  {}

  lemma RecoveryWorkStage(p: Provider, l: nat, e: WorkEvent, k: nat)
    requires k < |p.recoveries|
    ensures var q := OnRecoveryWorks(p, l, e);
            && k < |q.recoveries| == |p.recoveries|
            && q.recoveries[k] == if l == k && p.recoveries[k].InRecovery?
                                  then InRecovery(Proceed(p.recoveries[k].work, WithoutController(e)).0) else p.recoveries[k]
  {
    hide Proceed, WithoutController;
  }

  lemma RecoveryEndStage(p: Provider, l: nat, k: nat)
    requires k < |p.recoveries|
    ensures var (q, stage) := (OnRecoveryBodyEnds(p, l), p.recoveries[k]);
            && k < |q.recoveries| == |p.recoveries|
            && q.recoveries[k] == if l == k && stage.InRecovery? && stage.work.Cleaning? && stage.work.left == 0
                                  then RecoverySettled(stage.work.outcome) else stage
  {}

  lemma RecoveryWorkStepShows(p: Provider, e: Event, k: nat)
    requires (e.StorageSecretsSettled? || e.RecoveryWorks? || e.RecoveryBodyEnds?) && k < |Step(p, e).recoveries|
    requires k < |p.recoveries|
    ensures RecoveryShows(p, Step(p, e), e, k)
  {
    hide OnStorageSecretsSettled, OnRecoveryWorks, OnRecoveryBodyEnds, Proceed, WithoutController, WorkFails, WorkLoses;
    match e
    case StorageSecretsSettled(l, given) => StorageStage(p, l, given, k);
    case RecoveryWorks(l, we) =>
      RecoveryWorkStage(p, l, we, k);
      if p.recoveries[k].InRecovery? {
        RecoveryWorkShows(p.recoveries[k].work, we);
        hide WorkFine, WorkLossy;
      }
    case RecoveryBodyEnds(l) => RecoveryEndStage(p, l, k);
  }

  lemma ResumeKeeps(p: Provider, i: nat, runtimeOk: bool, existing: Existing, j: nat)
    ensures OnResumeRun(p, i, runtimeOk, existing).recoveries == p.recoveries && OnResumeRun(p, i, runtimeOk, existing).statuses == p.statuses
    ensures OnResumeStatus(p, j).recoveries == p.recoveries
  {
    hide WaitOver, WaitOutcome, Resumed, Stopped;
  }

  lemma ClaimKeepsRest(p: Provider, i: nat, won: bool, runtimeOk: bool)
    ensures OnClaimSettled(p, i, won, runtimeOk).recoveries == p.recoveries && OnClaimSettled(p, i, won, runtimeOk).statuses == p.statuses
  {
    hide Stopped;
  }

  lemma SecretsKeepRest(p: Provider, i: nat, given: bool)
    ensures OnSecretsSettled(p, i, given).recoveries == p.recoveries && OnSecretsSettled(p, i, given).statuses == p.statuses
  {
    hide Stopped;
  }

  lemma RunWorksKeepRest(p: Provider, i: nat, e: WorkEvent)
    ensures OnRunWorks(p, i, e).recoveries == p.recoveries && OnRunWorks(p, i, e).statuses == p.statuses
  {
    hide Proceed;
  }

  lemma RunEndsKeepRest(p: Provider, i: nat)
    ensures OnRunBodyEnds(p, i).recoveries == p.recoveries && OnRunBodyEnds(p, i).statuses == p.statuses
    ensures OnClearRun(p, i).recoveries == p.recoveries && OnClearRun(p, i).statuses == p.statuses
  {}

  lemma StopKeepsRest(p: Provider, abort: Outcome)
    ensures OnAbort(p).recoveries == p.recoveries && OnAbort(p).statuses == p.statuses
    ensures OnBeginClosing(p, abort).recoveries == p.recoveries && OnBeginClosing(p, abort).statuses == p.statuses
  {}

  lemma FinishKeepsRest(p: Provider, k: nat)
    ensures OnFinishRecovery(p, k).recoveries == p.recoveries && OnFinishRecovery(p, k).statuses == p.statuses
  {
    hide Latch;
    if k < |p.recoveries| && p.recoveries[k].RecoverySettled? {
      LatchFacts(p.(reconciled := p.reconciled || p.recoveries[k].outcome == Fulfilled), p.recoveries[k].outcome);
    }
  }

  lemma ClearKeepsRest(p: Provider, j: nat)
    ensures OnClearStatus(p, j).recoveries == p.recoveries && OnClearStatus(p, j).statuses == p.statuses
  {
    hide Latch;
    if j < |p.statuses| && p.statuses[j].StatusSettled? { LatchFacts(p, p.statuses[j].outcome); }
  }

  lemma CredentialKeepsRest(p: Provider, j: nat, ok: bool)
    ensures OnCredentialSettled(p, j, ok).recoveries == p.recoveries
  {}

  /** Only a status read, a run or the recovery's own events touch recoveries. */
  lemma RecoveriesKept(p: Provider, e: Event)
    requires !e.ReadStatus? && !e.Execute? && !e.StorageSecretsSettled? && !e.RecoveryWorks? && !e.RecoveryBodyEnds?
    ensures Step(p, e).recoveries == p.recoveries
  {
    hide OnResumeRun, OnClaimSettled, OnSecretsSettled, OnRunWorks, OnRunBodyEnds, OnClearRun, OnAbort, OnBeginClosing, OnFinishRecovery, OnResumeStatus,
      OnCredentialSettled, OnClearStatus;
    match e
    case Abort => StopKeepsRest(p, Fulfilled);
    case BeginClosing(abort) => StopKeepsRest(p, abort);
    case ResumeRun(i, runtimeOk, existing) => ResumeKeeps(p, i, runtimeOk, existing, 0);
    case ClaimSettled(i, won, runtimeOk) => ClaimKeepsRest(p, i, won, runtimeOk);
    case SecretsSettled(i, given) => SecretsKeepRest(p, i, given);
    case RunWorks(i, we) => RunWorksKeepRest(p, i, we);
    case RunBodyEnds(i) => RunEndsKeepRest(p, i);
    case ClearRun(i) => RunEndsKeepRest(p, i);
    case FinishRecovery(k) => FinishKeepsRest(p, k);
    case ResumeStatus(j) => ResumeKeeps(p, 0, true, NoReceipt, j);
    case CredentialSettled(j, ok) => CredentialKeepsRest(p, j, ok);
    case ClearStatus(j) => ClearKeepsRest(p, j);
  }

  lemma RecoveriesGrow(p: Provider, e: Event)
    requires e.ReadStatus? || e.Execute?
    ensures p.recoveries <= Step(p, e).recoveries
    ensures forall k :: |p.recoveries| <= k < |Step(p, e).recoveries| ==> Step(p, e).recoveries[k] == AwaitingStorageSecrets
  {}

  lemma RecoveryStepShows(p: Provider, e: Event, k: nat)
    requires k < |Step(p, e).recoveries|
    ensures RecoveryShows(p, Step(p, e), e, k)
  {
    hide Step, WorkFine, WorkLossy, WorkFails, WorkLoses;
    match e
    case ReadStatus(_) => RecoveriesGrow(p, e);
    case Execute(_, _, _) => RecoveriesGrow(p, e);
    case StorageSecretsSettled(l, given) => RecoveryLength(p, e); RecoveryWorkStepShows(p, e, k);
    case RecoveryWorks(_, _) => RecoveryLength(p, e); RecoveryWorkStepShows(p, e, k);
    case RecoveryBodyEnds(_) => RecoveryLength(p, e); RecoveryWorkStepShows(p, e, k);
    case _ => RecoveriesKept(p, e);
  }

  lemma RecoveryLength(p: Provider, e: Event)
    requires e.StorageSecretsSettled? || e.RecoveryWorks? || e.RecoveryBodyEnds?
    ensures |Step(p, e).recoveries| == |p.recoveries|
  {
    hide Proceed, WithoutController;
  }

  /** What one event makes of the j-th status read. */
  predicate StatusShows(p: Provider, q: Provider, e: Event, j: nat)
  {
    && j < |q.statuses|
    && (j < |p.statuses| ==> (StatusFine(q.statuses[j]) <==> StatusFine(p.statuses[j]) && !StatusGoesWrong(p, e, j)))
    && (j >= |p.statuses| ==> StatusFine(q.statuses[j]))
  }

  lemma RecoveryEventsKeepStatuses(p: Provider, k: nat, given: bool, we: WorkEvent)
    ensures OnStorageSecretsSettled(p, k, given).statuses == p.statuses && OnRecoveryWorks(p, k, we).statuses == p.statuses
    ensures OnRecoveryBodyEnds(p, k).statuses == p.statuses
  {
    hide Proceed, WithoutController;
  }

  lemma StatusesKept(p: Provider, e: Event)
    requires !e.ReadStatus? && !e.Execute? && !e.ResumeStatus? && !e.CredentialSettled?
    ensures Step(p, e).statuses == p.statuses
  {
    hide OnResumeRun, OnClaimSettled, OnSecretsSettled, OnRunWorks, OnRunBodyEnds, OnClearRun, OnAbort, OnBeginClosing, OnFinishRecovery, OnClearStatus,
      OnStorageSecretsSettled, OnRecoveryWorks, OnRecoveryBodyEnds;
    match e
    case Abort => StopKeepsRest(p, Fulfilled);
    case BeginClosing(abort) => StopKeepsRest(p, abort);
    case ResumeRun(i, runtimeOk, existing) => ResumeKeeps(p, i, runtimeOk, existing, 0);
    case ClaimSettled(i, won, runtimeOk) => ClaimKeepsRest(p, i, won, runtimeOk);
    case SecretsSettled(i, given) => SecretsKeepRest(p, i, given);
    case RunWorks(i, we) => RunWorksKeepRest(p, i, we);
    case RunBodyEnds(i) => RunEndsKeepRest(p, i);
    case ClearRun(i) => RunEndsKeepRest(p, i);
    case StorageSecretsSettled(k, given) => RecoveryEventsKeepStatuses(p, k, given, Acquired);
    case RecoveryWorks(k, we) => RecoveryEventsKeepStatuses(p, k, true, we);
    case RecoveryBodyEnds(k) => RecoveryEventsKeepStatuses(p, k, true, Acquired);
    case FinishRecovery(k) => FinishKeepsRest(p, k);
    case ClearStatus(j) => ClearKeepsRest(p, j);
  }

  lemma StatusStages(p: Provider, l: nat, ok: bool, j: nat)
    requires j < |p.statuses|
    ensures var (q, stage) := (OnResumeStatus(p, l), p.statuses[j]);
            && j < |q.statuses| == |p.statuses|
            && q.statuses[j] == if l == j && stage.StatusAwaitingRecovery? && WaitOver(p, stage.wait)
                                then (if Awaited(p, stage.wait) in {Rejected, Incomplete} then StatusSettled(Awaited(p, stage.wait)) else AwaitingCredential)
                                else stage
  {
    var stage := p.statuses[j];
    if stage.StatusAwaitingRecovery? && WaitOver(p, stage.wait) { AwaitedIs(p, stage.wait); }
    hide WaitOver, WaitOutcome, Awaited;
  }

  lemma CredentialStage(p: Provider, l: nat, ok: bool, j: nat)
    requires j < |p.statuses|
    ensures var (q, stage) := (OnCredentialSettled(p, l, ok), p.statuses[j]);
            && j < |q.statuses| == |p.statuses|
            && q.statuses[j] == if l == j && stage.AwaitingCredential? then StatusSettled(if ok then Fulfilled else Rejected) else stage
  {}

  lemma StatusesGrow(p: Provider, e: Event)
    requires e.ReadStatus? || e.Execute?
    ensures p.statuses <= Step(p, e).statuses
    ensures forall j :: |p.statuses| <= j < |Step(p, e).statuses| ==> StatusFine(Step(p, e).statuses[j])
  {}

  lemma StatusLength(p: Provider, e: Event)
    requires e.ResumeStatus? || e.CredentialSettled?
    ensures |Step(p, e).statuses| == |p.statuses|
  {
    hide WaitOver, WaitOutcome;
  }

  lemma StatusStepShows(p: Provider, e: Event, j: nat)
    requires j < |Step(p, e).statuses|
    ensures StatusShows(p, Step(p, e), e, j)
  {
    hide OnReadStatus, OnExecute, OnAbort, OnBeginClosing, OnResumeRun, OnClaimSettled, OnSecretsSettled, OnRunWorks, OnRunBodyEnds, OnClearRun,
      OnStorageSecretsSettled, OnRecoveryWorks, OnRecoveryBodyEnds, OnFinishRecovery, OnResumeStatus, OnCredentialSettled, OnClearStatus, WaitOver, Awaited;
    match e
    case ReadStatus(_) => StatusesGrow(p, e);
    case Execute(_, _, _) => StatusesGrow(p, e);
    case ResumeStatus(l) => StatusLength(p, e); StatusStages(p, l, true, j);
    case CredentialSettled(l, ok) => StatusLength(p, e); CredentialStage(p, l, ok, j);
    case _ => StatusesKept(p, e);
  }

  // ---------------------------------------------------------------- over every run

  /** It held at some event of the run. */
  ghost predicate Ever(es: seq<Event>, holds: (Provider, Event) -> bool) { exists n :: 0 <= n < |es| && holds(RunEvents(FRESH, es[..n]), es[n]) }

  lemma EverMore(es: seq<Event>, holds: (Provider, Event) -> bool)
    requires es != []
    ensures var was := es[..|es| - 1]; Ever(es, holds) <==> Ever(was, holds) || holds(RunEvents(FRESH, was), es[|es| - 1])
  {
    hide RunEvents;
    var was := es[..|es| - 1];
    if Ever(es, holds) {
      var n :| 0 <= n < |es| && holds(RunEvents(FRESH, es[..n]), es[n]);
      assert n < |was| ==> was[..n] == es[..n] && was[n] == es[n];
    }
    if Ever(was, holds) {
      var n :| 0 <= n < |was| && holds(RunEvents(FRESH, was[..n]), was[n]);
      assert was[..n] == es[..n] && was[n] == es[n];
    }
  }

  function RunWrong(i: nat): (Provider, Event) -> bool { (p, e) => RunGoesWrong(p, e, i) }
  function RunLoss(i: nat): (Provider, Event) -> bool { (p, e) => RunLoses(p, e, i) }
  function RecoveryWrong(k: nat): (Provider, Event) -> bool { (p, e) => RecoveryGoesWrong(p, e, k) }
  function RecoveryLoss(k: nat): (Provider, Event) -> bool { (p, e) => RecoveryLoses(p, e, k) }
  function StatusWrong(j: nat): (Provider, Event) -> bool { (p, e) => StatusGoesWrong(p, e, j) }

  lemma NothingEver(holds: (Provider, Event) -> bool)
    ensures !Ever([], holds)
  {}

  lemma RunsGrow(p: Provider, e: Event)
    ensures |p.runs| <= |Step(p, e).runs| && |p.recoveries| <= |Step(p, e).recoveries| && |p.statuses| <= |Step(p, e).statuses|
  {
    StepBlames(p, e);
    StatusesNeverShrink(p, e);
    hide Step;
  }

  lemma StatusesNeverShrink(p: Provider, e: Event)
    ensures |p.statuses| <= |Step(p, e).statuses|
  {
    hide Step;
    match e
    case ReadStatus(_) => StatusesGrow(p, e);
    case Execute(_, _, _) => StatusesGrow(p, e);
    case ResumeStatus(_) => StatusLength(p, e);
    case CredentialSettled(_, _) => StatusLength(p, e);
    case _ => StatusesKept(p, e);
  }

  /** What is not there yet has no history. */
  lemma {:induction false} NotYet(es: seq<Event>, i: nat)
    ensures i >= |RunEvents(FRESH, es).runs| ==> !Ever(es, RunWrong(i)) && !Ever(es, RunLoss(i))
    ensures i >= |RunEvents(FRESH, es).recoveries| ==> !Ever(es, RecoveryWrong(i)) && !Ever(es, RecoveryLoss(i))
    ensures i >= |RunEvents(FRESH, es).statuses| ==> !Ever(es, StatusWrong(i))
  {
    hide Step, Ever;
    if es == [] {
      NothingEver(RunWrong(i));
      NothingEver(RunLoss(i));
      NothingEver(RecoveryWrong(i));
      NothingEver(RecoveryLoss(i));
      NothingEver(StatusWrong(i));
    } else {
      var was, last := es[..|es| - 1], es[|es| - 1];
      NotYet(was, i);
      RunsGrow(RunEvents(FRESH, was), last);
      EverMore(es, RunWrong(i));
      EverMore(es, RunLoss(i));
      EverMore(es, RecoveryWrong(i));
      EverMore(es, RecoveryLoss(i));
      EverMore(es, StatusWrong(i));
    }
  }

  /** Over every interleaving: a run is fine exactly as long as nothing has gone wrong for it, and a cleanup of it is
      incomplete exactly if something was lost. */
  lemma {:induction false} RunsShow(es: seq<Event>, i: nat)
    requires i < |RunEvents(FRESH, es).runs|
    ensures RunFine(RunEvents(FRESH, es).runs[i].stage) <==> !Ever(es, RunWrong(i))
    ensures RunLossy(RunEvents(FRESH, es).runs[i].stage) <==> Ever(es, RunLoss(i))
  {
    hide Step, Ever, RunFine, RunLossy, RunGoesWrong, RunLoses;
    if es != [] {
      var was, last := es[..|es| - 1], es[|es| - 1];
      var p := RunEvents(FRESH, was);
      RunStepShows(p, last, i);
      EverMore(es, RunWrong(i));
      EverMore(es, RunLoss(i));
      NotYet(was, i);
      if i < |p.runs| { RunsShow(was, i); } else { NotThere(p, last, i); }
    }
  }

  lemma NotThere(p: Provider, e: Event, i: nat)
    ensures i >= |p.runs| ==> !RunGoesWrong(p, e, i) && !RunLoses(p, e, i)
    ensures i >= |p.recoveries| ==> !RecoveryGoesWrong(p, e, i) && !RecoveryLoses(p, e, i)
    ensures i >= |p.statuses| ==> !StatusGoesWrong(p, e, i)
  {}

  lemma {:induction false} RecoveriesShow(es: seq<Event>, k: nat)
    requires k < |RunEvents(FRESH, es).recoveries|
    ensures RecoveryFine(RunEvents(FRESH, es).recoveries[k]) <==> !Ever(es, RecoveryWrong(k))
    ensures RecoveryLossy(RunEvents(FRESH, es).recoveries[k]) <==> Ever(es, RecoveryLoss(k))
  {
    hide Step, Ever, RecoveryFine, RecoveryLossy, RecoveryGoesWrong, RecoveryLoses;
    if es != [] {
      var was, last := es[..|es| - 1], es[|es| - 1];
      var p := RunEvents(FRESH, was);
      RecoveryStepShows(p, last, k);
      EverMore(es, RecoveryWrong(k));
      EverMore(es, RecoveryLoss(k));
      NotYet(was, k);
      if k < |p.recoveries| { RecoveriesShow(was, k); } else { NotThere(p, last, k); }
    }
  }

  lemma {:induction false} StatusesShow(es: seq<Event>, j: nat)
    requires j < |RunEvents(FRESH, es).statuses|
    ensures StatusFine(RunEvents(FRESH, es).statuses[j]) <==> !Ever(es, StatusWrong(j))
  {
    hide Step, Ever, StatusFine, StatusGoesWrong;
    if es != [] {
      var was, last := es[..|es| - 1], es[|es| - 1];
      var p := RunEvents(FRESH, was);
      StatusStepShows(p, last, j);
      EverMore(es, StatusWrong(j));
      NotYet(was, j);
      if j < |p.statuses| { StatusesShow(was, j); } else { NotThere(p, last, j); }
    }
  }

  /** A promise that has settled is fulfilled if and only if nothing ever went wrong for it. */
  lemma FulfilledIffNothingWrong(es: seq<Event>, p: Provider, i: nat)
    requires p == RunEvents(FRESH, es)
    ensures i < |p.runs| && p.runs[i].stage.RunSettled? ==>
              && (p.runs[i].stage.outcome == Fulfilled <==> !Ever(es, RunWrong(i)))
              && (p.runs[i].stage.outcome == Incomplete <==> Ever(es, RunLoss(i)))
    ensures i < |p.recoveries| && p.recoveries[i].RecoverySettled? ==>
              && (p.recoveries[i].outcome == Fulfilled <==> !Ever(es, RecoveryWrong(i)))
              && (p.recoveries[i].outcome == Incomplete <==> Ever(es, RecoveryLoss(i)))
    ensures i < |p.statuses| && p.statuses[i].StatusSettled? ==> (p.statuses[i].outcome == Fulfilled <==> !Ever(es, StatusWrong(i)))
  {
    hide RunEvents, Ever;
    if i < |p.runs| { RunsShow(es, i); }
    if i < |p.recoveries| { RecoveriesShow(es, i); }
    if i < |p.statuses| { StatusesShow(es, i); }
  }
}
