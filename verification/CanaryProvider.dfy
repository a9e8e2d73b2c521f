/** The one-shot read canary: runs, recoveries and status reads that interleave at every `await`
    (apps/cli/src/x-canary-operator-host-core.ts:264-614). One event is what happens between two awaits. */
module CanaryProvider {

  /** How a promise settled: an incomplete cleanup is an error of its own kind, and a credential error
      during recovery is forgiven where nobody runs. */
  datatype Outcome = Fulfilled | Rejected | CredentialRejected | Incomplete

  /** The work inside a secrets callback. The storage handles are opened in a fixed order (operations, capture
      registry, vault), then the controller, and closed in the reverse order, so their number tells which are open. */
  datatype Work =
    | Acquiring(held: nat)
    | Recovering
    | Executing
    | Cleaning(left: nat, outcome: Outcome)

  const STORAGE: nat := 3

  datatype WorkEvent =
    | Acquired
    | AcquisitionFailed            // no handle came back: the resource may be open for good
    | Recovered(more: bool, ok: bool)  // recovery is over; `more`: nothing was recovered and a controller is wanted
    | Executed(ok: bool)
    | Closed(normally: bool)

  /** The next state of the work, and how many resources it has just lost track of. */
  function Proceed(w: Work, e: WorkEvent): (Work, nat)
  {
    match w
    case Acquiring(held) =>
      (match e
       case Acquired =>
         (if held + 1 < STORAGE then Acquiring(held + 1) else if held + 1 == STORAGE then Recovering else Executing, 0)
       case AcquisitionFailed => (Cleaning(held, Incomplete), 1)
       case _ => (w, 0))
    case Recovering =>
      (match e
       case Recovered(more, ok) => (if more then Acquiring(STORAGE) else Cleaning(STORAGE, if ok then Fulfilled else Rejected), 0)
       case _ => (w, 0))
    case Executing =>
      (match e
       case Executed(ok) => (Cleaning(STORAGE + 1, if ok then Fulfilled else Rejected), 0)
       case _ => (w, 0))
    case Cleaning(left, outcome) =>
      (match e
       case Closed(normally) =>
         if left == 0 then (w, 0) else (Cleaning(left - 1, if normally then outcome else Incomplete), if normally then 0 else 1)
       case _ => (w, 0))
  }

  datatype Wait = NoWait | WaitFor(recovery: nat, starter: bool)

  datatype RunStage =
    | AwaitingRecovery(wait: Wait)
    | AwaitingClaim
    | AwaitingSecrets
    | InBody(work: Work)
    | RunSettled(outcome: Outcome)

  datatype Run = Run(epoch: nat, stage: RunStage)

  datatype RecoveryStage =
    | AwaitingStorageSecrets
    | InRecovery(work: Work)
    | RecoverySettled(outcome: Outcome)

  datatype StatusStage =
    | StatusAwaitingRecovery(wait: Wait)
    | AwaitingCredential
    | StatusSettled(outcome: Outcome)

  /** The receipt already in the event store, seen from one command. */
  datatype Existing = NoReceipt | SameRequest | OtherRequest

  /** `KeychainReadCanaryProvider`, with every promise it ever made. `secretRequests`, `claimsWon` and `stranded`
      are history: what the credential host, the claim host and the operating system have seen. */
  datatype Provider = Provider(
    activeController: bool, activeRun: int, activeRecovery: int, activeStatus: int, abortFailed: bool, abortEpoch: nat, closing: bool,
    closingBegan: bool, incomplete: bool, ownedClaim: bool, reconciled: bool, runs: seq<Run>, recoveries: seq<RecoveryStage>,
    statuses: seq<StatusStage>, secretRequests: nat, claimsWon: nat, stranded: nat)

  const NONE: int := -1

  const FRESH: Provider := Provider(false, NONE, NONE, NONE, false, 0, false, false, false, false, false, [], [], [], 0, 0, 0)

  datatype Event =
    | ReadStatus(interrupted: bool)
    | Execute(runtimeOk: bool, existing: Existing, interrupted: bool)
    | Abort
    | BeginClosing(abort: Outcome)
    | ResumeRun(i: nat, runtimeOk: bool, existing: Existing)
    | ClaimSettled(i: nat, won: bool, runtimeOk: bool)
    | SecretsSettled(i: nat, given: bool)
    | RunWorks(i: nat, e: WorkEvent)
    | RunBodyEnds(i: nat)
    | ClearRun(i: nat)
    | StorageSecretsSettled(k: nat, given: bool)
    | RecoveryWorks(k: nat, e: WorkEvent)
    | RecoveryBodyEnds(k: nat)
    | FinishRecovery(k: nat)
    | ResumeStatus(j: nat)
    | CredentialSettled(j: nat, ok: bool)
    | ClearStatus(j: nat)

  // ---------------------------------------------------------------- shared pieces

  function Latch(p: Provider, outcome: Outcome): Provider
  {
    if outcome == Incomplete then p.(closing := true, incomplete := true) else p
  }

  /** `#recoverInterruptedIfPossible` up to its first await. */
  function RecoverIfPossible(p: Provider, interrupted: bool): (Provider, Wait)
  {
    if p.activeController || p.ownedClaim then (p, NoWait)
    else if p.activeRecovery >= 0 then (p, WaitFor(p.activeRecovery, false))
    else if p.activeRun >= 0 || p.reconciled then (p, NoWait)
    else if !interrupted then (p.(reconciled := true), NoWait)
    else (p.(recoveries := p.recoveries + [AwaitingStorageSecrets], activeRecovery := |p.recoveries|), WaitFor(|p.recoveries|, true))
  }

  /** The awaited recovery is over, and its starter has tidied up if it is the one that waits. */
  predicate WaitOver(p: Provider, wait: Wait)
  {
    match wait
    case NoWait => true
    case WaitFor(k, starter) => k < |p.recoveries| && p.recoveries[k].RecoverySettled? && (starter ==> p.activeRecovery != k)
  }

  /** How the awaited recovery ends for the one that waits. */
  function WaitOutcome(p: Provider, wait: Wait, suppressCredentialError: bool): Outcome
    requires WaitOver(p, wait)
  {
    if wait.NoWait? then Fulfilled
    else
      var outcome := p.recoveries[wait.recovery].outcome;
      if outcome == CredentialRejected && suppressCredentialError then Fulfilled else outcome
  }

  function SetRun(p: Provider, i: nat, stage: RunStage): Provider
    requires i < |p.runs|
  {
    p.(runs := p.runs[i := p.runs[i].(stage := stage)])
  }

  predicate Stopped(p: Provider, i: nat)
    requires i < |p.runs|
  {
    p.closing || p.abortEpoch != p.runs[i].epoch
  }

  // ---------------------------------------------------------------- entry points

  /** `getReadCanaryProjection`. */
  function OnReadStatus(p: Provider, interrupted: bool): Provider
  {
    if p.closing || p.activeStatus >= 0 then p
    else
      var q := p.(activeStatus := |p.statuses|);
      if p.activeController then q.(statuses := q.statuses + [StatusSettled(Fulfilled)])
      else
        var (r, wait) := RecoverIfPossible(q, interrupted);
        r.(statuses := r.statuses + [StatusAwaitingRecovery(wait)])
  }

  /** `executeReadCanary`. */
  function OnExecute(p: Provider, runtimeOk: bool, existing: Existing, interrupted: bool): Provider
  {
    if p.closing || p.activeRun >= 0 || !runtimeOk || !existing.NoReceipt? || p.ownedClaim then p
    else
      var (q, wait) := RecoverIfPossible(p, interrupted);
      q.(runs := q.runs + [Run(p.abortEpoch, AwaitingRecovery(wait))], activeRun := |q.runs|)
  }

  function OnAbort(p: Provider): Provider { p.(abortEpoch := p.abortEpoch + 1) }

  /** `beginClosing`; aborting the active controller may throw, and an incomplete cleanup is latched. */
  function OnBeginClosing(p: Provider, abort: Outcome): Provider
  {
    if p.closingBegan then p
    else
      var q := p.(closingBegan := true, closing := true, abortEpoch := p.abortEpoch + 1);
      if p.activeController && abort != Fulfilled then Latch(q, abort).(abortFailed := true) else q
  }

  // ---------------------------------------------------------------- a run

  /** Where a run goes when its recovery is over: `#executeAfterRecovery` behind the wait, and
      `#runWithKeychain` up to the claim. */
  function Resumed(outcome: Outcome, stopped: bool, runtimeOk: bool, existing: Existing): RunStage
  {
    if outcome != Fulfilled then RunSettled(outcome)
    else if stopped || existing.OtherRequest? then RunSettled(Rejected)
    else if existing.SameRequest? then RunSettled(Fulfilled)
    else if !runtimeOk then RunSettled(Rejected)
    else AwaitingClaim
  }

  function OnResumeRun(p: Provider, i: nat, runtimeOk: bool, existing: Existing): Provider
  {
    if !(i < |p.runs| && p.runs[i].stage.AwaitingRecovery? && WaitOver(p, p.runs[i].stage.wait)) then p
    else
      var outcome := WaitOutcome(p, p.runs[i].stage.wait, false);
      SetRun(Latch(p, outcome), i, Resumed(outcome, Stopped(p, i), runtimeOk, existing))
  }

  /** The claim is permanent, whatever comes after it. */
  function OnClaimSettled(p: Provider, i: nat, won: bool, runtimeOk: bool): Provider
  {
    if !(i < |p.runs| && p.runs[i].stage.AwaitingClaim?) then p
    else
      var asks := won && !Stopped(p, i) && runtimeOk;
      SetRun(p.(ownedClaim := p.ownedClaim || won, claimsWon := if won then p.claimsWon + 1 else p.claimsWon,
                secretRequests := if asks then p.secretRequests + 1 else p.secretRequests),
             i, if asks then AwaitingSecrets else RunSettled(Rejected))
  }

  function OnSecretsSettled(p: Provider, i: nat, given: bool): Provider
  {
    if !(i < |p.runs| && p.runs[i].stage.AwaitingSecrets?) then p
    else if !given || Stopped(p, i) then SetRun(p, i, RunSettled(Rejected))
    else SetRun(p, i, InBody(Acquiring(0)))
  }

  /** The run's callback; the controller is the active one while it executes. */
  function OnRunWorks(p: Provider, i: nat, e: WorkEvent): Provider
  {
    if !(i < |p.runs| && p.runs[i].stage.InBody?) then p
    else
      var (work, lost) := Proceed(p.runs[i].stage.work, e);
      SetRun(p.(activeController := work.Executing?, stranded := p.stranded + lost), i, InBody(work))
  }

  function OnRunBodyEnds(p: Provider, i: nat): Provider
  {
    if !(i < |p.runs| && p.runs[i].stage.InBody? && p.runs[i].stage.work.Cleaning? && p.runs[i].stage.work.left == 0) then p
    else SetRun(p, i, RunSettled(p.runs[i].stage.work.outcome))
  }

  /** The handler attached to the run when it was made. */
  function OnClearRun(p: Provider, i: nat): Provider
  {
    if !(i < |p.runs| && p.runs[i].stage.RunSettled?) then p
    else
      var q := Latch(p, p.runs[i].stage.outcome);
      if p.activeRun == i then q.(activeRun := NONE) else q
  }

  // ---------------------------------------------------------------- a recovery

  function OnStorageSecretsSettled(p: Provider, k: nat, given: bool): Provider
  {
    if !(k < |p.recoveries| && p.recoveries[k].AwaitingStorageSecrets?) then p
    else p.(recoveries := p.recoveries[k := if given then InRecovery(Acquiring(0)) else RecoverySettled(CredentialRejected)])
  }

  /** A recovery never wants a controller. */
  function WithoutController(e: WorkEvent): WorkEvent { if e.Recovered? then Recovered(false, e.ok) else e }

  function OnRecoveryWorks(p: Provider, k: nat, e: WorkEvent): Provider
  {
    if !(k < |p.recoveries| && p.recoveries[k].InRecovery?) then p
    else
      var (work, lost) := Proceed(p.recoveries[k].work, WithoutController(e));
      p.(recoveries := p.recoveries[k := InRecovery(work)], stranded := p.stranded + lost)
  }

  function OnRecoveryBodyEnds(p: Provider, k: nat): Provider
  {
    if !(k < |p.recoveries| && p.recoveries[k].InRecovery? && p.recoveries[k].work.Cleaning? && p.recoveries[k].work.left == 0) then p
    else p.(recoveries := p.recoveries[k := RecoverySettled(p.recoveries[k].work.outcome)])
  }

  /** What the starter of a recovery does when it is over. */
  function OnFinishRecovery(p: Provider, k: nat): Provider
  {
    if !(k < |p.recoveries| && p.recoveries[k].RecoverySettled? && p.activeRecovery == k) then p
    else
      var outcome := p.recoveries[k].outcome;
      Latch(p.(reconciled := p.reconciled || outcome == Fulfilled), outcome).(activeRecovery := NONE)
  }

  // ---------------------------------------------------------------- a status read

  function OnResumeStatus(p: Provider, j: nat): Provider
  {
    if !(j < |p.statuses| && p.statuses[j].StatusAwaitingRecovery? && WaitOver(p, p.statuses[j].wait)) then p
    else
      var outcome := WaitOutcome(p, p.statuses[j].wait, true);
      Latch(p, outcome).(statuses := p.statuses[j := if outcome == Fulfilled then AwaitingCredential else StatusSettled(outcome)])
  }

  function OnCredentialSettled(p: Provider, j: nat, ok: bool): Provider
  {
    if !(j < |p.statuses| && p.statuses[j].AwaitingCredential?) then p
    else p.(statuses := p.statuses[j := StatusSettled(if ok then Fulfilled else Rejected)])
  }

  function OnClearStatus(p: Provider, j: nat): Provider
  {
    if !(j < |p.statuses| && p.statuses[j].StatusSettled?) then p
    else
      var q := Latch(p, p.statuses[j].outcome);
      if p.activeStatus == j then q.(activeStatus := NONE) else q
  }

  // ---------------------------------------------------------------- every interleaving

  /** One event; an event that is not enabled changes nothing. */
  function Step(p: Provider, e: Event): Provider
  {
    match e
    case ReadStatus(interrupted) => OnReadStatus(p, interrupted)
    case Execute(runtimeOk, existing, interrupted) => OnExecute(p, runtimeOk, existing, interrupted)
    case Abort => OnAbort(p)
    case BeginClosing(abort) => OnBeginClosing(p, abort)
    case ResumeRun(i, runtimeOk, existing) => OnResumeRun(p, i, runtimeOk, existing)
    case ClaimSettled(i, won, runtimeOk) => OnClaimSettled(p, i, won, runtimeOk)
    case SecretsSettled(i, given) => OnSecretsSettled(p, i, given)
    case RunWorks(i, we) => OnRunWorks(p, i, we)
    case RunBodyEnds(i) => OnRunBodyEnds(p, i)
    case ClearRun(i) => OnClearRun(p, i)
    case StorageSecretsSettled(k, given) => OnStorageSecretsSettled(p, k, given)
    case RecoveryWorks(k, we) => OnRecoveryWorks(p, k, we)
    case RecoveryBodyEnds(k) => OnRecoveryBodyEnds(p, k)
    case FinishRecovery(k) => OnFinishRecovery(p, k)
    case ResumeStatus(j) => OnResumeStatus(p, j)
    case CredentialSettled(j, ok) => OnCredentialSettled(p, j, ok)
    case ClearStatus(j) => OnClearStatus(p, j)
  }

  function RunEvents(p: Provider, es: seq<Event>): Provider
  {
    if es == [] then p else Step(RunEvents(p, es[..|es| - 1]), es[|es| - 1])
  }
}
