/** When the canary looks into its event store, what it then does about an interrupted one, and that work which
    nothing disturbs gets to its end (apps/cli/src/x-canary-operator-host-core.ts:298-614). */
module CanaryRecovery {
  import opened CanaryProvider
  import opened CanaryProviderProofs
  import opened CanaryHost
  import opened CanaryHostProofs

  // ---------------------------------------------------------------- looking into the store

  /** Nothing is there that would spare the canary the look: no controller, claim, run or recovery, and it has not
      been reconciled before. */
  predicate Idle(p: Provider)
  {
    !p.activeController && !p.ownedClaim && p.activeRun < 0 && p.activeRecovery < 0 && !p.reconciled
  }

  /** The request gets past the checks of its entry point. */
  predicate Admits(p: Provider, e: Event)
  {
    match e
    case ReadStatus(_) => !p.closing && p.activeStatus < 0
    case Execute(runtimeOk, existing, _) => !p.closing && p.activeRun < 0 && runtimeOk && existing.NoReceipt? && !p.ownedClaim
    case _ => false
  }

  /** The request reads the event store to decide about a recovery, and finds it so. */
  predicate Looks(p: Provider, e: Event, interrupted: bool)
  {
    Admits(p, e) && Idle(p) && (e.ReadStatus? || e.Execute?) && e.interrupted == interrupted
  }

  /** The starter of a recovery learns that it was fulfilled. */
  predicate LearnsFulfilled(p: Provider, e: Event)
  {
    e.FinishRecovery? && e.k == p.activeRecovery && e.k < |p.recoveries| && p.recoveries[e.k] == RecoverySettled(Fulfilled)
  }

  /** What the newcomer waits for, read off the fields before it came. */
  predicate WaitFits(p: Provider, interrupted: bool, wait: Wait)
  {
    match wait
    case NoWait => if Idle(p) then !interrupted else p.activeController || p.ownedClaim || p.activeRecovery < 0
    case WaitFor(k, starter) =>
      if starter then Idle(p) && interrupted && k == |p.recoveries|
      else !p.activeController && !p.ownedClaim && p.activeRecovery == k
  }

  /** What a request leaves of reconciliation and recoveries: one that looks and finds the store interrupted adds
      exactly one recovery that awaits the storage secrets, and one that finds it quiet reconciles. */
  predicate RecoveryFits(p: Provider, q: Provider, looksQuiet: bool, looksInterrupted: bool)
  {
    && q.reconciled == (p.reconciled || looksQuiet)
    && q.recoveries == p.recoveries + (if looksInterrupted then [AwaitingStorageSecrets] else [])
    && q.activeRecovery == (if looksInterrupted then |p.recoveries| else p.activeRecovery)
  }

  /** A status read: which of the shared promise, the controller's answer and a recovery it comes to. */
  lemma StatusRecovers(p: Provider, interrupted: bool)
    requires Inv(p)
    ensures var q := Step(p, ReadStatus(interrupted));
            && RecoveryFits(p, q, Looks(p, ReadStatus(interrupted), false), Looks(p, ReadStatus(interrupted), true))
            && q.runs == p.runs && q.activeRun == p.activeRun && q.closing == p.closing
            && (!Admits(p, ReadStatus(interrupted)) ==> q == p)
            && (Admits(p, ReadStatus(interrupted)) ==>
                  && q.activeStatus == |p.statuses| && |q.statuses| == |p.statuses| + 1 && p.statuses <= q.statuses
                  && if p.activeController then q.statuses[|p.statuses|] == StatusSettled(Fulfilled)
                     else q.statuses[|p.statuses|].StatusAwaitingRecovery? && WaitFits(p, interrupted, q.statuses[|p.statuses|].wait))
  {
    hide Exclusive, OneShot, WorkOk, ControllerOk, RunsOk;
  }

  /** A run: it is made only where it is admitted, and waits for the recovery that it started or found. */
  lemma ExecuteRecovers(p: Provider, runtimeOk: bool, existing: Existing, interrupted: bool)
    requires Inv(p)
    ensures var e := Execute(runtimeOk, existing, interrupted);
            var q := Step(p, e);
            && RecoveryFits(p, q, Looks(p, e, false), Looks(p, e, true))
            && q.statuses == p.statuses && q.activeStatus == p.activeStatus && q.closing == p.closing
            && (!Admits(p, e) ==> q == p)
            && (Admits(p, e) ==>
                  && q.activeRun == |p.runs| && |q.runs| == |p.runs| + 1 && p.runs <= q.runs
                  && q.runs[|p.runs|].epoch == p.abortEpoch
                  && q.runs[|p.runs|].stage.AwaitingRecovery? && WaitFits(p, interrupted, q.runs[|p.runs|].stage.wait))
  {
    hide Exclusive, OneShot, WorkOk, ControllerOk;
  }

  /** The host's initialization, which reaches the provider once, before any request. */
  lemma InitializeRecovers(h: Host, interrupted: bool)
    requires Inv(h.provider)
    ensures var g := HostStep(h, Initializes(interrupted));
            var (p, q) := (h.provider, g.provider);
            var looks := h.stage == Opening(4) && Idle(p);
            && RecoveryFits(p, q, looks && !interrupted, looks && interrupted)
            && q.runs == p.runs && q.activeRun == p.activeRun && q.statuses == p.statuses && q.closing == p.closing
            && (h.stage != Opening(4) ==> g == h)
            && (h.stage == Opening(4) ==> g.stage.Initializing? && WaitFits(p, interrupted, g.stage.wait))
  {
    hide Exclusive, OneShot, WorkOk, ControllerOk, RunsOk;
  }

  /** On an idle provider, the three of them say the same: an interrupted store makes the newcomer the starter of the
      one recovery there is, and a quiet one makes it wait for nothing. */
  lemma WaitIs(p: Provider, interrupted: bool, wait: Wait)
    requires Idle(p) && WaitFits(p, interrupted, wait)
    ensures wait == if interrupted then WaitFor(|p.recoveries|, true) else NoWait
  {}

  // ---------------------------------------------------------------- why a provider is reconciled

  /** What an event may change about reconciliation, and how many recoveries there are. */
  predicate Counts(p: Provider, q: Provider, reconciles: bool, starts: bool)
  {
    q.reconciled == (p.reconciled || reconciles) && |q.recoveries| == |p.recoveries| + (if starts then 1 else 0)
  }

  lemma ClaimingCounts(p: Provider, e: Event)
    requires e.ResumeRun? || e.ClaimSettled?
    ensures Counts(p, Step(p, e), false, false)
  {
    hide WaitOver, WaitOutcome, Resumed, Stopped;
  }

  lemma BodyCounts(p: Provider, e: Event)
    requires e.SecretsSettled? || e.RunWorks?
    ensures Counts(p, Step(p, e), false, false)
  {
    hide Proceed, Stopped;
  }

  lemma RunEndCounts(p: Provider, e: Event)
    requires e.RunBodyEnds? || e.ClearRun?
    ensures Counts(p, Step(p, e), false, false)
  {}

  lemma RecoveryCounts(p: Provider, e: Event)
    requires e.StorageSecretsSettled? || e.RecoveryWorks?
    ensures Counts(p, Step(p, e), false, false)
  {
    hide Proceed, WithoutController;
  }

  lemma RecoveryEndCounts(p: Provider, e: Event)
    requires e.RecoveryBodyEnds? || e.FinishRecovery?
    ensures Counts(p, Step(p, e), LearnsFulfilled(p, e), false)
  {}

  lemma StatusCounts(p: Provider, e: Event)
    requires e.ResumeStatus? || e.CredentialSettled? || e.ClearStatus?
    ensures Counts(p, Step(p, e), false, false)
  {
    hide WaitOver, WaitOutcome;
  }

  lemma StopCounts(p: Provider, e: Event)
    requires e.Abort? || e.BeginClosing?
    ensures Counts(p, Step(p, e), false, false)
  {}

  /** One event reconciles exactly if it looks and finds nothing interrupted, or learns that the recovery was
      fulfilled, and starts a recovery exactly if it looks and finds the store interrupted. */
  lemma StepReconciles(p: Provider, e: Event)
    requires Inv(p)
    ensures Counts(p, Step(p, e), Looks(p, e, false) || LearnsFulfilled(p, e), Looks(p, e, true))
  {
    hide Inv, Step, Idle;
    match e
    case ReadStatus(interrupted) => StatusRecovers(p, interrupted);
    case Execute(runtimeOk, existing, interrupted) => ExecuteRecovers(p, runtimeOk, existing, interrupted);
    case ResumeRun(_, _, _) => ClaimingCounts(p, e);
    case ClaimSettled(_, _, _) => ClaimingCounts(p, e);
    case SecretsSettled(_, _) => BodyCounts(p, e);
    case RunWorks(_, _) => BodyCounts(p, e);
    case RunBodyEnds(_) => RunEndCounts(p, e);
    case ClearRun(_) => RunEndCounts(p, e);
    case StorageSecretsSettled(_, _) => RecoveryCounts(p, e);
    case RecoveryWorks(_, _) => RecoveryCounts(p, e);
    case RecoveryBodyEnds(_) => RecoveryEndCounts(p, e);
    case FinishRecovery(_) => RecoveryEndCounts(p, e);
    case Abort => StopCounts(p, e);
    case BeginClosing(_) => StopCounts(p, e);
    case _ => StatusCounts(p, e);
  }

  /** How many of the events looked and found the store interrupted. */
  ghost function Interruptions(es: seq<Event>): nat
  {
    if es == [] then 0
    else
      Interruptions(es[..|es| - 1]) + if Looks(RunEvents(FRESH, es[..|es| - 1]), es[|es| - 1], true) then 1 else 0
  }

  /** Some event of the run found nothing interrupted, or learned that its recovery was fulfilled. */
  ghost predicate Cleared(es: seq<Event>)
  {
    exists n :: 0 <= n < |es| && (Looks(RunEvents(FRESH, es[..n]), es[n], false) || LearnsFulfilled(RunEvents(FRESH, es[..n]), es[n]))
  }

  lemma {:induction false} ClearedGrows(es: seq<Event>)
    requires es != []
    ensures var (was, last) := (es[..|es| - 1], es[|es| - 1]);
            Cleared(es) <==> Cleared(was) || Looks(RunEvents(FRESH, was), last, false) || LearnsFulfilled(RunEvents(FRESH, was), last)
  {
    hide Looks, LearnsFulfilled, RunEvents;
    var was := es[..|es| - 1];
    if Cleared(es) {
      var n :| 0 <= n < |es| && (Looks(RunEvents(FRESH, es[..n]), es[n], false) || LearnsFulfilled(RunEvents(FRESH, es[..n]), es[n]));
      assert n < |was| ==> was[..n] == es[..n] && was[n] == es[n];
    }
    if Cleared(was) {
      var n :| 0 <= n < |was| && (Looks(RunEvents(FRESH, was[..n]), was[n], false) || LearnsFulfilled(RunEvents(FRESH, was[..n]), was[n]));
      assert was[..n] == es[..n] && was[n] == es[n];
    }
  }

  /** Over every run of the provider: it is reconciled if and only if some request looked and found nothing
      interrupted, or a recovery was fulfilled; and there are exactly as many recoveries as there were requests
      that looked and found the store interrupted. */
  lemma {:induction false} ReconciledIffCleared(es: seq<Event>)
    ensures RunEvents(FRESH, es).reconciled <==> Cleared(es)
    ensures |RunEvents(FRESH, es).recoveries| == Interruptions(es)
  {
    hide Inv, Step, Cleared, Looks, LearnsFulfilled;
    if es == [] {
      NothingCleared();
    } else {
      var (was, last) := (es[..|es| - 1], es[|es| - 1]);
      ReconciledIffCleared(was);
      FreshSound();
      EveryRunSound(FRESH, was);
      StepReconciles(RunEvents(FRESH, was), last);
      ClearedGrows(es);
    }
  }

  lemma NothingCleared()
    ensures !Cleared([])
  {}

  // ---------------------------------------------------------------- the same around the host

  predicate HostLooks(h: Host, e: HostEvent, interrupted: bool)
  {
    match e
    case Initializes(i) => h.stage == Opening(4) && Idle(h.provider) && i == interrupted
    case Provides(pe) => Reaches(h.stage, pe) && Looks(h.provider, pe, interrupted)
    case _ => false
  }

  predicate HostLearns(h: Host, e: HostEvent)
  {
    e.Provides? && Reaches(h.stage, e.e) && LearnsFulfilled(h.provider, e.e)
  }

  /** The provider is new until the paths are checked. */
  predicate Untouched(h: Host) { h.stage.Preparing? ==> h.provider == FRESH }

  lemma ClosingCounts(p: Provider, abort: Outcome)
    ensures Counts(p, OnBeginClosing(p, abort), false, false)
  {}

  lemma LatchedCounts(p: Provider, c: Captured)
    requires CapturedSettled(p, c)
    ensures Counts(p, LatchCaptured(p, c), false, false)
  {}

  lemma HostStepReconciles(h: Host, e: HostEvent)
    requires HostInv(h) && Untouched(h)
    ensures Counts(h.provider, HostStep(h, e).provider, HostLooks(h, e, false) || HostLearns(h, e), HostLooks(h, e, true))
    ensures Untouched(HostStep(h, e))
  {
    hide Inv, Step, OnBeginClosing, Looks, LearnsFulfilled, Idle, RecoverIfPossible, WaitOver, WaitOutcome, Swept, LossKnown, ProviderOk, Reaches, Blamed;
    hide LatchCaptured, CapturedSettled;
    match e
    case Initializes(interrupted) => InitializeRecovers(h, interrupted);
    case Provides(pe) => StepReconciles(h.provider, pe); NoEntryYet(h, pe);
    case Prepared(_) => ClosingCounts(FRESH, Fulfilled);
    case ServerOpens(_, abort) => ClosingCounts(h.provider, abort);
    case CloseRequested(abort) => ClosingCounts(h.provider, abort);
    case Opens(_) => ClosingCounts(h.provider, Fulfilled);
    case ClaimChecked(_) => ClosingCounts(h.provider, Fulfilled);
    case ResumesInitialize => ResumeCounts(h);
    case CanaryClosed => if h.stage.AwaitingCanary? && CapturedSettled(h.provider, h.stage.captured) { LatchedCounts(h.provider, h.stage.captured); }
    case Cleans(_) =>
  }

  lemma NoEntryYet(h: Host, e: Event)
    ensures h.stage.Preparing? ==> !Reaches(h.stage, e)
  {}

  lemma ResumeCounts(h: Host)
    ensures Counts(h.provider, OnResumesInitialize(h).provider, false, false)
    ensures h.stage.Preparing? || !OnResumesInitialize(h).stage.Preparing?
  {
    hide WaitOver, WaitOutcome;
  }

  ghost function HostInterruptions(es: seq<HostEvent>): nat
  {
    if es == [] then 0
    else
      HostInterruptions(es[..|es| - 1]) + if HostLooks(RunHost(START, es[..|es| - 1]), es[|es| - 1], true) then 1 else 0
  }

  ghost predicate HostCleared(es: seq<HostEvent>)
  {
    exists n :: 0 <= n < |es| && (HostLooks(RunHost(START, es[..n]), es[n], false) || HostLearns(RunHost(START, es[..n]), es[n]))
  }

  lemma {:induction false} HostClearedGrows(es: seq<HostEvent>)
    requires es != []
    ensures var (was, last) := (es[..|es| - 1], es[|es| - 1]);
            HostCleared(es) <==> HostCleared(was) || HostLooks(RunHost(START, was), last, false) || HostLearns(RunHost(START, was), last)
  {
    hide HostLooks, HostLearns, RunHost;
    var was := es[..|es| - 1];
    if HostCleared(es) {
      var n :| 0 <= n < |es| && (HostLooks(RunHost(START, es[..n]), es[n], false) || HostLearns(RunHost(START, es[..n]), es[n]));
      assert n < |was| ==> was[..n] == es[..n] && was[n] == es[n];
    }
    if HostCleared(was) {
      var n :| 0 <= n < |was| && (HostLooks(RunHost(START, was[..n]), was[n], false) || HostLearns(RunHost(START, was[..n]), was[n]));
      assert was[..n] == es[..n] && was[n] == es[n];
    }
  }

  /** The same over every run of the host, where the initialization may be the one that looks. */
  lemma {:induction false} HostReconciledIffCleared(es: seq<HostEvent>)
    ensures RunHost(START, es).provider.reconciled <==> HostCleared(es)
    ensures |RunHost(START, es).provider.recoveries| == HostInterruptions(es)
    ensures Untouched(RunHost(START, es))
  {
    hide HostInv, HostStep, HostCleared, HostLooks, HostLearns;
    if es == [] {
      NothingHostCleared();
    } else {
      var (was, last) := (es[..|es| - 1], es[|es| - 1]);
      HostReconciledIffCleared(was);
      EveryHostRun(was);
      HostStepReconciles(RunHost(START, was), last);
      HostClearedGrows(es);
    }
  }

  lemma NothingHostCleared()
    ensures !HostCleared([])
  {}

  // ---------------------------------------------------------------- undisturbed work

  /** A recovery in which everything opens, works and closes. */
  function RecoveryScript(k: nat): (es: seq<Event>)
  {
    var works := (e: WorkEvent) => RecoveryWorks(k, e);
    [StorageSecretsSettled(k, true), works(Acquired), works(Acquired), works(Acquired), works(Recovered(false, true)),
     works(Closed(true)), works(Closed(true)), works(Closed(true)), RecoveryBodyEnds(k), FinishRecovery(k)]
  }

  /** A run in which the claim is won, secrets are given, and everything opens, works and closes. */
  function RunScript(i: nat): (es: seq<Event>)
  {
    var works := (e: WorkEvent) => RunWorks(i, e);
    [ResumeRun(i, true, NoReceipt), ClaimSettled(i, true, true), SecretsSettled(i, true), works(Acquired), works(Acquired), works(Acquired),
     works(Recovered(true, true)), works(Acquired), works(Executed(true)), works(Closed(true)), works(Closed(true)), works(Closed(true)),
     works(Closed(true)), RunBodyEnds(i), ClearRun(i)]
  }

  lemma {:induction false} RunsOn(p: Provider, es: seq<Event>, fs: seq<Event>)
    ensures RunEvents(p, es + fs) == RunEvents(RunEvents(p, es), fs)
  {
    if fs == [] {
      assert es + fs == es;
    } else {
      assert (es + fs)[..|es + fs| - 1] == es + fs[..|fs| - 1];
      RunsOn(p, es, fs[..|fs| - 1]);
    }
  }

  lemma {:induction false} RunsFirst(p: Provider, e: Event, es: seq<Event>)
    ensures RunEvents(p, [e] + es) == RunEvents(Step(p, e), es)
  {
    hide Step;
    RunsOn(p, [e], es);
    assert [e][..0] == [];
    assert RunEvents(p, []) == p;
  }

  /** One recovery of the provider as it is, but for its stage. */
  function WithRecovery(p: Provider, k: nat, stage: RecoveryStage): Provider
    requires k < |p.recoveries|
  {
    p.(recoveries := p.recoveries[k := stage])
  }

  lemma RecoverySteps(p: Provider, k: nat, w: Work, e: WorkEvent, v: Work)
    requires k < |p.recoveries| && !(e.Recovered? && e.more) && Proceed(w, e) == (v, 0)
    ensures Step(WithRecovery(p, k, InRecovery(w)), RecoveryWorks(k, e)) == WithRecovery(p, k, InRecovery(v))
  {
    hide Proceed;
  }

  lemma RecoveryBegins(p: Provider, k: nat)
    requires k < |p.recoveries| && p.recoveries[k].AwaitingStorageSecrets?
    ensures Step(p, StorageSecretsSettled(k, true)) == WithRecovery(p, k, InRecovery(Acquiring(0)))
  {}

  lemma RecoveryEnds(p: Provider, k: nat)
    requires k < |p.recoveries| && p.activeRecovery == k
    ensures Step(WithRecovery(p, k, InRecovery(Cleaning(0, Fulfilled))), RecoveryBodyEnds(k)) == WithRecovery(p, k, RecoverySettled(Fulfilled))
    ensures Step(WithRecovery(p, k, RecoverySettled(Fulfilled)), FinishRecovery(k))
            == WithRecovery(p, k, RecoverySettled(Fulfilled)).(reconciled := true, activeRecovery := NONE)
  {}

  lemma RecoveryWorkRuns(p: Provider, k: nat)
    requires k < |p.recoveries|
    ensures RunEvents(WithRecovery(p, k, InRecovery(Acquiring(0))), RecoveryScript(k)[1..8]) == WithRecovery(p, k, InRecovery(Cleaning(0, Fulfilled)))
  {
    hide Step, WithRecovery, RunEvents;
    var es := RecoveryScript(k)[1..8];
    var works := [Acquiring(0), Acquiring(1), Acquiring(2), Recovering, Cleaning(3, Fulfilled), Cleaning(2, Fulfilled), Cleaning(1, Fulfilled),
                  Cleaning(0, Fulfilled)];
    forall n | 0 <= n < 7 ensures Step(WithRecovery(p, k, InRecovery(works[n])), es[n]) == WithRecovery(p, k, InRecovery(works[n + 1])) {
      RecoverySteps(p, k, works[n], es[n].e, works[n + 1]);
    }
    Chain(es, seq(8, n requires 0 <= n < 8 => WithRecovery(p, k, InRecovery(works[n]))));
  }

  /** Steps one after the other are a run. */
  lemma {:induction false} Chain(es: seq<Event>, ps: seq<Provider>)
    requires |ps| == |es| + 1 && forall n :: 0 <= n < |es| ==> Step(ps[n], es[n]) == ps[n + 1]
    ensures RunEvents(ps[0], es) == ps[|es|]
  {
    hide Step;
    if es != [] { Chain(es[..|es| - 1], ps[..|es|]); }
  }

  /** A recovery that nothing disturbs is fulfilled, and reconciles the provider. */
  lemma UndisturbedRecovery(p: Provider, k: nat)
    requires k < |p.recoveries| && p.activeRecovery == k && p.recoveries[k].AwaitingStorageSecrets?
    ensures RunEvents(p, RecoveryScript(k))
            == p.(recoveries := p.recoveries[k := RecoverySettled(Fulfilled)], reconciled := true, activeRecovery := NONE)
  {
    hide Step, RunEvents;
    var es := RecoveryScript(k);
    RecoveryBegins(p, k);
    RecoveryWorkRuns(p, k);
    RecoveryEnds(p, k);
    assert es == [es[0]] + (es[1..8] + ([es[8]] + ([es[9]] + [])));
    RunsFirst(p, es[0], es[1..8] + ([es[8]] + ([es[9]] + [])));
    RunsOn(WithRecovery(p, k, InRecovery(Acquiring(0))), es[1..8], [es[8]] + ([es[9]] + []));
    RunsFirst(WithRecovery(p, k, InRecovery(Cleaning(0, Fulfilled))), es[8], [es[9]] + []);
    RunsFirst(WithRecovery(p, k, RecoverySettled(Fulfilled)), es[9], []);
    NothingRuns(WithRecovery(p, k, RecoverySettled(Fulfilled)).(reconciled := true, activeRecovery := NONE));
  }

  lemma NothingRuns(p: Provider)
    ensures RunEvents(p, []) == p
  {}

  /** One run of the provider as it is, but for its stage. */
  function WithRun(p: Provider, i: nat, stage: RunStage): Provider
    requires i < |p.runs|
  {
    p.(runs := p.runs[i := p.runs[i].(stage := stage)], activeController := stage == InBody(Executing))
  }

  lemma RunSteps(p: Provider, i: nat, w: Work, e: WorkEvent, v: Work)
    requires i < |p.runs| && Proceed(w, e) == (v, 0)
    ensures Step(WithRun(p, i, InBody(w)), RunWorks(i, e)) == WithRun(p, i, InBody(v))
  {
    hide Proceed;
  }

  lemma RunWorkRuns(p: Provider, i: nat)
    requires i < |p.runs|
    ensures RunEvents(WithRun(p, i, InBody(Acquiring(0))), RunScript(i)[3..13]) == WithRun(p, i, InBody(Cleaning(0, Fulfilled)))
  {
    hide Step, WithRun, RunEvents;
    var es := RunScript(i)[3..13];
    var works := [Acquiring(0), Acquiring(1), Acquiring(2), Recovering, Acquiring(3), Executing, Cleaning(4, Fulfilled), Cleaning(3, Fulfilled),
                  Cleaning(2, Fulfilled), Cleaning(1, Fulfilled), Cleaning(0, Fulfilled)];
    forall n | 0 <= n < 10 ensures Step(WithRun(p, i, InBody(works[n])), es[n]) == WithRun(p, i, InBody(works[n + 1])) {
      RunSteps(p, i, works[n], es[n].e, works[n + 1]);
    }
    Chain(es, seq(11, n requires 0 <= n < 11 => WithRun(p, i, InBody(works[n]))));
  }

  /** The provider once the run has won its claim and asked for the secrets. */
  function Claimed(p: Provider): Provider
  {
    p.(ownedClaim := true, claimsWon := p.claimsWon + 1, secretRequests := p.secretRequests + 1)
  }

  lemma RunBegins(p: Provider, i: nat)
    requires FreeToGo(p, i)
    ensures Step(p, ResumeRun(i, true, NoReceipt)) == WithRun(p, i, AwaitingClaim)
  {}

  lemma RunClaims(p: Provider, i: nat)
    requires i < |p.runs| && !p.closing && p.runs[i].epoch == p.abortEpoch
    ensures Step(WithRun(p, i, AwaitingClaim), ClaimSettled(i, true, true)) == WithRun(Claimed(p), i, AwaitingSecrets)
    ensures Step(WithRun(p, i, AwaitingSecrets), SecretsSettled(i, true)) == WithRun(p, i, InBody(Acquiring(0)))
  {}

  lemma RunEnds(p: Provider, i: nat)
    requires i < |p.runs| && p.activeRun == i
    ensures Step(WithRun(p, i, InBody(Cleaning(0, Fulfilled))), RunBodyEnds(i)) == WithRun(p, i, RunSettled(Fulfilled))
    ensures Step(WithRun(p, i, RunSettled(Fulfilled)), ClearRun(i)) == WithRun(p, i, RunSettled(Fulfilled)).(activeRun := NONE)
  {}

  /** The run is free to go on: not stopped, and what it waits for was fulfilled. */
  predicate FreeToGo(p: Provider, i: nat)
  {
    && i < |p.runs| && !p.closing && p.runs[i].epoch == p.abortEpoch && !p.activeController && p.activeRun == i && p.runs[i].stage.AwaitingRecovery?
    && (p.runs[i].stage.wait.WaitFor? ==> var k := p.runs[i].stage.wait.recovery;
                                          k < |p.recoveries| && p.recoveries[k] == RecoverySettled(Fulfilled) && p.activeRecovery != k)
  }

  lemma ClaimedStays(p: Provider, i: nat)
    requires FreeToGo(p, i)
    ensures var q := Claimed(p);
            && i < |q.runs| && !q.closing && q.runs[i].epoch == q.abortEpoch && q.activeRun == i
            && WithRun(q, i, RunSettled(Fulfilled)).(activeRun := NONE)
               == p.(runs := p.runs[i := Run(p.abortEpoch, RunSettled(Fulfilled))], activeRun := NONE, ownedClaim := true,
                     claimsWon := p.claimsWon + 1, secretRequests := p.secretRequests + 1)
  {}

  /** A run behind its recovery that nothing disturbs is fulfilled, with one claim won and one request for secrets. */
  lemma UndisturbedRun(p: Provider, i: nat)
    requires FreeToGo(p, i)
    ensures RunEvents(p, RunScript(i))
            == p.(runs := p.runs[i := Run(p.abortEpoch, RunSettled(Fulfilled))], activeRun := NONE, ownedClaim := true,
                  claimsWon := p.claimsWon + 1, secretRequests := p.secretRequests + 1)
  {
    hide Step, RunEvents, Claimed, WithRun;
    var es := RunScript(i);
    var q := Claimed(p);
    ClaimedStays(p, i);
    RunBegins(p, i);
    RunClaims(p, i);
    RunClaims(q, i);
    RunWorkRuns(q, i);
    RunEnds(q, i);
    assert es == [es[0]] + ([es[1]] + ([es[2]] + (es[3..13] + ([es[13]] + ([es[14]] + [])))));
    RunsFirst(p, es[0], [es[1]] + ([es[2]] + (es[3..13] + ([es[13]] + ([es[14]] + [])))));
    RunsFirst(WithRun(p, i, AwaitingClaim), es[1], [es[2]] + (es[3..13] + ([es[13]] + ([es[14]] + []))));
    RunsFirst(WithRun(q, i, AwaitingSecrets), es[2], es[3..13] + ([es[13]] + ([es[14]] + [])));
    RunsOn(WithRun(q, i, InBody(Acquiring(0))), es[3..13], [es[13]] + ([es[14]] + []));
    RunsFirst(WithRun(q, i, InBody(Cleaning(0, Fulfilled))), es[13], [es[14]] + []);
    RunsFirst(WithRun(q, i, RunSettled(Fulfilled)), es[14], []);
    NothingRuns(WithRun(q, i, RunSettled(Fulfilled)).(activeRun := NONE));
  }

  /** On every reachable provider that is idle and open, an undisturbed run gets its receipt: behind one fulfilled
      recovery if the store was interrupted, and behind none if it was quiet. */
  lemma CanaryCompletes(p: Provider, interrupted: bool)
    requires Inv(p) && Idle(p) && !p.closing
    ensures var (i, k) := (|p.runs|, |p.recoveries|);
            RunEvents(p, [Execute(true, NoReceipt, interrupted)] + (if interrupted then RecoveryScript(k) else []) + RunScript(i))
            == p.(runs := p.runs + [Run(p.abortEpoch, RunSettled(Fulfilled))], reconciled := true, ownedClaim := true,
                  recoveries := p.recoveries + (if interrupted then [RecoverySettled(Fulfilled)] else []),
                  claimsWon := p.claimsWon + 1, secretRequests := p.secretRequests + 1)
  {
    hide Step, RunEvents, Inv, RecoveryScript, RunScript;
    var (i, k) := (|p.runs|, |p.recoveries|);
    var recovers := if interrupted then RecoveryScript(k) else [];
    var q := Step(p, Execute(true, NoReceipt, interrupted));
    IdleExecutes(p, interrupted);
    assert [Execute(true, NoReceipt, interrupted)] + recovers + RunScript(i) == [Execute(true, NoReceipt, interrupted)] + (recovers + RunScript(i));
    RunsFirst(p, Execute(true, NoReceipt, interrupted), recovers + RunScript(i));
    RunsOn(q, recovers, RunScript(i));
    if interrupted { UndisturbedRecovery(q, k); } else { NothingRuns(q); }
    UndisturbedRun(RunEvents(q, recovers), i);
  }

  lemma IdleExecutes(p: Provider, interrupted: bool)
    requires Inv(p) && Idle(p) && !p.closing
    ensures Step(p, Execute(true, NoReceipt, interrupted))
            == p.(runs := p.runs + [Run(p.abortEpoch, AwaitingRecovery(if interrupted then WaitFor(|p.recoveries|, true) else NoWait))],
                  activeRun := |p.runs|, reconciled := !interrupted,
                  recoveries := p.recoveries + (if interrupted then [AwaitingStorageSecrets] else []),
                  activeRecovery := if interrupted then |p.recoveries| else NONE)
    ensures p.activeRun == NONE && p.activeRecovery == NONE
  {}
}
