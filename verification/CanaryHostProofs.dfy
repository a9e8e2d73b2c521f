/** The profile lock is released only after every resource was closed normally, two processes never have
    anything open together, and the machine hands out the canary's secrets once. */
module CanaryHostProofs {
  import opened CanaryProvider
  import opened CanaryProviderProofs
  import opened CanaryHost

  // ---------------------------------------------------------------- a closing provider

  predicate AllSettled(p: Provider)
  {
    && (forall i :: 0 <= i < |p.runs| ==> p.runs[i].stage.RunSettled?)
    && (forall k :: 0 <= k < |p.recoveries| ==> p.recoveries[k].RecoverySettled?)
  }

  /** A closing provider starts nothing, and what has settled stays as it is. */
  ghost predicate Frozen(p: Provider, q: Provider)
  {
    && q.closing && |q.runs| == |p.runs| && |q.recoveries| == |p.recoveries| && (p.incomplete ==> q.incomplete)
    && (forall i :: 0 <= i < |p.runs| && p.runs[i].stage.RunSettled? ==> q.runs[i] == p.runs[i])
    && (forall k :: 0 <= k < |p.recoveries| && p.recoveries[k].RecoverySettled? ==> q.recoveries[k] == p.recoveries[k])
    && (AllSettled(p) ==> q.stranded == p.stranded)
  }

  lemma FrozenRest(p: Provider, q: Provider)
    requires q.closing && q.runs == p.runs && q.recoveries == p.recoveries && (p.incomplete ==> q.incomplete) && q.stranded == p.stranded
    ensures Frozen(p, q)
  {}

  lemma FrozenRun(p: Provider, q: Provider, i: nat)
    requires i < |p.runs| == |q.runs| && q.runs == p.runs[i := q.runs[i]] && q.recoveries == p.recoveries
    requires q.closing && (p.incomplete ==> q.incomplete) && !p.runs[i].stage.RunSettled?
    ensures Frozen(p, q)
  {}

  lemma FrozenRecovery(p: Provider, q: Provider, k: nat)
    requires k < |p.recoveries| == |q.recoveries| && q.recoveries == p.recoveries[k := q.recoveries[k]] && q.runs == p.runs
    requires q.closing && (p.incomplete ==> q.incomplete) && !p.recoveries[k].RecoverySettled?
    ensures Frozen(p, q)
  {}

  lemma ReadStatusFreezes(p: Provider, interrupted: bool)
    requires p.closing
    ensures Frozen(p, OnReadStatus(p, interrupted))
  {
    hide Frozen;
    FrozenRest(p, OnReadStatus(p, interrupted));
  }

  lemma ExecuteFreezes(p: Provider, runtimeOk: bool, existing: Existing, interrupted: bool)
    requires p.closing
    ensures Frozen(p, OnExecute(p, runtimeOk, existing, interrupted))
  {
    hide Frozen;
    FrozenRest(p, OnExecute(p, runtimeOk, existing, interrupted));
  }

  lemma AbortFreezes(p: Provider)
    requires p.closing
    ensures Frozen(p, OnAbort(p))
  {
    hide Frozen;
    FrozenRest(p, OnAbort(p));
  }

  lemma BeginClosingFreezes(p: Provider, abort: Outcome)
    requires p.closing
    ensures Frozen(p, OnBeginClosing(p, abort))
  {
    hide Frozen;
    FrozenRest(p, OnBeginClosing(p, abort));
  }

  lemma ResumeRunFreezes(p: Provider, i: nat, runtimeOk: bool, existing: Existing)
    requires p.closing
    ensures Frozen(p, OnResumeRun(p, i, runtimeOk, existing))
  {
    hide WaitOver, WaitOutcome, Stopped, Frozen, Resumed;
    if i < |p.runs| && p.runs[i].stage.AwaitingRecovery? { FrozenRun(p, OnResumeRun(p, i, runtimeOk, existing), i); } else { FrozenRest(p, p); }
  }

  lemma ClaimSettledFreezes(p: Provider, i: nat, won: bool, runtimeOk: bool)
    requires p.closing
    ensures Frozen(p, OnClaimSettled(p, i, won, runtimeOk))
  {
    hide Stopped, Frozen;
    if i < |p.runs| && p.runs[i].stage.AwaitingClaim? { FrozenRun(p, OnClaimSettled(p, i, won, runtimeOk), i); } else { FrozenRest(p, p); }
  }

  lemma SecretsSettledFreezes(p: Provider, i: nat, given: bool)
    requires p.closing
    ensures Frozen(p, OnSecretsSettled(p, i, given))
  {
    hide Stopped, Frozen;
    if i < |p.runs| && p.runs[i].stage.AwaitingSecrets? { FrozenRun(p, OnSecretsSettled(p, i, given), i); } else { FrozenRest(p, p); }
  }

  lemma RunWorksFreezes(p: Provider, i: nat, we: WorkEvent)
    requires p.closing
    ensures Frozen(p, OnRunWorks(p, i, we))
  {
    hide Proceed, Frozen;
    if i < |p.runs| && p.runs[i].stage.InBody? { FrozenRun(p, OnRunWorks(p, i, we), i); } else { FrozenRest(p, p); }
  }

  lemma RunBodyEndsFreezes(p: Provider, i: nat)
    requires p.closing
    ensures Frozen(p, OnRunBodyEnds(p, i))
  {
    hide Frozen;
    if i < |p.runs| && p.runs[i].stage.InBody? { FrozenRun(p, OnRunBodyEnds(p, i), i); } else { FrozenRest(p, p); }
  }

  lemma ClearRunFreezes(p: Provider, i: nat)
    requires p.closing
    ensures Frozen(p, OnClearRun(p, i))
  {
    hide Frozen;
    FrozenRest(p, OnClearRun(p, i));
  }

  lemma StorageSecretsSettledFreezes(p: Provider, k: nat, given: bool)
    requires p.closing
    ensures Frozen(p, OnStorageSecretsSettled(p, k, given))
  {
    hide Frozen;
    if k < |p.recoveries| && p.recoveries[k].AwaitingStorageSecrets? { FrozenRecovery(p, OnStorageSecretsSettled(p, k, given), k); } else { FrozenRest(p, p); }
  }

  lemma RecoveryWorksFreezes(p: Provider, k: nat, we: WorkEvent)
    requires p.closing
    ensures Frozen(p, OnRecoveryWorks(p, k, we))
  {
    hide Proceed, Frozen;
    if k < |p.recoveries| && p.recoveries[k].InRecovery? { FrozenRecovery(p, OnRecoveryWorks(p, k, we), k); } else { FrozenRest(p, p); }
  }

  lemma RecoveryBodyEndsFreezes(p: Provider, k: nat)
    requires p.closing
    ensures Frozen(p, OnRecoveryBodyEnds(p, k))
  {
    hide Frozen;
    if k < |p.recoveries| && p.recoveries[k].InRecovery? { FrozenRecovery(p, OnRecoveryBodyEnds(p, k), k); } else { FrozenRest(p, p); }
  }

  lemma FinishRecoveryFreezes(p: Provider, k: nat)
    requires p.closing
    ensures Frozen(p, OnFinishRecovery(p, k))
  {
    hide Frozen;
    FrozenRest(p, OnFinishRecovery(p, k));
  }

  lemma ResumeStatusFreezes(p: Provider, j: nat)
    requires p.closing
    ensures Frozen(p, OnResumeStatus(p, j))
  {
    hide WaitOver, WaitOutcome, Frozen;
    FrozenRest(p, OnResumeStatus(p, j));
  }

  lemma CredentialSettledFreezes(p: Provider, j: nat, ok: bool)
    requires p.closing
    ensures Frozen(p, OnCredentialSettled(p, j, ok))
  {
    hide Frozen;
    FrozenRest(p, OnCredentialSettled(p, j, ok));
  }

  lemma ClearStatusFreezes(p: Provider, j: nat)
    requires p.closing
    ensures Frozen(p, OnClearStatus(p, j))
  {
    hide Frozen;
    FrozenRest(p, OnClearStatus(p, j));
  }

  lemma StepFreezes(p: Provider, e: Event)
    requires p.closing
    ensures Frozen(p, Step(p, e))
  {
    hide Frozen, OnReadStatus, OnExecute, OnAbort, OnBeginClosing, OnResumeRun, OnClaimSettled, OnSecretsSettled, OnRunWorks, OnRunBodyEnds;
    hide OnClearRun, OnStorageSecretsSettled, OnRecoveryWorks, OnRecoveryBodyEnds, OnFinishRecovery, OnResumeStatus, OnCredentialSettled;
    hide OnClearStatus;
    match e
    case ReadStatus(interrupted) => ReadStatusFreezes(p, interrupted);
    case Execute(runtimeOk, existing, interrupted) => ExecuteFreezes(p, runtimeOk, existing, interrupted);
    case Abort => AbortFreezes(p);
    case BeginClosing(abort) => BeginClosingFreezes(p, abort);
    case ResumeRun(i, runtimeOk, existing) => ResumeRunFreezes(p, i, runtimeOk, existing);
    case ClaimSettled(i, won, runtimeOk) => ClaimSettledFreezes(p, i, won, runtimeOk);
    case SecretsSettled(i, given) => SecretsSettledFreezes(p, i, given);
    case RunWorks(i, we) => RunWorksFreezes(p, i, we);
    case RunBodyEnds(i) => RunBodyEndsFreezes(p, i);
    case ClearRun(i) => ClearRunFreezes(p, i);
    case StorageSecretsSettled(k, given) => StorageSecretsSettledFreezes(p, k, given);
    case RecoveryWorks(k, we) => RecoveryWorksFreezes(p, k, we);
    case RecoveryBodyEnds(k) => RecoveryBodyEndsFreezes(p, k);
    case FinishRecovery(k) => FinishRecoveryFreezes(p, k);
    case ResumeStatus(j) => ResumeStatusFreezes(p, j);
    case CredentialSettled(j, ok) => CredentialSettledFreezes(p, j, ok);
    case ClearStatus(j) => ClearStatusFreezes(p, j);
  }

  // ---------------------------------------------------------------- the provider's close

  /** Whatever is not awaited has settled, and was remembered if it was incomplete. */
  predicate CapturedOk(p: Provider, c: Captured)
  {
    && NONE <= c.run < |p.runs| && NONE <= c.recovery < |p.recoveries|
    && (forall i :: 0 <= i < |p.runs| && i != c.run ==>
         p.runs[i].stage.RunSettled? && (p.runs[i].stage.outcome == Incomplete ==> p.incomplete))
    && (forall k :: 0 <= k < |p.recoveries| && k != c.recovery ==>
         p.recoveries[k].RecoverySettled? && (p.recoveries[k].outcome == Incomplete ==> p.incomplete))
  }

  lemma CaptureOk(p: Provider)
    requires Sound(p)
    ensures CapturedOk(p, Captured(p.activeRun, p.activeRecovery, p.activeStatus))
  {
    hide Exclusive, OneShot, WorkOk, ControllerOk, FlagsOk, Blamed;
  }

  lemma CapturedStays(p: Provider, q: Provider, c: Captured)
    requires CapturedOk(p, c) && Frozen(p, q)
    ensures CapturedOk(q, c)
  {
    hide AllSettled;
  }

  ghost predicate Quiescent(p: Provider) { AllSettled(p) && p.stranded == 0 }

  lemma QuiescentStays(p: Provider, q: Provider)
    requires Quiescent(p) && Frozen(p, q)
    ensures Quiescent(q)
  {}

  lemma LatchSound(p: Provider, outcome: Outcome)
    requires Sound(p)
    ensures Sound(Latch(p, outcome))
  {
    hide Inv;
    LatchKeeps(p, outcome);
  }

  lemma LatchedSound(p: Provider, c: Captured)
    requires Sound(p) && CapturedSettled(p, c)
    ensures Sound(LatchCaptured(p, c)) && (p.closing ==> LatchCaptured(p, c).closing)
  {
    hide Sound;
    var q := if 0 <= c.run < |p.runs| then Latch(p, p.runs[c.run].stage.outcome) else p;
    if 0 <= c.run < |p.runs| { LatchSound(p, p.runs[c.run].stage.outcome); }
    var r := if 0 <= c.recovery < |p.recoveries| then Latch(q, p.recoveries[c.recovery].outcome) else q;
    if 0 <= c.recovery < |p.recoveries| { LatchSound(q, p.recoveries[c.recovery].outcome); }
    if 0 <= c.status < |p.statuses| { LatchSound(r, p.statuses[c.status].outcome); }
  }

  lemma LatchedSame(p: Provider, c: Captured)
    requires CapturedSettled(p, c)
    ensures LatchCaptured(p, c).runs == p.runs && LatchCaptured(p, c).recoveries == p.recoveries && LatchCaptured(p, c).stranded == p.stranded
    ensures p.incomplete ==> LatchCaptured(p, c).incomplete
    ensures 0 <= c.run < |p.runs| && p.runs[c.run].stage.outcome == Incomplete ==> LatchCaptured(p, c).incomplete
    ensures 0 <= c.recovery < |p.recoveries| && p.recoveries[c.recovery].outcome == Incomplete ==> LatchCaptured(p, c).incomplete
  {
    hide Latch;
    var q := if 0 <= c.run < |p.runs| then Latch(p, p.runs[c.run].stage.outcome) else p;
    if 0 <= c.run < |p.runs| { LatchFacts(p, p.runs[c.run].stage.outcome); }
    var r := if 0 <= c.recovery < |p.recoveries| then Latch(q, p.recoveries[c.recovery].outcome) else q;
    if 0 <= c.recovery < |p.recoveries| { LatchFacts(q, p.recoveries[c.recovery].outcome); }
    if 0 <= c.status < |p.statuses| { LatchFacts(r, p.statuses[c.status].outcome); }
  }

  /** The provider's `close` succeeds only when nothing is in flight and nothing was ever left open. */
  lemma CloseIsHonest(p: Provider, c: Captured)
    requires Sound(p) && CapturedOk(p, c) && CapturedSettled(p, c)
    ensures AllSettled(p) && (!LatchCaptured(p, c).incomplete ==> Quiescent(LatchCaptured(p, c)))
  {
    hide Inv, LatchCaptured;
    LatchedSame(p, c);
    var q := LatchCaptured(p, c);
    assert AllSettled(p);
    if p.stranded > 0 {
      if i :| 0 <= i < |p.runs| && BlamedRun(p.runs[i].stage) {
        assert p.runs[i].stage.RunSettled?;
      } else {
        var k :| 0 <= k < |p.recoveries| && BlamedRecovery(p.recoveries[k]);
        assert p.recoveries[k].RecoverySettled?;
      }
      assert q.incomplete;
    }
  }

  // ---------------------------------------------------------------- the host

  predicate HasLost(h: Host) { h.runtime.Lost? || h.research.Lost? || h.store.Lost? || h.server.Lost? }

  /** The cleanup steps already taken have left nothing open behind them. */
  predicate Swept(h: Host)
  {
    match h.stage
    case Preparing => h.runtime.Unopened? && h.research.Unopened? && h.store.Unopened? && h.server.Unopened? && !h.startupIncomplete
    case Closing(step, _) => step <= 5 && (step > 1 ==> !h.server.Open?) && (step > 3 ==> !h.store.Open?) && (step > 4 ==> !h.research.Open?)
    case AwaitingCanary(_, _) => !h.server.Open?
    case Ended(_) => !h.server.Open? && !h.store.Open? && !h.research.Open? && !h.runtime.Open?
    case _ => !HasLost(h) && !h.startupIncomplete
  }

  /** A lost resource is on record. */
  predicate LossKnown(h: Host)
  {
    HasLost(h) ==>
      || h.startupIncomplete
      || match h.stage
         case Closing(_, failed) => failed
         case AwaitingCanary(_, failed) => failed
         case Ended(clean) => !clean
         case _ => false
  }

  /** Behind the provider's close, a close that has not failed found everything quiet. */
  ghost predicate ProviderOk(h: Host)
  {
    match h.stage
    case Closing(step, failed) => h.provider.closing && (step > 2 && !failed ==> Quiescent(h.provider))
    case AwaitingCanary(captured, _) => h.provider.closing && CapturedOk(h.provider, captured)
    case Ended(clean) => h.provider.closing && (clean ==> Quiescent(h.provider))
    case _ => true
  }

  ghost predicate HostInv(h: Host) { Sound(h.provider) && Swept(h) && LossKnown(h) && ProviderOk(h) }

  lemma FreshSound()
    ensures Sound(FRESH)
  {
    FreshInv();
  }

  lemma StartInv()
    ensures HostInv(START)
  {
    FreshSound();
  }

  lemma ClosingSound(p: Provider, abort: Outcome)
    requires Sound(p)
    ensures Sound(OnBeginClosing(p, abort)) && OnBeginClosing(p, abort).closing
  {
    StepSound(p, Event.BeginClosing(abort));
    ClosingFlag(p, abort);
    assert Step(p, Event.BeginClosing(abort)) == OnBeginClosing(p, abort);
    hide Step, OnBeginClosing, Inv, Blamed;
  }

  lemma ClosingFlag(p: Provider, abort: Outcome)
    requires Sound(p)
    ensures OnBeginClosing(p, abort).closing
  {
    hide RunsOk, RecoveriesOk, Exclusive, OneShot, WorkOk, ControllerOk, Blamed;
  }

  lemma BeginCloseInv(h: Host, abort: Outcome)
    requires Sound(h.provider) && (HasLost(h) ==> h.startupIncomplete)
    ensures HostInv(BeginClose(h, abort))
  {
    hide Sound, OnBeginClosing, Quiescent;
    ClosingSound(h.provider, abort);
  }

  lemma OpensInv(h: Host, ok: bool)
    requires HostInv(h) && h.stage != Opening(4)
    ensures HostInv(OnOpens(h, ok))
  {
    hide Sound, BeginClose;
    if h.stage.Opening? && !ok {
      var n := h.stage.next;
      var g := if n == 0 then h.(runtime := Lost) else if n == 1 then h.(research := Lost) else if n == 2 then h.(store := Lost) else h;
      BeginCloseInv(g.(startupIncomplete := true), Fulfilled);
      hide HostInv;
    }
  }

  lemma FailInv(h: Host, incomplete: bool)
    requires HostInv(h) && (h.stage.Initializing? || h.stage.CheckingClaim?) && (h.startupIncomplete ==> incomplete)
    ensures HostInv(FailStartup(h, incomplete, Fulfilled))
  {
    hide Sound, BeginClose;
    BeginCloseInv(h.(startupIncomplete := incomplete), Fulfilled);
    hide HostInv;
  }

  lemma ServerOpensInv(h: Host, ok: bool, abort: Outcome)
    requires HostInv(h)
    ensures HostInv(OnServerOpens(h, ok, abort))
  {
    hide Sound, BeginClose;
    if h.stage.OpeningServer? && !ok {
      BeginCloseInv(h.(server := Lost, startupIncomplete := true), abort);
      hide HostInv;
    }
  }

  lemma RecoverSound(p: Provider, interrupted: bool)
    requires Sound(p)
    ensures Sound(RecoverIfPossible(p, interrupted).0)
  {
    RecoverKeeps(p, interrupted);
    var q := RecoverIfPossible(p, interrupted).0;
    RecoverGrows(p, interrupted);
    hide RecoverIfPossible, Inv;
    if Blamed(p) {
      Grown(p, q);
      BlameStays(p, q);
    }
  }

  lemma RecoverGrows(p: Provider, interrupted: bool)
    ensures p.runs <= RecoverIfPossible(p, interrupted).0.runs && p.recoveries <= RecoverIfPossible(p, interrupted).0.recoveries
    ensures RecoverIfPossible(p, interrupted).0.stranded == p.stranded
  {}

  lemma InitializesInv(h: Host, interrupted: bool)
    requires HostInv(h)
    ensures HostInv(OnInitializes(h, interrupted))
  {
    hide Sound, RecoverIfPossible;
    if h.stage == Opening(4) { RecoverSound(h.provider, interrupted); }
  }

  lemma ResumesInitializeInv(h: Host)
    requires HostInv(h)
    ensures HostInv(OnResumesInitialize(h))
  {
    hide Sound, WaitOutcome, FailStartup, Latch;
    if h.stage.Initializing? && WaitOver(h.provider, h.stage.wait) {
      hide WaitOver;
      var outcome := WaitOutcome(h.provider, h.stage.wait, true);
      LatchSound(h.provider, outcome);
      FailInv(h.(provider := Latch(h.provider, outcome)), outcome == Incomplete);
    }
  }

  lemma ProvidesInv(h: Host, e: Event)
    requires HostInv(h)
    ensures HostInv(h.(provider := Step(h.provider, e)))
  {
    hide Sound, Step, Frozen, Quiescent, CapturedOk;
    StepSound(h.provider, e);
    if h.provider.closing {
      StepFreezes(h.provider, e);
      var q := Step(h.provider, e);
      FrozenCloses(h.provider, q);
      if Quiescent(h.provider) { QuiescentStays(h.provider, q); }
      if h.stage.AwaitingCanary? { CapturedStays(h.provider, q, h.stage.captured); }
    }
  }

  lemma FrozenCloses(p: Provider, q: Provider)
    requires Frozen(p, q)
    ensures q.closing
  {}

  lemma CleansInv(h: Host, ok: bool)
    requires HostInv(h)
    ensures HostInv(OnCleans(h, ok))
  {
    hide Sound, CapturedOk, Quiescent;
    if h.stage.Closing? && h.stage.step == 2 { CaptureOk(h.provider); }
  }

  lemma CanaryClosedInv(h: Host)
    requires HostInv(h)
    ensures HostInv(OnCanaryClosed(h))
  {
    hide Sound, CapturedOk, Quiescent, LatchCaptured;
    if h.stage.AwaitingCanary? && CapturedSettled(h.provider, h.stage.captured) {
      hide CapturedSettled;
      LatchedSound(h.provider, h.stage.captured);
      CloseIsHonest(h.provider, h.stage.captured);
    }
  }

  lemma PreparedInv(h: Host, ok: bool)
    requires HostInv(h) && h.stage.Preparing?
    ensures HostInv(h.(stage := Opening(0))) && HostInv(h.(stage := Ended(true), provider := OnBeginClosing(FRESH, Fulfilled)))
  {
    FreshSound();
    ClosingSound(FRESH, Fulfilled);
    hide Sound;
  }

  lemma CheckedInv(h: Host)
    requires HostInv(h) && h.stage.CheckingClaim?
    ensures HostInv(h.(stage := OpeningServer))
  {
    hide Sound;
  }

  lemma ServingInv(h: Host, abort: Outcome)
    requires HostInv(h) && h.stage.Serving?
    ensures HostInv(BeginClose(h, abort))
  {
    hide Sound, BeginClose;
    BeginCloseInv(h, abort);
    hide HostInv;
  }

  lemma HostStepInv(h: Host, e: HostEvent)
    requires HostInv(h)
    ensures HostInv(HostStep(h, e))
  {
    hide HostInv, Step, OnOpens, OnInitializes, OnResumesInitialize, OnServerOpens, OnCleans, OnCanaryClosed, FailStartup, BeginClose, Reaches;
    hide OnBeginClosing;
    match e
    case Prepared(ok) => if h.stage.Preparing? { PreparedInv(h, ok); }
    case Opens(ok) => if h.stage != Opening(4) { OpensInv(h, ok); }
    case Initializes(interrupted) => InitializesInv(h, interrupted);
    case ResumesInitialize => ResumesInitializeInv(h);
    case ClaimChecked(ok) => if h.stage.CheckingClaim? { CheckedInv(h); CheckFailsInv(h); }
    case ServerOpens(ok, abort) => ServerOpensInv(h, ok, abort);
    case Provides(pe) => ProvidesInv(h, pe);
    case CloseRequested(abort) => if h.stage.Serving? { ServingInv(h, abort); }
    case Cleans(ok) => CleansInv(h, ok);
    case CanaryClosed => CanaryClosedInv(h);
  }

  lemma CheckFailsInv(h: Host)
    requires HostInv(h) && h.stage.CheckingClaim?
    ensures HostInv(FailStartup(h, false, Fulfilled))
  {
    hide Sound, FailStartup;
    FailInv(h, false);
  }

  function RunHost(h: Host, es: seq<HostEvent>): Host
  {
    if es == [] then h else HostStep(RunHost(h, es[..|es| - 1]), es[|es| - 1])
  }

  lemma {:induction false} EveryHostRun(es: seq<HostEvent>)
    ensures HostInv(RunHost(START, es))
  {
    hide HostInv, HostStep;
    if es == [] {
      StartInv();
    } else {
      EveryHostRun(es[..|es| - 1]);
      HostStepInv(RunHost(START, es[..|es| - 1]), es[|es| - 1]);
    }
  }

  /** Nothing of the host is open, nothing in flight, and nothing ever got lost. */
  ghost predicate AllClosedNormally(h: Host)
  {
    && !HasLost(h) && !h.runtime.Open? && !h.research.Open? && !h.store.Open? && !h.server.Open?
    && AllSettled(h.provider) && h.provider.stranded == 0
  }

  lemma ReleasedMeansClosed(h: Host)
    requires HostInv(h) && MayRelease(h)
    ensures AllClosedNormally(h)
  {
    hide Sound, AllSettled;
  }

  /** In every interleaving of startup, requests, aborts and shutdown, the profile lock may be released only
      after every resource that was acquired has closed normally. */
  lemma LockGoesLast(es: seq<HostEvent>)
    ensures MayRelease(RunHost(START, es)) ==> AllClosedNormally(RunHost(START, es))
  {
    EveryHostRun(es);
    hide HostInv, RunHost, MayRelease, AllClosedNormally;
    if MayRelease(RunHost(START, es)) { ReleasedMeansClosed(RunHost(START, es)); }
  }
}
