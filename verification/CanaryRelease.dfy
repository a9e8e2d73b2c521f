/** When the profile lock may be released: exactly once the host has ended and no opening, no closing step and no close
    of the provider ever failed (apps/cli/src/x-canary-operator-host-core.ts:633-733,
    canary-operator-startup-cleanup.ts:39-105). */
module CanaryRelease {
  import opened CanaryProvider
  import opened CanaryProviderProofs
  import opened CanaryHost
  import opened CanaryHostProofs
  import opened CanaryOutcomes

  /** The event leaves something behind: an opening that gave no handle back, an initialization that left something open,
      a closing step that failed, or a provider that remembers an incomplete cleanup or a failed abort. */
  predicate LeavesBehind(h: Host, e: HostEvent)
  {
    match e
    case Opens(ok) => h.stage.Opening? && h.stage.next != 4 && !ok
    case ServerOpens(ok, _) => h.stage.OpeningServer? && !ok
    case ResumesInitialize => h.stage.Initializing? && WaitOver(h.provider, h.stage.wait) && Awaited(h.provider, h.stage.wait) == Incomplete
    case Cleans(ok) => h.stage.Closing? && h.stage.step != 2 && !ok
    case CanaryClosed =>
      && h.stage.AwaitingCanary? && CapturedSettled(h.provider, h.stage.captured)
      && (h.provider.abortFailed || h.provider.incomplete || CapturedLoses(h.provider, h.stage.captured))
    case _ => false
  }

  /** Some of the awaited work ended with an incomplete cleanup. */
  predicate CapturedLoses(p: Provider, c: Captured)
  {
    || (0 <= c.run < |p.runs| && p.runs[c.run].stage == RunSettled(Incomplete))
    || (0 <= c.recovery < |p.recoveries| && p.recoveries[c.recovery] == RecoverySettled(Incomplete))
    || (0 <= c.status < |p.statuses| && p.statuses[c.status] == StatusSettled(Incomplete))
  }

  /** Nothing is known to be left behind. */
  predicate Tidy(h: Host)
  {
    && !h.startupIncomplete
    && match h.stage
       case Closing(_, failed) => !failed
       case AwaitingCanary(_, failed) => !failed
       case Ended(clean) => clean
       case _ => true
  }

  lemma TidyIsRelease(h: Host)
    ensures MayRelease(h) <==> h.stage.Ended? && Tidy(h)
  {}

  /** Before anything is closed, nothing is on record. */
  lemma EarlyIsTidy(h: Host)
    requires HostInv(h) && !h.stage.Closing? && !h.stage.AwaitingCanary? && !h.stage.Ended?
    ensures Tidy(h)
  {
    hide Sound, LossKnown, ProviderOk;
  }

  lemma LatchedRemembers(p: Provider, c: Captured)
    requires CapturedSettled(p, c)
    ensures LatchCaptured(p, c).incomplete == (p.incomplete || CapturedLoses(p, c)) && LatchCaptured(p, c).abortFailed == p.abortFailed
  {
    hide Latch;
    var q := if 0 <= c.run < |p.runs| then Latch(p, p.runs[c.run].stage.outcome) else p;
    if 0 <= c.run < |p.runs| { LatchRemembers(p, p.runs[c.run].stage.outcome); }
    var r := if 0 <= c.recovery < |p.recoveries| then Latch(q, p.recoveries[c.recovery].outcome) else q;
    if 0 <= c.recovery < |p.recoveries| { LatchRemembers(q, p.recoveries[c.recovery].outcome); }
    if 0 <= c.status < |p.statuses| { LatchRemembers(r, p.statuses[c.status].outcome); }
  }

  lemma LatchRemembers(p: Provider, outcome: Outcome)
    ensures var q := Latch(p, outcome);
            && q.incomplete == (p.incomplete || outcome == Incomplete) && q.abortFailed == p.abortFailed
            && q.runs == p.runs && q.recoveries == p.recoveries && q.statuses == p.statuses
  {}

  lemma OpensTidy(h: Host, e: HostEvent)
    requires HostInv(h) && (e.Opens? || e.ServerOpens? || e.Prepared? || e.ClaimChecked? || e.CloseRequested?)
    ensures Tidy(HostStep(h, e)) <==> Tidy(h) && !LeavesBehind(h, e)
  {
    hide HostInv, OnBeginClosing, WaitOver, Awaited;
    if !h.stage.Closing? && !h.stage.AwaitingCanary? && !h.stage.Ended? { EarlyIsTidy(h); }
  }

  lemma InitializeTidy(h: Host, e: HostEvent)
    requires HostInv(h) && (e.Initializes? || e.ResumesInitialize?)
    ensures Tidy(HostStep(h, e)) <==> Tidy(h) && !LeavesBehind(h, e)
  {
    hide HostInv, OnBeginClosing, RecoverIfPossible, Latch;
    if !h.stage.Closing? && !h.stage.AwaitingCanary? && !h.stage.Ended? { EarlyIsTidy(h); }
    if h.stage.Initializing? && WaitOver(h.provider, h.stage.wait) { AwaitedIs(h.provider, h.stage.wait); }
    hide WaitOver, WaitOutcome, Awaited;
  }

  lemma CleansTidy(h: Host, e: HostEvent)
    requires HostInv(h) && (e.Cleans? || e.CanaryClosed? || e.Provides?)
    ensures Tidy(HostStep(h, e)) <==> Tidy(h) && !LeavesBehind(h, e)
  {
    hide HostInv, Step, Reaches, LatchCaptured, CapturedSettled, CapturedLoses;
    if e.CanaryClosed? && h.stage.AwaitingCanary? && CapturedSettled(h.provider, h.stage.captured) { LatchedRemembers(h.provider, h.stage.captured); }
  }

  lemma HostStepTidy(h: Host, e: HostEvent)
    requires HostInv(h)
    ensures Tidy(HostStep(h, e)) <==> Tidy(h) && !LeavesBehind(h, e)
  {
    hide HostInv, HostStep, Tidy, LeavesBehind;
    match e
    case Initializes(_) => InitializeTidy(h, e);
    case ResumesInitialize => InitializeTidy(h, e);
    case Cleans(_) => CleansTidy(h, e);
    case CanaryClosed => CleansTidy(h, e);
    case Provides(_) => CleansTidy(h, e);
    case _ => OpensTidy(h, e);
  }

  ghost predicate LeftBehind(es: seq<HostEvent>) { exists n :: 0 <= n < |es| && LeavesBehind(RunHost(START, es[..n]), es[n]) }

  lemma LeftBehindMore(es: seq<HostEvent>)
    requires es != []
    ensures var was := es[..|es| - 1]; LeftBehind(es) <==> LeftBehind(was) || LeavesBehind(RunHost(START, was), es[|es| - 1])
  {
    hide RunHost, LeavesBehind;
    var was := es[..|es| - 1];
    if LeftBehind(es) {
      var n :| 0 <= n < |es| && LeavesBehind(RunHost(START, es[..n]), es[n]);
      assert n < |was| ==> was[..n] == es[..n] && was[n] == es[n];
    }
    if LeftBehind(was) {
      var n :| 0 <= n < |was| && LeavesBehind(RunHost(START, was[..n]), was[n]);
      assert was[..n] == es[..n] && was[n] == es[n];
    }
  }

  lemma {:induction false} TidyIff(es: seq<HostEvent>)
    ensures Tidy(RunHost(START, es)) <==> !LeftBehind(es)
  {
    hide HostInv, HostStep, Tidy, LeavesBehind, LeftBehind;
    if es == [] {
      TidyStart();
    } else {
      var was := es[..|es| - 1];
      TidyIff(was);
      EveryHostRun(was);
      HostStepTidy(RunHost(START, was), es[|es| - 1]);
      LeftBehindMore(es);
    }
  }

  lemma TidyStart()
    ensures Tidy(START) && !LeftBehind([])
  {}

  /** Over every run of the host, the lock may be released if and only if the host has ended and nothing was ever
      left behind. */
  lemma ReleaseIff(es: seq<HostEvent>)
    ensures MayRelease(RunHost(START, es)) <==> RunHost(START, es).stage.Ended? && !LeftBehind(es)
  {
    hide RunHost, LeftBehind, Tidy;
    TidyIff(es);
    TidyIsRelease(RunHost(START, es));
  }

  // ---------------------------------------------------------------- an undisturbed host

  /** The host's startup on a quiet store, and its shutdown when nothing is running. */
  const STARTUP: seq<HostEvent> := [
    Prepared(true), HostEvent.Opens(true), HostEvent.Opens(true), HostEvent.Opens(true), HostEvent.Opens(true), Initializes(false), ResumesInitialize,
    ClaimChecked(true), ServerOpens(true, Fulfilled)]

  const SHUTDOWN: seq<HostEvent> := [
    CloseRequested(Fulfilled), Cleans(true), Cleans(true), Cleans(true), CanaryClosed, Cleans(true), Cleans(true), Cleans(true)]

  const QUIET: Provider := FRESH.(reconciled := true)
  const CLOSED: Provider := QUIET.(closingBegan := true, closing := true, abortEpoch := 1)
  const NOTHING: Captured := Captured(NONE, NONE, NONE)

  /** The host at each of its stages on the way. */
  const GOING: seq<Host> := [
    START, START.(stage := Opening(0)), Host(Opening(1), Open, Unopened, Unopened, Unopened, false, FRESH),
    Host(Opening(2), Open, Open, Unopened, Unopened, false, FRESH), Host(Opening(3), Open, Open, Open, Unopened, false, FRESH),
    Host(Opening(4), Open, Open, Open, Unopened, false, FRESH), Host(Initializing(NoWait), Open, Open, Open, Unopened, false, QUIET),
    Host(CheckingClaim, Open, Open, Open, Unopened, false, QUIET), Host(OpeningServer, Open, Open, Open, Unopened, false, QUIET),
    Host(Serving, Open, Open, Open, Open, false, QUIET), Host(Closing(0, false), Open, Open, Open, Open, false, CLOSED),
    Host(Closing(1, false), Open, Open, Open, Open, false, CLOSED), Host(Closing(2, false), Open, Open, Open, Shut, false, CLOSED),
    Host(AwaitingCanary(NOTHING, false), Open, Open, Open, Shut, false, CLOSED), Host(Closing(3, false), Open, Open, Open, Shut, false, CLOSED),
    Host(Closing(4, false), Open, Open, Shut, Shut, false, CLOSED), Host(Closing(5, false), Open, Shut, Shut, Shut, false, CLOSED),
    Host(Ended(true), Shut, Shut, Shut, Shut, false, CLOSED)]

  lemma GoesUp(n: nat)
    requires n < 9
    ensures HostStep(GOING[n], STARTUP[n]) == GOING[n + 1]
  {}

  lemma GoesDown(n: nat)
    requires n < 8
    ensures HostStep(GOING[9 + n], SHUTDOWN[n]) == GOING[10 + n]
  {}

  lemma {:induction false} HostChain(es: seq<HostEvent>, hs: seq<Host>)
    requires |hs| == |es| + 1 && forall n :: 0 <= n < |es| ==> HostStep(hs[n], es[n]) == hs[n + 1]
    ensures RunHost(hs[0], es) == hs[|es|]
  {
    hide HostStep;
    if es != [] { HostChain(es[..|es| - 1], hs[..|es|]); }
  }

  lemma {:induction false} HostRunsOn(h: Host, es: seq<HostEvent>, fs: seq<HostEvent>)
    ensures RunHost(h, es + fs) == RunHost(RunHost(h, es), fs)
  {
    hide HostStep;
    if fs == [] {
      assert es + fs == es;
    } else {
      assert (es + fs)[..|es + fs| - 1] == es + fs[..|fs| - 1];
      HostRunsOn(h, es, fs[..|fs| - 1]);
    }
  }

  /** An undisturbed host gets to serve, and once it is asked to close it ends with everything shut and the lock free
      to go. */
  lemma HostCompletes()
    ensures RunHost(START, STARTUP).stage == Serving
    ensures MayRelease(RunHost(START, STARTUP + SHUTDOWN))
  {
    hide HostStep, RunHost;
    forall n | 0 <= n < 9 ensures HostStep(GOING[n], STARTUP[n]) == GOING[n + 1] { GoesUp(n); }
    forall n | 0 <= n < 8 ensures HostStep(GOING[9 + n], SHUTDOWN[n]) == GOING[10 + n] { GoesDown(n); }
    HostChain(STARTUP, GOING[..10]);
    HostChain(SHUTDOWN, GOING[9..]);
    HostRunsOn(START, STARTUP, SHUTDOWN);
  }

  // ---------------------------------------------------------------- the lock changes hands

  /** Once a host may release the lock and does, a new process can take it; what another process hosts stays as it is. */
  lemma LockIsHandedOn(m: Machine, pid: nat, next: nat)
    requires pid in m.processes && m.processes[pid].Hosting? && MayRelease(m.processes[pid].host) && next !in m.processes
    ensures var n := RunMachine(m, [MachineEvent.Releases(pid, true), CreateLock(next), LockTaken(next)]);
            && n.lockFile == next && n.processes == m.processes[pid := Released(m.processes[pid].host)][next := Hosting(START)]
            && n.marker == m.marker && n.requests == m.requests
  {
    var one, two, three := [MachineEvent.Releases(pid, true)], [MachineEvent.Releases(pid, true), CreateLock(next)],
      [MachineEvent.Releases(pid, true), CreateLock(next), LockTaken(next)];
    assert one[..0] == [] && two[..1] == one && three[..2] == two;
    assert RunMachine(m, []) == m;
    assert RunMachine(m, one) == m.(processes := m.processes[pid := Released(m.processes[pid].host)], lockFile := NONE);
    assert RunMachine(m, two) == MachineStep(RunMachine(m, one), CreateLock(next));
    assert RunMachine(m, three) == MachineStep(RunMachine(m, two), LockTaken(next));
  }
}
