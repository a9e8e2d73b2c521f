/** What holds on a machine with any number of canary processes, started, stopped and crashed in any order. */
module CanaryMachineProofs {
  import opened CanaryProvider
  import opened CanaryProviderProofs
  import opened CanaryHost
  import opened CanaryHostProofs

  /** A process that holds the lock file, even if it died with it. */
  predicate Holds(p: Process) { p.Locking? || p.Hosting? || p.Crashed? }

  ghost predicate LockOk(m: Machine)
  {
    forall pid <- m.processes :: Holds(m.processes[pid]) ==> m.lockFile == pid
  }

  ghost predicate HostsOk(m: Machine)
  {
    forall pid <- m.processes ::
      && (m.processes[pid].Hosting? ==> HostInv(m.processes[pid].host) && (m.processes[pid].host.provider.claimsWon > 0 ==> m.marker))
      && (m.processes[pid].Released? ==> AllClosedNormally(m.processes[pid].host))
  }

  ghost predicate MachineInv(m: Machine)
  {
    LockOk(m) && HostsOk(m) && m.requests <= 1 && (m.requests > 0 ==> m.marker)
  }

  /** Only a won claim counts as one, and only with it are secrets requested. */
  lemma HostAsks(h: Host, e: HostEvent)
    requires HostInv(h)
    ensures HostStep(h, e).provider.secretRequests > h.provider.secretRequests || HostStep(h, e).provider.claimsWon > h.provider.claimsWon
            ==> WinsClaim(e) && HostStep(h, e).provider.claimsWon > h.provider.claimsWon
    ensures HostStep(h, e).provider.secretRequests <= 1
  {
    HostStepInv(h, e);
    AsksAtMostOnce(HostStep(h, e));
    if e.Provides? {
      OnlyTheClaimAsks(h.provider, e.e);
      ProvidesStep(h, e.e);
      hide HostStep, Step;
    } else {
      OthersAskNothing(h, e);
      hide HostStep;
    }
  }

  lemma ProvidesStep(h: Host, e: Event)
    ensures HostStep(h, Provides(e)).provider == h.provider || HostStep(h, Provides(e)).provider == Step(h.provider, e)
  {
    hide Step;
  }

  lemma AsksAtMostOnce(h: Host)
    requires HostInv(h)
    ensures h.provider.secretRequests <= 1
  {
    hide Swept, LossKnown, ProviderOk, RunsOk, RecoveriesOk, Exclusive, WorkOk, ControllerOk, FlagsOk, Blamed;
  }

  /** The two counters stay, or the provider starts afresh. */
  predicate AsksNothing(p: Provider, q: Provider) { q.secretRequests <= p.secretRequests && q.claimsWon <= p.claimsWon }

  lemma OthersAskNothing(h: Host, e: HostEvent)
    requires !e.Provides?
    ensures AsksNothing(h.provider, HostStep(h, e).provider)
  {
    match e
    case ResumesInitialize => ResumeAsksNothing(h);
    case CanaryClosed => CloseAsksNothing(h);
    case Initializes(interrupted) => InitializeAsksNothing(h, interrupted);
    case Cleans(ok) => hide OnResumesInitialize, OnCanaryClosed, OnInitializes, OnOpens, OnServerOpens, FailStartup, BeginClose;
    case _ => hide OnResumesInitialize, OnCanaryClosed, OnInitializes, OnCleans;
  }

  lemma ResumeAsksNothing(h: Host)
    ensures AsksNothing(h.provider, OnResumesInitialize(h).provider)
  {
    hide WaitOver, WaitOutcome;
  }

  lemma CloseAsksNothing(h: Host)
    ensures AsksNothing(h.provider, OnCanaryClosed(h).provider)
  {
    hide LatchCaptured;
    if h.stage.AwaitingCanary? && CapturedSettled(h.provider, h.stage.captured) { LatchedAsksNothing(h.provider, h.stage.captured); }
  }

  lemma LatchedAsksNothing(p: Provider, c: Captured)
    requires CapturedSettled(p, c)
    ensures AsksNothing(p, LatchCaptured(p, c))
  {
    hide Latch;
    var q := if 0 <= c.run < |p.runs| then Latch(p, p.runs[c.run].stage.outcome) else p;
    if 0 <= c.run < |p.runs| { LatchFacts(p, p.runs[c.run].stage.outcome); }
    var r := if 0 <= c.recovery < |p.recoveries| then Latch(q, p.recoveries[c.recovery].outcome) else q;
    if 0 <= c.recovery < |p.recoveries| { LatchFacts(q, p.recoveries[c.recovery].outcome); }
    if 0 <= c.status < |p.statuses| { LatchFacts(r, p.statuses[c.status].outcome); }
  }

  lemma InitializeAsksNothing(h: Host, interrupted: bool)
    ensures AsksNothing(h.provider, OnInitializes(h, interrupted).provider)
  {}

  lemma BootInv()
    ensures MachineInv(BOOT)
  {}

  lemma ActsInv(m: Machine, pid: nat, e: HostEvent, marks: bool)
    requires MachineInv(m)
    ensures MachineInv(MachineStep(m, Acts(pid, e, marks)))
  {
    hide HostInv, HostStep, AllClosedNormally;
    if pid in m.processes && m.processes[pid].Hosting? && !(WinsClaim(e) && m.marker) {
      var h := m.processes[pid].host;
      HostStepInv(h, e);
      HostAsks(h, e);
      var g, n := HostStep(h, e), MachineStep(m, Acts(pid, e, marks));
      assert m.marker ==> n.marker;
      forall other | other in n.processes
        ensures n.processes[other].Hosting? ==> HostInv(n.processes[other].host) && (n.processes[other].host.provider.claimsWon > 0 ==> n.marker)
        ensures n.processes[other].Released? ==> AllClosedNormally(n.processes[other].host)
        ensures Holds(n.processes[other]) ==> n.lockFile == other
      {
        if other != pid { assert n.processes[other] == m.processes[other]; }
      }
    }
  }

  lemma LockStepInv(m: Machine, e: MachineEvent)
    requires MachineInv(m) && !e.Acts?
    ensures MachineInv(MachineStep(m, e))
  {
    StartInv();
    hide HostInv, AllClosedNormally, MayRelease, HostStep;
    if e.Releases? && e.pid in m.processes && m.processes[e.pid].Hosting? && MayRelease(m.processes[e.pid].host) {
      ReleasedMeansClosed(m.processes[e.pid].host);
    }
  }

  lemma {:induction false} KeepsInv(m: Machine, es: seq<MachineEvent>)
    requires MachineInv(m)
    ensures MachineInv(RunMachine(m, es))
  {
    hide MachineInv, MachineStep;
    if es == [] {
    } else {
      KeepsInv(m, es[..|es| - 1]);
      var n, e := RunMachine(m, es[..|es| - 1]), es[|es| - 1];
      if e.Acts? { ActsInv(n, e.pid, e.e, e.marks); } else { LockStepInv(n, e); }
    }
  }

  lemma EveryMachineRun(es: seq<MachineEvent>)
    ensures MachineInv(RunMachine(BOOT, es))
  {
    BootInv();
    KeepsInv(BOOT, es);
  }

  /** A process with something open: its own resources, or storage under a run or a recovery. */
  ghost predicate HasOpen(p: Process)
  {
    p.Hosting? && (p.host.runtime.Open? || p.host.research.Open? || p.host.store.Open? || p.host.server.Open? || !AllSettled(p.host.provider))
  }

  /** However processes start, work, stop and crash, never do two of them have anything open at once; a
      process whose lock was released has closed everything; and a crash leaves the lock where it is. */
  lemma SingleWriter(es: seq<MachineEvent>, m: Machine)
    requires m == RunMachine(BOOT, es)
    ensures forall a, b :: a in m.processes && b in m.processes && HasOpen(m.processes[a]) && HasOpen(m.processes[b]) ==> a == b
    ensures forall a :: a in m.processes && m.processes[a].Released? ==> AllClosedNormally(m.processes[a].host)
    ensures forall a :: a in m.processes && m.processes[a].Crashed? ==> m.lockFile == a
  {
    EveryMachineRun(es);
    hide RunMachine, AllSettled, AllClosedNormally, HostInv;
  }

  /** After a crash no other process ever opens anything again. */
  lemma CrashIsFinal(m: Machine, es: seq<MachineEvent>, dead: nat)
    requires MachineInv(m) && dead in m.processes && m.processes[dead].Crashed?
    ensures dead in RunMachine(m, es).processes && RunMachine(m, es).processes[dead].Crashed?
    ensures forall a :: a in RunMachine(m, es).processes && Holds(RunMachine(m, es).processes[a]) ==> a == dead
  {
    hide HostsOk, HostInv, HostStep, MayRelease;
    if es == [] {
    } else {
      CrashIsFinal(m, es[..|es| - 1], dead);
      KeepsInv(m, es[..|es| - 1]);
      KeepsInv(m, es);
      StillDead(RunMachine(m, es[..|es| - 1]), es[|es| - 1], dead);
    }
  }

  lemma StillDead(m: Machine, e: MachineEvent, dead: nat)
    requires dead in m.processes && m.processes[dead].Crashed?
    ensures dead in MachineStep(m, e).processes && MachineStep(m, e).processes[dead].Crashed?
  {
    hide HostStep, MayRelease;
  }

  /** On one machine the canary's secrets are requested at most once, ever: over all processes, restarts and
      crashes, and only with the permanent claim in place. */
  lemma SecretsLeaveOnce(es: seq<MachineEvent>)
    ensures RunMachine(BOOT, es).requests <= 1
    ensures RunMachine(BOOT, es).requests == 1 ==> RunMachine(BOOT, es).marker
  {
    EveryMachineRun(es);
    hide RunMachine, LockOk, HostsOk;
  }
}
