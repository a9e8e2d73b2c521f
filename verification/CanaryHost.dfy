/** Startup and shutdown of a canary host around its provider, and the processes that share one profile lock
    and one permanent claim (apps/cli/src/x-canary-operator-host-core.ts:633-733,
    canary-operator-startup-cleanup.ts:39-105, profile-service-lock-core.ts:282-547). */
module CanaryHost {
  import opened CanaryProvider

  /** A resource of the host. `Lost`: opening gave no handle back, or closing failed. */
  datatype Handle = Unopened | Open | Shut | Lost

  datatype Captured = Captured(run: int, recovery: int, status: int)

  datatype HostStage =
    | Preparing                                          // lock and paths are checked, nothing is open
    | Opening(next: nat)                                 // 0 runtime, 1 research, 2 event store, 3 provider
    | Initializing(wait: Wait)
    | CheckingClaim
    | OpeningServer
    | Serving
    | Closing(step: nat, failed: bool)                   // the next cleanup step of `closeCanaryResourceSet`
    | AwaitingCanary(captured: Captured, failed: bool)   // inside the provider's `close`
    | Ended(clean: bool)

  /** `startupIncomplete`: startup failed with an incomplete-cleanup error of its own. */
  datatype Host = Host(stage: HostStage, runtime: Handle, research: Handle, store: Handle, server: Handle, startupIncomplete: bool,
                       provider: Provider)

  const START: Host := Host(Preparing, Unopened, Unopened, Unopened, Unopened, false, FRESH)

  datatype HostEvent =
    | Prepared(ok: bool)
    | Opens(ok: bool)
    | Initializes(interrupted: bool)
    | ResumesInitialize
    | ClaimChecked(ok: bool)
    | ServerOpens(ok: bool, abort: Outcome)
    | Provides(e: Event)
    | CloseRequested(abort: Outcome)
    | Cleans(ok: bool)
    | CanaryClosed

  /** The host's `close`: the provider stops admitting work before the first cleanup step. */
  function BeginClose(h: Host, abort: Outcome): Host
  {
    h.(stage := Closing(0, false), provider := OnBeginClosing(h.provider, abort))
  }

  /** A failed startup closes what it opened; an acquisition that failed or an incomplete cleanup is remembered. */
  function FailStartup(h: Host, incomplete: bool, abort: Outcome): Host
  {
    BeginClose(h.(startupIncomplete := incomplete), abort)
  }

  function OnOpens(h: Host, ok: bool): Host
  {
    if !h.stage.Opening? then h
    else
      var handle := if ok then Open else Lost;
      var n := h.stage.next;
      var g := if n == 0 then h.(runtime := handle) else if n == 1 then h.(research := handle) else if n == 2 then h.(store := handle) else h;
      if !ok then FailStartup(g, true, Fulfilled) else g.(stage := Opening(n + 1))
  }

  /** `initialize` up to its first await. */
  function OnInitializes(h: Host, interrupted: bool): Host
  {
    if h.stage != Opening(4) then h
    else
      var (p, wait) := RecoverIfPossible(h.provider, interrupted);
      h.(provider := p, stage := Initializing(wait))
  }

  function OnResumesInitialize(h: Host): Host
  {
    if !(h.stage.Initializing? && WaitOver(h.provider, h.stage.wait)) then h
    else
      var outcome := WaitOutcome(h.provider, h.stage.wait, true);
      if outcome == Fulfilled then h.(stage := CheckingClaim) else FailStartup(h.(provider := Latch(h.provider, outcome)), outcome == Incomplete, Fulfilled)
  }

  function OnServerOpens(h: Host, ok: bool, abort: Outcome): Host
  {
    if !h.stage.OpeningServer? then h
    else if ok then h.(server := Open, stage := Serving) else FailStartup(h.(server := Lost), true, abort)
  }

  /** Requests reach the provider only through the server, which may listen before its promise settles. */
  predicate Entry(e: Event) { e.ReadStatus? || e.Execute? || e.Abort? || e.BeginClosing? }

  predicate Reaches(stage: HostStage, e: Event)
  {
    match stage
    case Preparing => false
    case Opening(_) => false
    case OpeningServer => !e.BeginClosing?
    case Serving => !e.BeginClosing?
    case Closing(_, _) => !e.BeginClosing?
    case AwaitingCanary(_, _) => !e.BeginClosing?
    case Ended(_) => !e.BeginClosing?
    case _ => !Entry(e)
  }

  function Closes(handle: Handle, ok: bool): Handle { if handle.Open? then (if ok then Shut else Lost) else handle }

  /** The cleanup steps in order; closing what was never opened succeeds. */
  function OnCleans(h: Host, ok: bool): Host
  {
    if !h.stage.Closing? then h
    else
      var n := h.stage.step;
      if n == 2 then
        h.(stage := AwaitingCanary(Captured(h.provider.activeRun, h.provider.activeRecovery, h.provider.activeStatus), h.stage.failed))
      else
        var g := match n
                 case 1 => h.(server := Closes(h.server, ok))
                 case 3 => h.(store := Closes(h.store, ok))
                 case 4 => h.(research := Closes(h.research, ok))
                 case 5 => h.(runtime := Closes(h.runtime, ok))
                 case _ => h;
        var failed := h.stage.failed || !ok;
        g.(stage := if n >= 5 then Ended(!failed) else Closing(n + 1, failed))
  }

  predicate CapturedSettled(p: Provider, c: Captured)
  {
    && (0 <= c.run < |p.runs| ==> p.runs[c.run].stage.RunSettled?)
    && (0 <= c.recovery < |p.recoveries| ==> p.recoveries[c.recovery].RecoverySettled?)
    && (0 <= c.status < |p.statuses| ==> p.statuses[c.status].StatusSettled?)
  }

  /** What the awaited work left to remember. */
  function LatchCaptured(p: Provider, c: Captured): Provider
    requires CapturedSettled(p, c)
  {
    var q := if 0 <= c.run < |p.runs| then Latch(p, p.runs[c.run].stage.outcome) else p;
    var r := if 0 <= c.recovery < |p.recoveries| then Latch(q, p.recoveries[c.recovery].outcome) else q;
    if 0 <= c.status < |p.statuses| then Latch(r, p.statuses[c.status].outcome) else r
  }

  /** The provider's `close` behind its awaits: it fails if anything was left open, or the abort failed. */
  function OnCanaryClosed(h: Host): Host
  {
    if !(h.stage.AwaitingCanary? && CapturedSettled(h.provider, h.stage.captured)) then h
    else
      var p := LatchCaptured(h.provider, h.stage.captured);
      h.(provider := p, stage := Closing(3, h.stage.failed || p.incomplete || p.abortFailed))
  }

  function HostStep(h: Host, e: HostEvent): Host
  {
    match e
    case Prepared(ok) =>
      if !h.stage.Preparing? then h else if ok then h.(stage := Opening(0)) else h.(stage := Ended(true), provider := OnBeginClosing(FRESH, Fulfilled))
    case Opens(ok) => if h.stage == Opening(4) then h else OnOpens(h, ok)
    case Initializes(interrupted) => OnInitializes(h, interrupted)
    case ResumesInitialize => OnResumesInitialize(h)
    case ClaimChecked(ok) => if !h.stage.CheckingClaim? then h else if ok then h.(stage := OpeningServer) else FailStartup(h, false, Fulfilled)
    case ServerOpens(ok, abort) => OnServerOpens(h, ok, abort)
    case Provides(e) => if Reaches(h.stage, e) then h.(provider := Step(h.provider, e)) else h
    case CloseRequested(abort) => if h.stage.Serving? then BeginClose(h, abort) else h
    case Cleans(ok) => OnCleans(h, ok)
    case CanaryClosed => OnCanaryClosed(h)
  }

  /** The lock may go: everything was closed, and no startup left anything behind. */
  predicate MayRelease(h: Host) { h.stage == Ended(true) && !h.startupIncomplete }

  // ---------------------------------------------------------------- processes

  datatype Process =
    | Locking          // the lock file is created, not yet written and verified
    | Hosting(host: Host)
    | Released(host: Host)
    | GaveUp           // the lock could not be completed
    | Crashed(host: Host)

  /** The machine: the permanent claim marker, the lock file with its owner, and every process there ever was. */
  datatype Machine = Machine(marker: bool, lockFile: int, processes: map<nat, Process>, requests: nat)

  const BOOT: Machine := Machine(false, NONE, map[], 0)

  datatype MachineEvent =
    | CreateLock(pid: nat)
    | LockFails(pid: nat, removed: bool)
    | LockTaken(pid: nat)
    | Acts(pid: nat, e: HostEvent, marks: bool)
    | Releases(pid: nat, removed: bool)
    | Crashes(pid: nat)

  predicate WinsClaim(e: HostEvent) { e.Provides? && e.e.ClaimSettled? && e.e.won }

  predicate LosesClaim(e: HostEvent) { e.Provides? && e.e.ClaimSettled? && !e.e.won }

  /** One atomic step. The lock file is created exclusively and removed only by its owner; a claim is won only
      where there is no marker, and a claim that is not won may still leave one. */
  function MachineStep(m: Machine, e: MachineEvent): Machine
  {
    match e
    case CreateLock(pid) =>
      if pid in m.processes || m.lockFile != NONE then m else m.(lockFile := pid, processes := m.processes[pid := Locking])
    case LockFails(pid, removed) =>
      if pid in m.processes && m.processes[pid].Locking? then
        m.(processes := m.processes[pid := GaveUp], lockFile := if removed then NONE else m.lockFile)
      else m
    case LockTaken(pid) => if pid in m.processes && m.processes[pid].Locking? then m.(processes := m.processes[pid := Hosting(START)]) else m
    case Acts(pid, he, marks) =>
      if pid in m.processes && m.processes[pid].Hosting? && !(WinsClaim(he) && m.marker) then
        var h := m.processes[pid].host;
        var g := HostStep(h, he);
        m.(processes := m.processes[pid := Hosting(g)], marker := m.marker || g.provider.claimsWon > h.provider.claimsWon || (LosesClaim(he) && marks),
           requests := m.requests + (if g.provider.secretRequests > h.provider.secretRequests then g.provider.secretRequests - h.provider.secretRequests else 0))
      else m
    case Releases(pid, removed) =>
      if pid in m.processes && m.processes[pid].Hosting? && MayRelease(m.processes[pid].host) && removed then
        m.(processes := m.processes[pid := Released(m.processes[pid].host)], lockFile := NONE)
      else m
    case Crashes(pid) =>
      if pid in m.processes && m.processes[pid].Hosting? then m.(processes := m.processes[pid := Crashed(m.processes[pid].host)])
      else if pid in m.processes && m.processes[pid].Locking? then m.(processes := m.processes[pid := GaveUp])
      else m
  }

  function RunMachine(m: Machine, es: seq<MachineEvent>): Machine
  {
    if es == [] then m else MachineStep(RunMachine(m, es[..|es| - 1]), es[|es| - 1])
  }
}
