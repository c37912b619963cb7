/** One VM's lifecycle: staged start with rollback, shutdown with aggregated cleanup,
    and reconciliation of what an earlier attempt left on the host. */
module VmLifecycle {
  import opened Optional
  import opened VmHost

  // Errors, as far as they say which releases failed.

  datatype NetworkFailure = NetworkFailure(nftables: bool, tap: bool)

  datatype VmFailure = VmFailure(shutdown: bool, cleanup: bool)

  datatype PrepareError = SetupFailed | SetupRollback(rollback: NetworkFailure)

  datatype Stage = PreparingVm | StartingVm | AttachingConsole | FindingPid | JoiningCgroup(rollbackFailed: bool)

  datatype StartError =
    | NetworkError(prepare: PrepareError)
    | StartupRollback(stage: Stage, vm: Option<VmFailure>, network: Option<NetworkFailure>)

  datatype ReconcileFailure =
    ReconcileFailure(processes: bool, network: Option<NetworkFailure>, socket: bool, health: bool, serialLog: bool)

  datatype CleanupFailure = CleanupFailure(vm: bool, network: Option<NetworkFailure>, health: bool)

  datatype ShutdownError =
    | ReconcileError(reconcile: ReconcileFailure)
    | ShutdownCleanup(shutdown: bool, cleanup: Option<CleanupFailure>)

  predicate TableReported(n: Option<NetworkFailure>) {
    n.Some? && n.value.nftables
  }

  predicate TapReported(n: Option<NetworkFailure>) {
    n.Some? && n.value.tap
  }

  function NetworkRollback(e: StartError): Option<NetworkFailure> {
    match e
    case NetworkError(SetupFailed) => None
    case NetworkError(SetupRollback(rollback)) => Some(rollback)
    case StartupRollback(_, _, network) => network
  }

  function VmRollback(e: StartError): Option<VmFailure> {
    if e.StartupRollback? then e.vm else None
  }

  /** Everything a failed start still holds is named by a rollback failure in its error. */
  predicate StartAccounted(before: HostState, after: HostState, e: StartError) {
    var vm := VmRollback(e);
    && (after.procs > 0 ==> vm.Some? && vm.value.shutdown)
    && (after.socket || after.fifo ==> vm.Some? && vm.value.cleanup)
    && (after.tap ==> TapReported(NetworkRollback(e)))
    && (after.table ==> TableReported(NetworkRollback(e)))
    && (after.cgroup ==> before.cgroup || (e.StartupRollback? && e.stage == JoiningCgroup(true)))
  }

  /** No release failed on the way out of a start. */
  predicate NoRollbackFailure(e: StartError) {
    NetworkRollback(e).None? && VmRollback(e).None? && !(e.StartupRollback? && e.stage == JoiningCgroup(true))
  }

  predicate ReconcileAccounted(after: HostState, f: ReconcileFailure) {
    && (after.procs > 0 ==> f.processes)
    && (after.tap ==> TapReported(f.network))
    && (after.table ==> TableReported(f.network))
    && (after.socket ==> f.socket)
    && (after.fifo || after.cgroup ==> f.health)
  }

  predicate CleanupAccounted(after: HostState, e: ShutdownError) {
    && e.ShutdownCleanup?
    && (after.procs > 0 ==> e.shutdown)
    && (after.socket || after.fifo ==> e.cleanup.Some? && e.cleanup.value.vm)
    && (after.tap ==> e.cleanup.Some? && TapReported(e.cleanup.value.network))
    && (after.table ==> e.cleanup.Some? && TableReported(e.cleanup.value.network))
  }

  // The VM's own state.

  /** What a started VM remembers: whether a shutdown failed, and which of its network and
      cgroup handles it still holds. */
  datatype ManagedVm = ManagedVm(failed: bool, network: bool, cgroup: bool)

  datatype VmState = Discovered | Failed | Managed(vm: ManagedVm)

  /** A registered VM together with what it holds on the host. */
  datatype Slot = Slot(state: VmState, host: HostState) {
    predicate Running() {
      state.Managed? && !state.vm.failed
    }
  }

  /** Nothing that would make a start acquire something twice. */
  predicate Startable(h: HostState) {
    h == CLEAN.(cgroup := h.cgroup)
  }

  /** What holds of every registered VM between operations. */
  predicate SlotInv(s: Slot) {
    && s.host.procs <= 1
    && match s.state
       case Discovered => Startable(s.host)
       case Failed => true
       case Managed(vm) =>
         && (!vm.network ==> !s.host.tap && !s.host.table)
         && (!vm.failed ==> vm.network && vm.cgroup)
  }

  datatype StartResult =
    | Started
    | Draining
    | NotFromFailed
    | Unreconciled(reconcile: ReconcileFailure)
    | StartFailed(error: StartError)

  /** `ManagedVm::start` on a host holding at most a stale cgroup directory. */
  ghost predicate ManagedStart(h: HostState, healthy: bool, k: HostState, r: Option<StartError>) {
    && k.procs <= 1
    && (r.None? ==> k.tap && k.table && k.fifo && k.cgroup && !h.cgroup)
    && (r.Some? ==> StartAccounted(h, k, r.value))
    && (healthy ==> (r.None? <==> !h.cgroup) && if r.None? then k.procs == 1 else k == h)
  }

  /** What `start` may do to a VM. */
  ghost predicate StartOutcome(s: Slot, draining: bool, healthy: bool, u: Slot, r: StartResult) {
    if draining then u == s && r == Draining
    else
      match s.state
      case Managed(vm) => u == s && r == if vm.failed then NotFromFailed else Started
      case Discovered =>
        && (r.Started? || r.StartFailed?)
        && FreshStart(s.host, healthy, u, r)
      case Failed =>
        match r
        case Unreconciled(f) =>
          !healthy && u.state == Failed && NoMore(s.host, u.host) && ReconcileAccounted(u.host, f)
        case Draining => false
        case NotFromFailed => false
        case _ => FreshStart(CLEAN, healthy, u, r)
  }

  ghost predicate FreshStart(h: HostState, healthy: bool, u: Slot, r: StartResult)
    requires r.Started? || r.StartFailed?
  {
    && ManagedStart(h, healthy, u.host, if r.StartFailed? then Some(r.error) else None)
    && u.state == if r.Started? then Managed(ManagedVm(false, true, true)) else Failed
  }

  /** What `shutdown` may do to a VM. */
  ghost predicate ShutdownOutcome(s: Slot, healthy: bool, u: Slot, r: Option<ShutdownError>) {
    && NoMore(s.host, u.host)
    && (healthy ==> r.None?)
    && match s.state
       case Discovered => u == s && r.None?
       case Failed =>
         if r.None? then u == Slot(Discovered, CLEAN)
         else r.value.ReconcileError? && u.state == Failed && ReconcileAccounted(u.host, r.value.reconcile)
       case Managed(vm) =>
         if r.None? then
           u.state == Discovered && Startable(u.host) && (u.host.cgroup <==> s.host.cgroup && !vm.cgroup)
         else
           && u.state.Managed? && u.state.vm.failed && !u.state.vm.cgroup
           && CleanupAccounted(u.host, r.value)
           && (!u.state.vm.network ==> !u.host.tap && !u.host.table)
           && (u.state.vm.network <==> r.value.cleanup.Some? && r.value.cleanup.value.network.Some?)
           && (u.host.cgroup && vm.cgroup ==> r.value.cleanup.Some? && r.value.cleanup.value.health)
           && (!vm.cgroup ==> u.host.cgroup == s.host.cgroup)
  }

  // The calls the operations make, and what the errors say of them.

  const NETWORK: seq<Call> := [CheckPool, DeleteTable, DeleteTap, CreateTap, SetUpTap, CommitRules]
  const PROCESS: seq<Call> := [PrepareVm, StartVm, AttachConsole, FindPid]
  const CGROUP: seq<Call> := [CreateCgroupRoot, CreateCgroup, EnterCgroup]

  /** All of `calls` were made, in order, and succeeded. */
  ghost predicate AllDone(es: seq<Event>, calls: seq<Call>) {
    |es| == |calls| && forall i :: 0 <= i < |es| ==> es[i] == Done(calls[i])
  }

  /** The first `n` of `calls` succeeded and the next one, which ends `es`, did not. */
  ghost predicate StopsAt(es: seq<Event>, calls: seq<Call>, n: nat) {
    && n < |calls| && |es| == n + 1 && AllDone(es[..n], calls[..n])
    && es[n].call == calls[n] && !es[n].Done?
  }

  ghost predicate NetworkDown(es: seq<Event>, f: Option<NetworkFailure>) {
    && |es| == 2 && !es[0].Absent? && !es[1].Absent? && es[0].call == DeleteTable && es[1].call == DeleteTap
    && f == if es[0].Done? && es[1].Done? then None else Some(NetworkFailure(es[0].Erred?, es[1].Erred?))
  }

  /** Up to `n` of the network calls, then the undoing of what is there after the fourth. */
  ghost predicate NetworkStops(es: seq<Event>, n: nat, undo: seq<Event>, e: PrepareError) {
    && n < |es| && StopsAt(es[..n + 1], NETWORK, n) && es[n + 1..] == undo
    && if n < 4 then undo == [] && e == SetupFailed
       else if e == SetupFailed then NetworkDown(undo, None)
       else NetworkDown(undo, Some(e.rollback))
  }

  ghost predicate NetworkUp(es: seq<Event>, r: Option<PrepareError>) {
    if r.None? then AllDone(es, NETWORK)
    else exists n: nat, undo :: NetworkStops(es, n, undo, r.value)
  }

  /** The process is stopped if it is there, and the VM cleaned up in any case. */
  ghost predicate VmDown(es: seq<Event>, f: Option<VmFailure>) {
    && 1 <= |es| <= 2 && !es[0].Absent? && !es[|es| - 1].Absent?
    && es[|es| - 1].call == CleanupVm && (|es| == 2 ==> es[0].call == StopVm)
    && f == if es[0].Done? && es[|es| - 1].Done? then None
            else Some(VmFailure(|es| == 2 && es[0].Erred?, es[|es| - 1].Erred?))
  }

  ghost predicate CgroupUp(es: seq<Event>, r: Option<Stage>) {
    if r.None? then AllDone(es, CGROUP)
    else
      || (r == Some(JoiningCgroup(false)) && (StopsAt(es, CGROUP, 0) || StopsAt(es, CGROUP, 1)))
      || (|es| == 4 && StopsAt(es[..3], CGROUP, 2) && es[3].call == RemoveCgroup && !es[3].Absent?
          && r == Some(JoiningCgroup(es[3].Erred?)))
  }

  /** The stage a start is in when the `n`-th process call fails. */
  function StageAt(n: nat): Stage {
    if n == 0 then PreparingVm else if n == 1 then StartingVm else if n == 2 then AttachingConsole else FindingPid
  }

  /** `up` was tried on top of the network, failed in `stage`, and all was undone: the VM by
      `vm`, and then the network. */
  ghost predicate Undone(
    es: seq<Event>, up: seq<Event>, vm: seq<Event>, network: seq<Event>, stage: Stage, e: StartError)
  {
    && es == up + vm + network && e.StartupRollback? && e.stage == stage && NetworkDown(network, e.network)
    && if stage == PreparingVm then vm == [] && e.vm.None? else VmDown(vm, e.vm)
  }

  ghost predicate VmStops(es: seq<Event>, up: seq<Event>, vm: seq<Event>, network: seq<Event>, e: StartError) {
    || (exists n: nat :: StopsAt(up, PROCESS, n) && Undone(es, up, vm, network, StageAt(n), e))
    || (|up| > 4 && AllDone(up[..4], PROCESS) && e.StartupRollback? && CgroupUp(up[4..], Some(e.stage))
        && Undone(es, up, vm, network, e.stage, e))
  }

  ghost predicate VmUp(es: seq<Event>, r: Option<StartError>) {
    if r.None? then AllDone(es, PROCESS + CGROUP)
    else exists up, vm, network :: VmStops(es, up, vm, network, r.value)
  }

  /** The calls of a start: network, VM, process, console, pid and cgroup, up to the first that
      fails, and then the undoing of those before it, each failure of which the error names. */
  ghost predicate StartTrace(es: seq<Event>, r: Option<StartError>) {
    if r.Some? && r.value.NetworkError? then NetworkUp(es, Some(r.value.prepare))
    else |es| >= 6 && NetworkUp(es[..6], None) && VmUp(es[6..], r)
  }

  ghost predicate Fails(es: seq<Event>) {
    exists i :: 0 <= i < |es| && es[i].Erred?
  }

  /** A process that is found is killed. */
  ghost predicate KillTrace(es: seq<Event>) {
    && 1 <= |es| <= 2 && es[0].call == FindPid && (|es| == 2 <==> es[0].Done?)
    && (|es| == 2 ==> es[1].call == Kill && !es[1].Absent?)
  }

  /** The FIFO goes first; the cgroup, if there is one, only if that succeeded, and its
      directory only once its processes were killed. */
  ghost predicate HealthTrace(es: seq<Event>) {
    && 1 <= |es| <= 3 && es[0].call == RemoveFifo && (|es| > 1 ==> es[0].Done? && es[1].call == KillCgroup)
    && (|es| == 3 <==> |es| > 1 && es[1].Done?) && (|es| == 3 ==> es[2].call == RemoveCgroup)
    && forall e :: e in es ==> !e.Absent?
  }

  ghost predicate ReconcileParts(
    es: seq<Event>, kill: seq<Event>, network: seq<Event>, socket: Event, health: seq<Event>, log: Event,
    r: Option<ReconcileFailure>)
  {
    && es == kill + network + [socket] + health + [log]
    && KillTrace(kill) && HealthTrace(health) && !socket.Absent? && socket.call == RemoveSocket
    && !log.Absent? && log.call == EnsureSerialLog
    && exists f ::
         && NetworkDown(network, f)
         && r == if !Fails(es) then None
                 else Some(ReconcileFailure(Fails(kill), f, socket.Erred?, Fails(health), log.Erred?))
  }

  /** Everything is tried whatever fails, and exactly what failed is reported. */
  ghost predicate ReconcileTrace(es: seq<Event>, r: Option<ReconcileFailure>) {
    exists kill, network, socket, health, log :: ReconcileParts(es, kill, network, socket, health, log, r)
  }

  /** What a cleanup tries depends only on the handles held. */
  ghost predicate CleanupParts(
    es: seq<Event>, vm: ManagedVm, network: seq<Event>, f: Option<NetworkFailure>, cgroup: seq<Event>,
    failure: Option<CleanupFailure>)
  {
    && |es| > 0 && es[0].call == CleanupVm && !es[0].Absent? && es[1..] == network + cgroup
    && (if vm.cgroup then |cgroup| == 1 && cgroup[0].call == RemoveCgroup && !cgroup[0].Absent? else cgroup == [])
    && (if vm.network then NetworkDown(network, f) else network == [] && f == None)
    && failure == if !Fails(es) then None else Some(CleanupFailure(es[0].Erred?, f, Fails(cgroup)))
  }

  ghost predicate CleanupTrace(es: seq<Event>, vm: ManagedVm, failure: Option<CleanupFailure>) {
    exists network, f, cgroup :: CleanupParts(es, vm, network, f, cgroup, failure)
  }

  /** A VM that is gone already is left alone. On x86 the rest is one call; elsewhere the guest
      is asked to reboot first, and what becomes of that is only seen in whether it exits. */
  ghost predicate StopTrace(es: seq<Event>, x86: bool, there: bool) {
    if !there then es == []
    else if x86 then |es| == 1 && es[0].call == StopVm && !es[0].Absent?
    else
      && 1 <= |es| <= 2 && es[0].call == AskReboot && !es[0].Absent?
      && (|es| == 2 ==> es[1].call == StopVm && !es[1].Absent?)
  }

  ghost predicate StopFails(es: seq<Event>) {
    es != [] && es[|es| - 1] == Erred(StopVm)
  }

  /** The calls of `start` in every state. */
  ghost predicate StartCalls(s: Slot, draining: bool, reconcile: seq<Event>, start: seq<Event>, r: StartResult) {
    if draining || s.state.Managed? then reconcile == start == []
    else
      && (if s.state.Discovered? then reconcile == [] && !r.Unreconciled?
          else ReconcileTrace(reconcile, if r.Unreconciled? then Some(r.reconcile) else None))
      && if r.Unreconciled? then start == []
         else StartTrace(start, if r.StartFailed? then Some(r.error) else None)
  }

  /** The calls of `shutdown` in every state: stopping, then cleaning up or reconciling. */
  ghost predicate ShutdownCalls(
    s: Slot, x86: bool, stop: seq<Event>, rest: seq<Event>, r: Option<ShutdownError>)
  {
    match s.state
    case Discovered => stop == rest == []
    case Failed =>
      && stop == [] && (r.Some? ==> r.value.ReconcileError?)
      && ReconcileTrace(rest, if r.None? then None else Some(r.value.reconcile))
    case Managed(vm) =>
      && StopTrace(stop, x86, s.host.procs > 0) && (r.Some? ==> r.value.ShutdownCleanup?)
      && CleanupTrace(rest, vm, if r.None? then None else r.value.cleanup)
      && (StopFails(stop) <==> r.Some? && r.value.shutdown)
      && (r.Some? ==> r.value.shutdown || r.value.cleanup.Some?)
  }

  // The host side of the operations.

  /** `ensure_pool_available` to `create_persistent` to the rules, with rollback
      (`prepare` and `cleanup_with_connections`). */
  method PrepareNetwork(host: Host) returns (r: Option<PrepareError>, ghost es: seq<Event>)
    requires host.held.procs == 0 && !host.held.tap && !host.held.table
    modifies host
    ensures host.log == old(host.log) + es && NetworkUp(es, r) && old(host.upsets) <= host.upsets
    ensures host.held == old(host.held).(tap := host.held.tap, table := host.held.table)
    ensures r.None? ==> host.held.tap && host.held.table
    ensures r == Some(SetupFailed) ==> !host.held.tap && !host.held.table
    ensures r.Some? && r.value.SetupRollback? ==>
              (host.held.tap ==> r.value.rollback.tap) && (host.held.table ==> r.value.rollback.nftables)
    ensures host.upsets == old(host.upsets) ==> r.None?
  {
    hide NetworkUp, AllDone, StopsAt, NetworkDown, NoMore;
    var ok;
    ok, es := OpenTap(host);
    if !ok {
      return Some(SetupFailed), es;
    }
    ok := host.TryConfigure(SetUpTap);
    es := Made(es, NETWORK, 4, ok);
    ghost var n := 4;
    if ok {
      ok := host.TryCommitRules();
      es := Made(es, NETWORK, 5, ok);
      n := 5;
    }
    if ok {
      NetworkDone(es);
      return None, es;
    }
    var failure, undo := CleanupNetwork(host);
    NetworkUndone(es, n, undo, failure);
    es := es + undo;
    r := Some(if failure.None? then SetupFailed else SetupRollback(failure.value));
  }

  /** The calls up to the TAP, before which there is nothing to undo. */
  method OpenTap(host: Host) returns (ok: bool, ghost es: seq<Event>)
    requires host.held.procs == 0 && !host.held.tap && !host.held.table
    modifies host
    ensures host.log == old(host.log) + es && old(host.upsets) <= host.upsets
    ensures if ok then AllDone(es, NETWORK[..4]) else NetworkUp(es, Some(SetupFailed))
    ensures host.held == old(host.held).(tap := ok)
    ensures host.upsets == old(host.upsets) ==> ok
  {
    hide NetworkUp, AllDone, StopsAt, NetworkDown;
    es := [];
    NoneDone(NETWORK);
    ok := host.TryConfigure(CheckPool);
    es := Made(es, NETWORK, 0, ok);
    if !ok { NetworkStopped(es, 0); return; }
    ok := host.TryDeleteTable();
    es := Made(es, NETWORK, 1, ok);
    if !ok { NetworkStopped(es, 1); return; }
    ok := host.TryDeleteTap();
    es := Made(es, NETWORK, 2, ok);
    if !ok { NetworkStopped(es, 2); return; }
    ok := host.TryCreateTap();
    es := Made(es, NETWORK, 3, ok);
    if !ok { NetworkStopped(es, 3); }
  }

  lemma {:induction false} NoneDone(calls: seq<Call>)
    ensures AllDone([], calls[..0])
  {
  }

  /** The log of the first calls and one more. */
  lemma {:induction false} Made(es: seq<Event>, calls: seq<Call>, k: nat, ok: bool) returns (more: seq<Event>)
    requires k < |calls| && AllDone(es, calls[..k])
    ensures more == es + [Outcome(calls[k], ok)]
    ensures if ok then AllDone(more, calls[..k + 1]) else StopsAt(more, calls, k)
  {
    more := es + [Outcome(calls[k], ok)];
    assert more[..k] == es;
  }

  lemma {:induction false} NetworkStopped(es: seq<Event>, n: nat)
    requires n < 4 && StopsAt(es, NETWORK, n)
    ensures NetworkUp(es, Some(SetupFailed))
  {
    assert es[..n + 1] == es && es[n + 1..] == [];
    assert NetworkStops(es, n, [], SetupFailed);
  }

  lemma {:induction false} NetworkDone(es: seq<Event>)
    requires AllDone(es, NETWORK[..6])
    ensures NetworkUp(es, None)
  {
  }

  lemma {:induction false} NetworkUndone(up: seq<Event>, n: nat, undo: seq<Event>, f: Option<NetworkFailure>)
    requires 4 <= n && StopsAt(up, NETWORK, n) && NetworkDown(undo, f)
    ensures NetworkUp(up + undo, Some(if f.None? then SetupFailed else SetupRollback(f.value)))
  {
    var es := up + undo;
    assert es[..n + 1] == up && es[n + 1..] == undo;
    assert NetworkStops(es, n, undo, if f.None? then SetupFailed else SetupRollback(f.value));
  }

  /** `NetworkSpec::cleanup`: both deletions are attempted whatever the first gives. */
  method CleanupNetwork(host: Host) returns (failure: Option<NetworkFailure>, ghost es: seq<Event>)
    modifies host
    ensures host.log == old(host.log) + es && NetworkDown(es, failure) && old(host.upsets) <= host.upsets
    ensures host.held == old(host.held).(procs := host.held.procs, tap := host.held.tap, table := host.held.table)
    ensures NoMore(old(host.held), host.held)
    ensures host.held.tap ==> TapReported(failure)
    ensures host.held.table ==> TableReported(failure)
    ensures host.upsets == old(host.upsets) ==> failure.None? && host.held.procs == old(host.held).procs
  {
    var table := host.TryDeleteTable();
    var tap := host.TryDeleteTap();
    es := [Outcome(DeleteTable, table), Outcome(DeleteTap, tap)];
    return if table && tap then None else Some(NetworkFailure(!table, !tap)), es;
  }

  /** `rollback_vm`: stop the process if there is one, then clean up in any case. */
  method RollbackVm(host: Host) returns (failure: Option<VmFailure>, ghost es: seq<Event>)
    requires host.held.procs <= 1
    modifies host
    ensures host.log == old(host.log) + es && VmDown(es, failure) && old(host.upsets) <= host.upsets
    ensures |es| == 2 <==> old(host.held).procs > 0
    ensures NoMore(old(host.held), host.held)
    ensures host.held == old(host.held).(procs := host.held.procs, socket := host.held.socket, fifo := host.held.fifo)
    ensures host.held.procs > 0 ==> failure.Some? && failure.value.shutdown
    ensures host.held.socket || host.held.fifo ==> failure.Some? && failure.value.cleanup
    ensures host.upsets == old(host.upsets) ==> failure.None?
  {
    var stopped := true;
    es := [];
    if host.held.procs > 0 {
      stopped := host.TryStopVm();
      es := [Outcome(StopVm, stopped)];
    }
    var cleaned := host.TryCleanupVm();
    es := es + [Outcome(CleanupVm, cleaned)];
    failure := if stopped && cleaned then None else Some(VmFailure(!stopped, !cleaned));
  }

  /** The rollback shared by the later stages of a start, after the calls `up`. */
  method Rollback(host: Host, stage: Stage, ghost up: seq<Event>) returns (e: StartError, ghost es: seq<Event>)
    requires host.held.procs <= 1 && stage != PreparingVm
    modifies host
    ensures host.log == old(host.log) + es && old(host.upsets) <= host.upsets
    ensures exists vm, network :: es == vm + network && Undone(up + es, up, vm, network, stage, e)
    ensures NoMore(old(host.held), host.held)
    ensures host.held.cgroup == old(host.held).cgroup
    ensures e.StartupRollback? && e.stage == stage
    ensures StartAccounted(old(host.held), host.held, e)
    ensures host.upsets == old(host.upsets) ==> host.held == CLEAN.(cgroup := old(host.held).cgroup)
  {
    hide VmDown, NetworkDown;
    var vm, vmCalls := RollbackVm(host);
    var network, networkCalls := CleanupNetwork(host);
    e := StartupRollback(stage, vm, network);
    es := vmCalls + networkCalls;
    assert up + es == up + vmCalls + networkCalls;
    assert Undone(up + es, up, vmCalls, networkCalls, stage, e);
  }

  /** `VmCgroup::new`: a directory that could not be populated is removed again. */
  method JoinCgroup(host: Host) returns (r: Option<Stage>, ghost es: seq<Event>)
    modifies host
    ensures host.log == old(host.log) + es && CgroupUp(es, r) && old(host.upsets) <= host.upsets
    ensures host.held == old(host.held).(procs := host.held.procs, cgroup := host.held.cgroup)
    ensures host.held.procs <= old(host.held).procs
    ensures r.None? ==> !old(host.held).cgroup && host.held.cgroup
    ensures r.Some? ==> r.value.JoiningCgroup? && (host.held.cgroup ==> old(host.held).cgroup || r.value.rollbackFailed)
    ensures host.upsets == old(host.upsets) ==>
              (r.None? <==> !old(host.held).cgroup) && host.held.procs == old(host.held).procs
    ensures host.upsets == old(host.upsets) && r.Some? ==> host.held == old(host.held)
  {
    ghost var before := host.log;
    var ok := host.TryConfigure(CreateCgroupRoot);
    if !ok { return Some(JoiningCgroup(false)), host.log[|before|..]; }
    ok := host.TryCreateCgroup();
    if !ok { return Some(JoiningCgroup(false)), host.log[|before|..]; }
    ok := host.TryConfigure(EnterCgroup);
    if ok { return None, host.log[|before|..]; }
    ok := host.TryRemoveCgroup();
    es := host.log[|before|..];
    assert es[..3] == [Done(CreateCgroupRoot), Done(CreateCgroup), Erred(EnterCgroup)];
    return Some(JoiningCgroup(!ok)), es;
  }

  /** `ManagedVm::start`: network, VM, process, console, pid and cgroup in turn; the first
      failure releases what was acquired before it. */
  method StartManaged(host: Host) returns (r: Option<StartError>, ghost es: seq<Event>)
    requires Startable(host.held)
    modifies host
    ensures host.log == old(host.log) + es && StartTrace(es, r) && old(host.upsets) <= host.upsets
    ensures ManagedStart(old(host.held), host.upsets == old(host.upsets), host.held, r)
  {
    hide StartTrace, VmUp, NetworkUp, Undone, CgroupUp, AllDone;
    var network, up := PrepareNetwork(host);
    if network.Some? {
      NetworkFails(up, network.value);
      return Some(NetworkError(network.value)), up;
    }
    var started, vm := StartVmOn(host);
    StartJoins(up, vm, started);
    return started, up + vm;
  }

  lemma {:induction false} NetworkFails(es: seq<Event>, e: PrepareError)
    requires NetworkUp(es, Some(e))
    ensures StartTrace(es, Some(NetworkError(e)))
  {
  }

  lemma {:induction false} StartJoins(up: seq<Event>, vm: seq<Event>, r: Option<StartError>)
    requires NetworkUp(up, None) && VmUp(vm, r) && (r.Some? ==> r.value.StartupRollback?)
    ensures StartTrace(up + vm, r)
  {
    assert (up + vm)[..6] == up && (up + vm)[6..] == vm;
  }

  /** The rest of a start once the network is there. */
  method StartVmOn(host: Host) returns (r: Option<StartError>, ghost es: seq<Event>)
    requires host.held == CLEAN.(tap := true, table := true, cgroup := host.held.cgroup)
    modifies host
    ensures host.log == old(host.log) + es && VmUp(es, r) && old(host.upsets) <= host.upsets
    ensures r.Some? ==> r.value.StartupRollback?
    ensures ManagedStart(CLEAN.(cgroup := old(host.held).cgroup), host.upsets == old(host.upsets), host.held, r)
  {
    hide VmUp, Undone, VmStops, CgroupUp, AllDone, StopsAt, NetworkDown;
    es := [];
    NoneDone(PROCESS);
    var ok := host.TryPrepareVm();
    es := Made(es, PROCESS, 0, ok);
    if !ok {
      var failure, undo := CleanupNetwork(host);
      var e := StartupRollback(PreparingVm, None, failure);
      PreparingUndone(es, undo, e);
      return Some(e), es + undo;
    }
    ok := host.TryStartVm();
    es := Made(es, PROCESS, 1, ok);
    if !ok {
      var e, undo := Rollback(host, StartingVm, es);
      ProcessUndone(es, 1, undo, e);
      return Some(e), es + undo;
    }
    ghost var later;
    r, later := JoinVm(host, es);
    es := es + later;
  }

  /** The stages after the process is there; `up` are the calls before them. */
  method JoinVm(host: Host, ghost up: seq<Event>) returns (r: Option<StartError>, ghost es: seq<Event>)
    requires host.held.procs <= 1 && host.held.tap && host.held.table && host.held.fifo && AllDone(up, PROCESS[..2])
    modifies host
    ensures host.log == old(host.log) + es && VmUp(up + es, r) && old(host.upsets) <= host.upsets
    ensures r.Some? ==> r.value.StartupRollback?
    ensures host.held.procs <= 1
    ensures r.None? ==> host.held == old(host.held).(procs := host.held.procs, cgroup := true) && !old(host.held).cgroup
    ensures r.Some? ==> StartAccounted(CLEAN.(cgroup := old(host.held).cgroup), host.held, r.value)
    ensures host.upsets == old(host.upsets) && old(host.held).procs == 1 ==>
              && (r.None? <==> !old(host.held).cgroup)
              && if r.None? then host.held.procs == 1 else host.held == CLEAN.(cgroup := old(host.held).cgroup)
  {
    hide VmUp, Undone, VmStops, CgroupUp, AllDone, StopsAt, NetworkDown, TapReported, TableReported;
    var ok := host.TryConfigure(AttachConsole);
    ghost var all := Made(up, PROCESS, 2, ok);
    es := [Outcome(AttachConsole, ok)];
    if !ok {
      var e, undo := Rollback(host, AttachingConsole, all);
      ProcessUndone(all, 2, undo, e);
      assert up + (es + undo) == all + undo;
      return Some(e), es + undo;
    }
    var pid := host.TryFindPid();
    all := Looked(all, pid);
    es := es + [PidOutcome(pid)];
    assert up + es == all;
    if pid != Found {
      var e, undo := Rollback(host, FindingPid, all);
      ProcessUndone(all, 3, undo, e);
      assert up + (es + undo) == all + undo;
      return Some(e), es + undo;
    }
    ghost var later;
    r, later := FinishStart(host, all);
    es := es + later;
    assert up + es == all + later;
  }

  /** The last stage; `process` are the calls of the stages before it. */
  method FinishStart(host: Host, ghost process: seq<Event>) returns (r: Option<StartError>, ghost es: seq<Event>)
    requires host.held.procs <= 1 && host.held.tap && host.held.table && host.held.fifo && AllDone(process, PROCESS)
    modifies host
    ensures host.log == old(host.log) + es && VmUp(process + es, r) && old(host.upsets) <= host.upsets
    ensures r.Some? ==> r.value.StartupRollback?
    ensures host.held.procs <= 1
    ensures r.None? ==> host.held == old(host.held).(procs := host.held.procs, cgroup := true) && !old(host.held).cgroup
    ensures r.Some? ==> StartAccounted(CLEAN.(cgroup := old(host.held).cgroup), host.held, r.value)
    ensures host.upsets == old(host.upsets) && old(host.held).procs == 1 ==>
              && (r.None? <==> !old(host.held).cgroup)
              && if r.None? then host.held.procs == 1 else host.held == CLEAN.(cgroup := old(host.held).cgroup)
  {
    hide VmUp, Undone, VmStops, CgroupUp, AllDone, StopsAt, NetworkDown, TapReported, TableReported;
    var joined, cgroup := JoinCgroup(host);
    if joined.Some? {
      var e, undo := Rollback(host, joined.value, process + cgroup);
      CgroupUndone(process, cgroup, undo, e);
      assert process + (cgroup + undo) == process + cgroup + undo;
      return Some(e), cgroup + undo;
    }
    CgroupDone(process, cgroup);
    return None, cgroup;
  }

  lemma {:induction false} Looked(es: seq<Event>, pid: PidLookup) returns (more: seq<Event>)
    requires AllDone(es, PROCESS[..3])
    ensures more == es + [PidOutcome(pid)]
    ensures if pid == Found then AllDone(more, PROCESS) else StopsAt(more, PROCESS, 3)
  {
    more := es + [PidOutcome(pid)];
    assert more[..3] == es;
    assert PROCESS[..4] == PROCESS;
  }

  lemma {:induction false} PreparingUndone(up: seq<Event>, undo: seq<Event>, e: StartError)
    requires StopsAt(up, PROCESS, 0) && e.StartupRollback? && e.stage == PreparingVm && e.vm.None?
    requires NetworkDown(undo, e.network)
    ensures VmUp(up + undo, Some(e))
  {
    assert up + undo == up + [] + undo;
    assert Undone(up + undo, up, [], undo, StageAt(0), e);
    assert VmStops(up + undo, up, [], undo, e);
  }

  lemma {:induction false} ProcessUndone(up: seq<Event>, n: nat, undo: seq<Event>, e: StartError)
    requires StopsAt(up, PROCESS, n)
    requires exists vm, network :: undo == vm + network && Undone(up + undo, up, vm, network, StageAt(n), e)
    ensures VmUp(up + undo, Some(e))
  {
    var vm, network :| undo == vm + network && Undone(up + undo, up, vm, network, StageAt(n), e);
    assert VmStops(up + undo, up, vm, network, e);
  }

  lemma {:induction false} CgroupUndone(process: seq<Event>, cgroup: seq<Event>, undo: seq<Event>, e: StartError)
    requires AllDone(process, PROCESS) && e.StartupRollback? && CgroupUp(cgroup, Some(e.stage))
    requires var up := process + cgroup;
             exists vm, network :: undo == vm + network && Undone(up + undo, up, vm, network, e.stage, e)
    ensures VmUp(process + cgroup + undo, Some(e))
  {
    var up := process + cgroup;
    assert up[..4] == process && up[4..] == cgroup;
    var vm, network :| undo == vm + network && Undone(up + undo, up, vm, network, e.stage, e);
    assert VmStops(up + undo, up, vm, network, e);
  }

  lemma {:induction false} CgroupDone(process: seq<Event>, cgroup: seq<Event>)
    requires AllDone(process, PROCESS) && CgroupUp(cgroup, None)
    ensures VmUp(process + cgroup, None)
  {
  }

  /** `VmSpec::reconcile`: every step is tried, every failure kept. It kills one process. */
  method Reconcile(host: Host) returns (r: Option<ReconcileFailure>, ghost es: seq<Event>)
    requires host.held.procs <= 1
    modifies host
    ensures host.log == old(host.log) + es && ReconcileTrace(es, r) && old(host.upsets) <= host.upsets
    ensures NoMore(old(host.held), host.held)
    ensures r.None? ==> host.held == CLEAN
    ensures r.Some? ==> ReconcileAccounted(host.held, r.value)
    ensures host.upsets == old(host.upsets) ==> r.None?
  {
    hide ReconcileTrace, KillTrace, HealthTrace, Fails, NetworkDown;
    var killed, kill := KillStale(host);
    var network, deletions := CleanupNetwork(host);
    var socket := host.TryRemoveSocket();
    var health, cgroup := CleanupCgroupAndMetrics(host);
    var serialLog := host.TryConfigure(EnsureSerialLog);
    es := kill + deletions + [Outcome(RemoveSocket, socket)] + cgroup + [Outcome(EnsureSerialLog, serialLog)];
    r := if killed && network.None? && socket && health && serialLog then None
         else Some(ReconcileFailure(!killed, network, !socket, !health, !serialLog));
    Reconciled(es, kill, deletions, network, socket, cgroup, serialLog, r);
  }

  lemma {:induction false} Reconciled(
    es: seq<Event>, kill: seq<Event>, network: seq<Event>, f: Option<NetworkFailure>, socket: bool, health: seq<Event>,
    log: bool, r: Option<ReconcileFailure>)
    requires es == kill + network + [Outcome(RemoveSocket, socket)] + health + [Outcome(EnsureSerialLog, log)]
    requires KillTrace(kill) && NetworkDown(network, f) && HealthTrace(health)
    requires r == if !Fails(kill) && f.None? && socket && !Fails(health) && log then None
                  else Some(ReconcileFailure(Fails(kill), f, !socket, Fails(health), !log))
    ensures ReconcileTrace(es, r)
  {
    var parts := kill + network + [Outcome(RemoveSocket, socket)];
    FailsJoins(kill, network);
    FailsJoins(kill + network, [Outcome(RemoveSocket, socket)]);
    FailsJoins(parts, health);
    FailsJoins(parts + health, [Outcome(EnsureSerialLog, log)]);
    assert Fails(network) <==> f.Some?;
    assert ReconcileParts(es, kill, network, Outcome(RemoveSocket, socket), health, Outcome(EnsureSerialLog, log), r);
  }

  lemma {:induction false} FailsJoins(a: seq<Event>, b: seq<Event>)
    ensures Fails(a + b) <==> Fails(a) || Fails(b)
    ensures forall e :: Fails([e]) <==> e.Erred?
  {
    if Fails(a) {
      var i :| 0 <= i < |a| && a[i].Erred?;
      assert (a + b)[i].Erred?;
    }
    if Fails(b) {
      var i :| 0 <= i < |b| && b[i].Erred?;
      assert (a + b)[|a| + i].Erred?;
    }
    forall e
      ensures Fails([e]) <==> e.Erred?
    {
      assert [e][0] == e;
    }
  }

  method KillStale(host: Host) returns (ok: bool, ghost es: seq<Event>)
    requires host.held.procs <= 1
    modifies host
    ensures host.log == old(host.log) + es && KillTrace(es) && (ok <==> !Fails(es)) && old(host.upsets) <= host.upsets
    ensures host.held == old(host.held).(procs := host.held.procs)
    ensures host.held.procs <= old(host.held).procs
    ensures ok ==> host.held.procs == 0
    ensures host.upsets == old(host.upsets) ==> ok
  {
    var pid := host.TryFindPid();
    es := [PidOutcome(pid)];
    match pid {
      case Found =>
        ok := host.TryKill(Kill);
        es := es + [Outcome(Kill, ok)];
      case NotFound => ok := true;
      case Unreadable => ok := false;
    }
    assert forall i :: 0 <= i < |es| ==> es[i].Erred? ==> !ok;
    assert !ok ==> es[|es| - 1].Erred?;
  }

  /** `cleanup_cgroup_and_metrics`. */
  method CleanupCgroupAndMetrics(host: Host) returns (ok: bool, ghost es: seq<Event>)
    modifies host
    ensures host.log == old(host.log) + es && HealthTrace(es) && (ok <==> !Fails(es)) && old(host.upsets) <= host.upsets
    ensures old(host.held).cgroup && es[0].Done? ==> |es| > 1
    ensures host.held == old(host.held).(procs := host.held.procs, fifo := host.held.fifo, cgroup := host.held.cgroup)
    ensures NoMore(old(host.held), host.held)
    ensures ok ==> !host.held.fifo && !host.held.cgroup
    ensures host.upsets == old(host.upsets) ==> ok
  {
    ok := host.TryRemoveFifo();
    es := [Outcome(RemoveFifo, ok)];
    if ok && host.held.cgroup {
      ok := host.TryKillCgroup();
      es := es + [Outcome(KillCgroup, ok)];
      if ok {
        ok := host.TryRemoveCgroup();
        es := es + [Outcome(RemoveCgroup, ok)];
      }
    }
    assert forall i :: 0 <= i < |es| ==> es[i].Erred? ==> !ok;
    assert !ok ==> es[|es| - 1].Erred?;
  }

  /** `ManagedVm::shutdown` on either architecture. */
  method ShutdownManaged(host: Host, x86: bool) returns (ok: bool, ghost es: seq<Event>)
    requires host.held.procs <= 1
    modifies host
    ensures host.log == old(host.log) + es && StopTrace(es, x86, old(host.held).procs > 0)
    ensures (ok <==> !StopFails(es)) && old(host.upsets) <= host.upsets
    ensures old(host.held).procs > 0 && (es == [] || es[|es| - 1].call == AskReboot) ==> host.held.procs == 0
    ensures host.held == old(host.held).(procs := host.held.procs)
    ensures host.held.procs <= old(host.held).procs
    ensures ok ==> host.held.procs == 0
    ensures host.upsets == old(host.upsets) ==> ok
  {
    es := [];
    if host.held.procs == 0 {
      return true, es;
    }
    if !x86 {
      var asked := host.TryConfigure(AskReboot);
      es := [Outcome(AskReboot, asked)];
      host.Drift();
      if host.held.procs == 0 {
        return true, es;
      }
    }
    ok := host.TryStopVm();
    es := es + [Outcome(StopVm, ok)];
  }

  /** Without a handle there is nothing to clean up. */
  method CleanupHeldNetwork(host: Host, handle: bool) returns (failure: Option<NetworkFailure>, ghost es: seq<Event>)
    modifies host
    ensures host.log == old(host.log) + es && old(host.upsets) <= host.upsets
    ensures if handle then NetworkDown(es, failure) else es == [] && failure == None && host.held == old(host.held)
    ensures host.held == old(host.held).(procs := host.held.procs, tap := host.held.tap, table := host.held.table)
    ensures NoMore(old(host.held), host.held)
    ensures handle && host.held.tap ==> TapReported(failure)
    ensures handle && host.held.table ==> TableReported(failure)
    ensures host.upsets == old(host.upsets) ==> failure.None? && host.held.procs == old(host.held).procs
  {
    if !handle {
      return None, [];
    }
    failure, es := CleanupNetwork(host);
  }

  method CleanupHeldCgroup(host: Host, handle: bool) returns (ok: bool, ghost es: seq<Event>)
    modifies host
    ensures host.log == old(host.log) + es && es == (if handle then [Outcome(RemoveCgroup, ok)] else [])
    ensures host.held == old(host.held).(procs := host.held.procs, cgroup := old(host.held).cgroup && !(handle && ok))
    ensures host.held.procs <= old(host.held).procs && (!handle ==> ok)
    ensures old(host.upsets) <= host.upsets
    ensures host.upsets == old(host.upsets) ==>
              host.held.procs == old(host.held).procs && (host.held.procs == 0 ==> ok)
  {
    if !handle {
      return true, [];
    }
    ok := host.TryRemoveCgroup();
    es := [Outcome(RemoveCgroup, ok)];
  }

  /** A registered VM (`BarbirolliVm`) and the host it runs on. */
  class BarbirolliVm {
    var state: VmState
    const host: Host

    constructor (host: Host)
      ensures this.host == host && state == Discovered
    {
      this.host := host;
      state := Discovered;
    }

    /** The entry as it stands when its lock is taken. */
    constructor Locked(s: Slot)
      ensures fresh(host) && Snapshot() == s && host.upsets == 0
    {
      host := new Host(s.host);
      state := s.state;
    }

    function Snapshot(): Slot
      reads this, host
    {
      Slot(state, host.held)
    }

    /** `ManagedVm::cleanup`: the network handle goes only when its cleanup succeeded, the
        cgroup handle goes in any case. */
    method Cleanup() returns (failure: Option<CleanupFailure>, ghost es: seq<Event>)
      requires state.Managed?
      modifies this`state, host
      ensures host.log == old(host.log) + es && CleanupTrace(es, old(state.vm), failure)
      ensures old(host.upsets) <= host.upsets
      ensures state.Managed? && CleanedUp(old(state.vm), old(host.held), state.vm, host.held, failure)
      ensures host.upsets == old(host.upsets) && old(host.held).procs == 0 ==> failure.None?
    {
      hide *;
      var held := state.vm;
      ghost var h0 := host.held;
      var vm := host.TryCleanupVm();
      ghost var h1 := host.held;
      var network, deletions := CleanupHeldNetwork(host, held.network);
      ghost var h2 := host.held;
      state := Managed(ManagedVm(held.failed, held.network && network.Some?, false));
      var cgroup, removal := CleanupHeldCgroup(host, held.cgroup);
      failure := if vm && network.None? && cgroup then None else Some(CleanupFailure(!vm, network, !cgroup));
      es := [Outcome(CleanupVm, vm)] + deletions + removal;
      Cleaned(es, held, vm, deletions, network, removal, cgroup, failure);
      CleanupLeaves(held, h0, h1, h2, host.held, vm, network, cgroup, state.vm, failure);
    }

    /** `BarbirolliVm::start`. */
    method Start(draining: bool) returns (r: StartResult)
      requires SlotInv(Snapshot())
      modifies this`state, host
      ensures exists reconcile, start ::
                && host.log == old(host.log) + reconcile + start
                && StartCalls(old(Snapshot()), draining, reconcile, start, r)
      ensures old(host.upsets) <= host.upsets
      ensures StartOutcome(old(Snapshot()), draining, host.upsets == old(host.upsets), Snapshot(), r)
      ensures SlotInv(Snapshot())
    {
      hide StartTrace, ReconcileTrace;
      ghost var before, s := host.log, Snapshot();
      if draining {
        assert host.log == before + [] + [] && StartCalls(s, draining, [], [], Draining);
        return Draining;
      }
      ghost var reconcile := [];
      match state {
        case Managed(vm) =>
          r := if vm.failed then NotFromFailed else Started;
          assert host.log == before + [] + [] && StartCalls(s, draining, [], [], r);
          return;
        case Failed =>
          var reconciled, calls := Reconcile(host);
          reconcile := calls;
          if reconciled.Some? {
            r := Unreconciled(reconciled.value);
            assert host.log == before + reconcile + [] && StartCalls(s, draining, reconcile, [], r);
            return;
          }
        case Discovered =>
      }
      var started, start := StartManaged(host);
      match started {
        case None =>
          state := Managed(ManagedVm(false, true, true));
          r := Started;
        case Some(error) =>
          state := Failed;
          r := StartFailed(error);
      }
      assert host.log == before + reconcile + start && StartCalls(s, draining, reconcile, start, r);
    }

    /** `BarbirolliVm::shutdown`. */
    method Shutdown(x86: bool) returns (r: Option<ShutdownError>)
      requires SlotInv(Snapshot())
      modifies this`state, host
      ensures exists stop, rest ::
                host.log == old(host.log) + stop + rest && ShutdownCalls(old(Snapshot()), x86, stop, rest, r)
      ensures old(host.upsets) <= host.upsets
      ensures ShutdownOutcome(old(Snapshot()), host.upsets == old(host.upsets), Snapshot(), r)
      ensures SlotInv(Snapshot())
    {
      hide ReconcileTrace, CleanupTrace;
      ghost var before, s := host.log, Snapshot();
      match state {
        case Discovered =>
          assert host.log == before + [] + [] && ShutdownCalls(s, x86, [], [], None);
          return None;
        case Failed =>
          var reconciled, calls := Reconcile(host);
          if reconciled.Some? {
            r := Some(ReconcileError(reconciled.value));
          } else {
            state := Discovered;
            r := None;
          }
          assert host.log == before + [] + calls && ShutdownCalls(s, x86, [], calls, r);
        case Managed(_) =>
          r := ShutdownHeld(x86);
      }
    }

    /** The last case of `shutdown`. */
    method ShutdownHeld(x86: bool) returns (r: Option<ShutdownError>)
      requires SlotInv(Snapshot()) && state.Managed?
      modifies this`state, host
      ensures exists stop, rest ::
                host.log == old(host.log) + stop + rest && ShutdownCalls(old(Snapshot()), x86, stop, rest, r)
      ensures old(host.upsets) <= host.upsets
      ensures ShutdownOutcome(old(Snapshot()), host.upsets == old(host.upsets), Snapshot(), r)
      ensures SlotInv(Snapshot())
    {
      hide ReconcileTrace, CleanupTrace, ShutdownOutcome, CleanedUp, StopTrace, StopFails;
      ghost var before, s := host.log, Snapshot();
      var stopped, stop := ShutdownManaged(host, x86);
      ghost var h := host.held;
      var cleanup, calls := Cleanup();
      ghost var after := state.vm;
      if stopped && cleanup.None? {
        state := Discovered;
        r := None;
      } else {
        state := state.(vm := state.vm.(failed := true));
        r := Some(ShutdownCleanup(!stopped, cleanup));
      }
      ManagedOutcome(s, host.upsets == old(host.upsets), h, stopped, after, host.held, cleanup, Snapshot(), r);
      assert host.log == before + stop + calls && ShutdownCalls(s, x86, stop, calls, r);
    }
  }

  /** What a cleanup leaves of what `vm` held, and of the host's state. */
  ghost predicate CleanedUp(
    vm: ManagedVm, h: HostState, after: ManagedVm, k: HostState, failure: Option<CleanupFailure>)
  {
    && after.failed == vm.failed && !after.cgroup && (after.network ==> vm.network)
    && NoMore(h, k)
    && (after.network <==> failure.Some? && failure.value.network.Some?)
    && (vm.cgroup && k.cgroup ==> failure.Some? && failure.value.health)
    && (!vm.cgroup ==> k.cgroup == h.cgroup)
    && (k.socket || k.fifo ==> failure.Some? && failure.value.vm)
    && (vm.network && k.tap ==> failure.Some? && TapReported(failure.value.network))
    && (vm.network && k.table ==> failure.Some? && TableReported(failure.value.network))
    && (vm.network && !after.network ==> !k.tap && !k.table)
  }

  lemma {:induction false} CleanupLeaves(
    vm: ManagedVm, h0: HostState, h1: HostState, h2: HostState, h3: HostState, cleaned: bool,
    network: Option<NetworkFailure>, removed: bool, after: ManagedVm, failure: Option<CleanupFailure>)
    requires NoMore(h0, h1) && h1 == h0.(procs := h1.procs, socket := h1.socket, fifo := h1.fifo)
    requires cleaned ==> !h1.socket && !h1.fifo
    requires NoMore(h1, h2) && h2 == h1.(procs := h2.procs, tap := h2.tap, table := h2.table)
    requires vm.network && h2.tap ==> TapReported(network)
    requires vm.network && h2.table ==> TableReported(network)
    requires !vm.network ==> network.None?
    requires h3 == h2.(procs := h3.procs, cgroup := h2.cgroup && !(vm.cgroup && removed)) && h3.procs <= h2.procs
    requires !vm.cgroup ==> removed
    requires after == ManagedVm(vm.failed, vm.network && network.Some?, false)
    requires failure == if cleaned && network.None? && removed then None
                        else Some(CleanupFailure(!cleaned, network, !removed))
    ensures CleanedUp(vm, h0, after, h3, failure)
  {
  }

  /** A managed VM that was stopped, or not, and then cleaned up. */
  lemma {:induction false} ManagedOutcome(
    s: Slot, calm: bool, h: HostState, stopped: bool, after: ManagedVm, k: HostState, cleanup: Option<CleanupFailure>,
    u: Slot, r: Option<ShutdownError>)
    requires SlotInv(s) && s.state.Managed? && h == s.host.(procs := h.procs) && h.procs <= s.host.procs
    requires stopped ==> h.procs == 0
    requires CleanedUp(s.state.vm, h, after, k, cleanup)
    requires calm ==> stopped && cleanup.None?
    requires u == Slot(if stopped && cleanup.None? then Discovered else Managed(after.(failed := true)), k)
    requires r == if stopped && cleanup.None? then None else Some(ShutdownCleanup(!stopped, cleanup))
    ensures ShutdownOutcome(s, calm, u, r) && SlotInv(u)
  {
  }

  lemma {:induction false} Cleaned(
    es: seq<Event>, held: ManagedVm, vm: bool, network: seq<Event>, f: Option<NetworkFailure>, cgroup: seq<Event>,
    removed: bool, failure: Option<CleanupFailure>)
    requires es == [Outcome(CleanupVm, vm)] + network + cgroup
    requires if held.network then NetworkDown(network, f) else network == [] && f == None
    requires cgroup == if held.cgroup then [Outcome(RemoveCgroup, removed)] else []
    requires !held.cgroup ==> removed
    requires failure == if vm && f.None? && removed then None else Some(CleanupFailure(!vm, f, !removed))
    ensures CleanupTrace(es, held, failure)
  {
    var first := [Outcome(CleanupVm, vm)];
    FailsJoins(first, network);
    FailsJoins(first + network, cgroup);
    assert Fails(network) <==> f.Some?;
    assert es[1..] == network + cgroup;
    assert Fails(cgroup) <==> !removed;
    assert Fails(first) <==> !vm;
    assert CleanupParts(es, held, network, f, cgroup, failure);
  }

  // What the outcomes promise.

  /** A failed start whose error carries no rollback failure left nothing it acquired. */
  lemma {:induction false} SilentFailureHoldsNothing(s: Slot, healthy: bool, u: Slot, e: StartError)
    requires SlotInv(s) && StartOutcome(s, false, healthy, u, StartFailed(e)) && NoRollbackFailure(e)
    ensures u.state == Failed && Startable(u.host) && (u.host.cgroup ==> s.host.cgroup)
  {
  }

  /** Whatever a failed shutdown leaves of what the VM still has a handle for, and whatever a
      failed reconciliation leaves at all, its error names. */
  lemma {:induction false} LeftoversAreNamed(s: Slot, calm: bool, u: Slot, e: ShutdownError)
    requires SlotInv(s) && ShutdownOutcome(s, calm, u, Some(e))
    ensures match e
            case ReconcileError(f) =>
              && (u.host.procs != 0 ==> f.processes) && (u.host.socket ==> f.socket)
              && (u.host.fifo ==> f.health) && (u.host.cgroup ==> f.health)
              && (u.host.tap ==> f.network.Some? && f.network.value.tap)
              && (u.host.table ==> f.network.Some? && f.network.value.nftables)
            case ShutdownCleanup(shutdown, cleanup) =>
              && (u.host.procs != 0 ==> shutdown)
              && (u.host.socket || u.host.fifo || u.host.tap || u.host.table ==> cleanup.Some?)
              && (u.host.socket ==> cleanup.value.vm) && (u.host.fifo ==> cleanup.value.vm)
              && (u.host.tap ==> cleanup.value.network.Some? && cleanup.value.network.value.tap)
              && (u.host.table ==> cleanup.value.network.Some? && cleanup.value.network.value.nftables)
              && (u.host.cgroup && s.state.vm.cgroup ==> cleanup.Some? && cleanup.value.health)
  {
  }

  /** Only a failed VM, or a running one, may hold anything but a stale cgroup directory. */
  lemma {:induction false} LeftoversOnlyInFailedOrManaged(s: Slot)
    requires SlotInv(s) && !Startable(s.host)
    ensures s.state.Failed? || s.state.Managed?
  {
  }

  /** On a healthy host a start succeeds exactly when the VM is running already, or is not a
      failed managed VM and has no stale cgroup directory that only reconciling removes. */
  lemma {:induction false} HealthyStart(s: Slot, u: Slot, r: StartResult)
    requires SlotInv(s) && StartOutcome(s, false, true, u, r)
    ensures u.Running() <==> s.Running() || s.state.Failed? || (s.state.Discovered? && !s.host.cgroup)
    ensures s.state.Discovered? && s.host.cgroup ==> u == Slot(Failed, s.host)
  {
  }

  /** A cgroup directory that no shutdown will remove: the VM no longer holds its handle. */
  predicate Stranded(s: Slot) {
    s.host.cgroup && (s.state.Discovered? || (s.state.Managed? && !s.state.vm.cgroup))
  }

  /** A successful shutdown leaves the cgroup directory exactly where it was stranded before. */
  lemma {:induction false} ShutdownLeavesCgroup(s: Slot, healthy: bool, u: Slot)
    requires SlotInv(s) && ShutdownOutcome(s, healthy, u, None)
    ensures u.state == Discovered && u.host == CLEAN.(cgroup := Stranded(s))
  {
  }

  /** From every state a VM can be in, shutdown, start, start brings it up once the host
      stops failing. The first start already does unless a cgroup directory was stranded; it
      then fails, and the second start reconciles the directory away. */
  lemma {:induction false} ShutdownStartStart(
    s: Slot, s1: Slot, r1: Option<ShutdownError>, s2: Slot, r2: StartResult, s3: Slot, r3: StartResult)
    requires SlotInv(s) && ShutdownOutcome(s, true, s1, r1)
    requires StartOutcome(s1, false, true, s2, r2) && StartOutcome(s2, false, true, s3, r3)
    ensures s1.state == Discovered && s3.Running() && r3 == Started
    ensures s2.Running() <==> !Stranded(s)
    ensures s3.host.procs == 1 && s3.host.tap && s3.host.table
  {
    ShutdownLeavesCgroup(s, true, s1);
    HealthyStart(s1, s2, r2);
    HealthyStart(s2, s3, r3);
  }

  /** How a directory is stranded: a running VM is shut down, everything is released but the
      directory, whose removal fails, and its handle is gone all the same. The next shutdown
      succeeds over it, and of the two starts after that the first fails. */
  lemma {:induction false} CgroupOutlivesItsHandle(s2: Slot, r2: StartResult, s3: Slot, r3: StartResult)
    requires StartOutcome(Slot(Discovered, CLEAN.(cgroup := true)), false, true, s2, r2)
    requires StartOutcome(s2, false, true, s3, r3)
    ensures var running := Slot(Managed(ManagedVm(false, true, true)), HostState(1, true, true, true, true, true));
            var stranded := Slot(Managed(ManagedVm(true, false, false)), CLEAN.(cgroup := true));
            var failure := ShutdownCleanup(false, Some(CleanupFailure(false, None, true)));
            && SlotInv(running) && ShutdownOutcome(running, false, stranded, Some(failure)) && Stranded(stranded)
            && ShutdownOutcome(stranded, true, Slot(Discovered, CLEAN.(cgroup := true)), None)
            && r2.StartFailed? && s3.Running()
  {
    var left := Slot(Discovered, CLEAN.(cgroup := true));
    HealthyStart(left, s2, r2);
    HealthyStart(s2, s3, r3);
  }

  /** The outcomes keep the invariant, whatever fails. */
  lemma {:induction false} OutcomesKeepInv(s: Slot, healthy: bool, u: Slot)
    requires SlotInv(s)
    ensures forall d: bool, r :: StartOutcome(s, d, healthy, u, r) ==> SlotInv(u)
    ensures forall r :: ShutdownOutcome(s, healthy, u, r) ==> SlotInv(u)
  {
  }
}
