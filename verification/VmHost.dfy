/** What one VM holds on the host, and the host calls that acquire and release it.
    Any call may fail of its own accord, and a process may exit by itself. */
module VmHost {

  /** Firecracker processes carrying the VM's id, its TAP device, its nftables table, its
      API socket and metrics FIFO, and its cgroup directory. */
  datatype HostState = HostState(procs: nat, tap: bool, table: bool, socket: bool, fifo: bool, cgroup: bool)

  const CLEAN: HostState := HostState(0, false, false, false, false, false)

  /** Nothing is held in `b` that was not held in `a`. */
  predicate NoMore(a: HostState, b: HostState) {
    && b.procs <= a.procs
    && (b.tap ==> a.tap) && (b.table ==> a.table)
    && (b.socket ==> a.socket) && (b.fifo ==> a.fifo) && (b.cgroup ==> a.cgroup)
  }

  datatype Call =
    | CheckPool | DeleteTable | DeleteTap | CreateTap | SetUpTap | CommitRules
    | PrepareVm | StartVm | AttachConsole | FindPid
    | CreateCgroupRoot | CreateCgroup | EnterCgroup
    | AskReboot | Kill | StopVm | CleanupVm | RemoveSocket | RemoveFifo | KillCgroup | RemoveCgroup | EnsureSerialLog

  /** A call that was made and how it went. Only a search for the process may find it absent. */
  datatype Event = Done(call: Call) | Erred(call: Call) | Absent(call: Call)

  function Outcome(call: Call, ok: bool): Event {
    if ok then Done(call) else Erred(call)
  }

  datatype PidLookup = Found | NotFound | Unreadable

  function PidOutcome(r: PidLookup): Event {
    match r
    case Found => Done(FindPid)
    case NotFound => Absent(FindPid)
    case Unreadable => Erred(FindPid)
  }

  /** `log` are the calls made, in order; `upsets` counts the calls that failed of their own
      accord and the processes that exited by themselves. */
  class Host {
    var held: HostState
    ghost var log: seq<Event>
    ghost var upsets: nat

    constructor (held: HostState)
      ensures this.held == held && log == [] && upsets == 0
    {
      this.held := held;
      log, upsets := [], 0;
    }

    /** What time itself may do, before or between calls. */
    method Drift()
      modifies this`held, this`upsets
      ensures held == old(held).(procs := held.procs) && held.procs <= old(held).procs
      ensures old(upsets) <= upsets && (upsets == old(upsets) ==> held == old(held))
    {
      var n: nat := *;
      if n < held.procs {
        held := held.(procs := n);
        upsets := upsets + 1;
      }
    }

    /** One call: refused when it is not `possible`, and otherwise at the host's mercy. */
    method Attempt(call: Call, possible: bool) returns (ok: bool)
      modifies this`log, this`upsets
      ensures log == old(log) + [Outcome(call, ok)]
      ensures ok ==> possible
      ensures old(upsets) <= upsets && (upsets == old(upsets) ==> ok == possible)
    {
      ok := *;
      if !ok && possible {
        upsets := upsets + 1;
      }
      ok := ok && possible;
      log := log + [Outcome(call, ok)];
    }

    /** `del_table_if_exists`. */
    method TryDeleteTable() returns (ok: bool)
      modifies this
      ensures held == old(held).(procs := held.procs, table := old(held).table && !ok)
      ensures held.procs <= old(held).procs
      ensures log == old(log) + [Outcome(DeleteTable, ok)] && old(upsets) <= upsets
      ensures upsets == old(upsets) ==> ok && held.procs == old(held).procs
    {
      Drift();
      ok := Attempt(DeleteTable, true);
      held := held.(table := held.table && !ok);
    }

    /** `del_link_if_exists`. */
    method TryDeleteTap() returns (ok: bool)
      modifies this
      ensures held == old(held).(procs := held.procs, tap := old(held).tap && !ok)
      ensures held.procs <= old(held).procs
      ensures log == old(log) + [Outcome(DeleteTap, ok)] && old(upsets) <= upsets
      ensures upsets == old(upsets) ==> ok && held.procs == old(held).procs
    {
      Drift();
      ok := Attempt(DeleteTap, true);
      held := held.(tap := held.tap && !ok);
    }

    /** `create_persistent` for a TAP that does not exist. */
    method TryCreateTap() returns (ok: bool)
      modifies this
      ensures held == old(held).(procs := held.procs, tap := old(held).tap || ok)
      ensures held.procs <= old(held).procs
      ensures log == old(log) + [Outcome(CreateTap, ok)] && old(upsets) <= upsets
      ensures upsets == old(upsets) ==> ok && held.procs == old(held).procs
    {
      Drift();
      ok := Attempt(CreateTap, true);
      held := held.(tap := held.tap || ok);
    }

    /** A call that inspects or configures the host without acquiring anything. */
    method TryConfigure(call: Call) returns (ok: bool)
      modifies this
      ensures held == old(held).(procs := held.procs)
      ensures held.procs <= old(held).procs
      ensures log == old(log) + [Outcome(call, ok)] && old(upsets) <= upsets
      ensures upsets == old(upsets) ==> ok && held.procs == old(held).procs
    {
      Drift();
      ok := Attempt(call, true);
    }

    /** The rule transaction: the table appears whole or not at all. */
    method TryCommitRules() returns (ok: bool)
      modifies this
      ensures held == old(held).(procs := held.procs, table := old(held).table || ok)
      ensures held.procs <= old(held).procs
      ensures log == old(log) + [Outcome(CommitRules, ok)] && old(upsets) <= upsets
      ensures upsets == old(upsets) ==> ok && held.procs == old(held).procs
    {
      Drift();
      ok := Attempt(CommitRules, true);
      held := held.(table := held.table || ok);
    }

    /** `Vm::prepare`: all or nothing, and refused while the FIFO of an earlier run remains. */
    method TryPrepareVm() returns (ok: bool)
      modifies this
      ensures held == old(held).(procs := held.procs, fifo := old(held).fifo || ok)
      ensures held.procs <= old(held).procs
      ensures ok ==> !old(held).fifo
      ensures log == old(log) + [Outcome(PrepareVm, ok)] && old(upsets) <= upsets
      ensures upsets == old(upsets) ==> ok == !old(held).fifo && held.procs == old(held).procs
    {
      Drift();
      ok := Attempt(PrepareVm, !held.fifo);
      held := held.(fifo := held.fifo || ok);
    }

    /** `Vm::start`: on failure the process may or may not have been spawned. */
    method TryStartVm() returns (ok: bool)
      modifies this
      ensures held == old(held).(procs := held.procs, socket := held.socket)
      ensures held.procs <= old(held).procs + 1
      ensures log == old(log) + [Outcome(StartVm, ok)] && old(upsets) <= upsets
      ensures upsets == old(upsets) ==> ok && held.procs == old(held).procs + 1
    {
      Drift();
      ok := Attempt(StartVm, true);
      var spawned: bool := *;
      if ok || spawned {
        var bound: bool := *;
        held := held.(procs := held.procs + 1, socket := held.socket || bound);
      }
    }

    /** `Firecracker::pid`: the scan of `/proc`. */
    method TryFindPid() returns (r: PidLookup)
      modifies this
      ensures held == old(held).(procs := held.procs) && held.procs <= old(held).procs
      ensures r == NotFound ==> held.procs == 0
      ensures log == old(log) + [PidOutcome(r)] && old(upsets) <= upsets
      ensures upsets == old(upsets) ==>
                held.procs == old(held).procs && r == if held.procs > 0 then Found else NotFound
    {
      Drift();
      var readable: bool := *;
      r := if !readable then Unreadable else if held.procs > 0 then Found else NotFound;
      upsets := if readable then upsets else upsets + 1;
      log := log + [PidOutcome(r)];
    }

    /** `kill_process`: one process. */
    method TryKill(call: Call) returns (ok: bool)
      modifies this
      ensures held == old(held).(procs := held.procs) && held.procs <= old(held).procs
      ensures ok ==> held.procs + 1 <= old(held).procs || held.procs == 0
      ensures log == old(log) + [Outcome(call, ok)] && old(upsets) <= upsets
      ensures upsets == old(upsets) ==> ok
    {
      Drift();
      ok := Attempt(call, true);
      if ok && held.procs > 0 {
        held := held.(procs := held.procs - 1);
      }
    }

    /** `Vm::shutdown` with its escalating actions, and `Vm::shutdown` by kill alone:
        success means the VM's process exited. */
    method TryStopVm() returns (ok: bool)
      modifies this
      ensures held == old(held).(procs := held.procs) && held.procs <= old(held).procs
      ensures ok ==> held.procs + 1 <= old(held).procs || held.procs == 0
      ensures log == old(log) + [Outcome(StopVm, ok)] && old(upsets) <= upsets
      ensures upsets == old(upsets) ==> ok
    {
      ok := TryKill(StopVm);
    }

    /** `Vm::cleanup`: success leaves neither socket nor FIFO. */
    method TryCleanupVm() returns (ok: bool)
      modifies this
      ensures NoMore(old(held), held)
      ensures held == old(held).(procs := held.procs, socket := held.socket, fifo := held.fifo)
      ensures ok ==> !held.socket && !held.fifo
      ensures log == old(log) + [Outcome(CleanupVm, ok)] && old(upsets) <= upsets
      ensures upsets == old(upsets) ==> ok && held.procs == old(held).procs
    {
      Drift();
      ok := Attempt(CleanupVm, true);
      var socketLeft: bool, fifoLeft: bool := *, *;
      held := held.(socket := held.socket && socketLeft && !ok, fifo := held.fifo && fifoLeft && !ok);
    }

    /** Removing the API socket of an earlier run. */
    method TryRemoveSocket() returns (ok: bool)
      modifies this
      ensures held == old(held).(procs := held.procs, socket := old(held).socket && !ok)
      ensures held.procs <= old(held).procs
      ensures log == old(log) + [Outcome(RemoveSocket, ok)] && old(upsets) <= upsets
      ensures upsets == old(upsets) ==> ok && held.procs == old(held).procs
    {
      Drift();
      ok := Attempt(RemoveSocket, true);
      held := held.(socket := held.socket && !ok);
    }

    /** Removing the metrics FIFO of an earlier run. */
    method TryRemoveFifo() returns (ok: bool)
      modifies this
      ensures held == old(held).(procs := held.procs, fifo := old(held).fifo && !ok)
      ensures held.procs <= old(held).procs
      ensures log == old(log) + [Outcome(RemoveFifo, ok)] && old(upsets) <= upsets
      ensures upsets == old(upsets) ==> ok && held.procs == old(held).procs
    {
      Drift();
      ok := Attempt(RemoveFifo, true);
      held := held.(fifo := held.fifo && !ok);
    }

    /** `create_dir` on the VM's cgroup: refused when the directory exists. */
    method TryCreateCgroup() returns (ok: bool)
      modifies this
      ensures held == old(held).(procs := held.procs, cgroup := old(held).cgroup || ok)
      ensures held.procs <= old(held).procs
      ensures ok ==> !old(held).cgroup
      ensures log == old(log) + [Outcome(CreateCgroup, ok)] && old(upsets) <= upsets
      ensures upsets == old(upsets) ==> ok == !old(held).cgroup && held.procs == old(held).procs
    {
      Drift();
      ok := Attempt(CreateCgroup, !held.cgroup);
      held := held.(cgroup := held.cgroup || ok);
    }

    /** `cgroup.kill`: everything in the cgroup dies. */
    method TryKillCgroup() returns (ok: bool)
      modifies this
      ensures held == old(held).(procs := held.procs) && held.procs <= old(held).procs
      ensures log == old(log) + [Outcome(KillCgroup, ok)] && old(upsets) <= upsets
      ensures upsets == old(upsets) ==> ok && (old(held).cgroup ==> held.procs == 0)
    {
      Drift();
      ok := Attempt(KillCgroup, true);
      if ok && held.cgroup {
        held := held.(procs := 0);
      }
    }

    /** `remove_dir` on the VM's cgroup: a missing directory is no error, and only a process
        still alive or a failing host keeps it. */
    method TryRemoveCgroup() returns (ok: bool)
      modifies this
      ensures held == old(held).(procs := held.procs, cgroup := old(held).cgroup && !ok)
      ensures held.procs <= old(held).procs
      ensures log == old(log) + [Outcome(RemoveCgroup, ok)] && old(upsets) <= upsets
      ensures upsets == old(upsets) ==> held.procs == old(held).procs && (held.procs == 0 ==> ok)
    {
      Drift();
      var vacated: bool := *;
      ok := Attempt(RemoveCgroup, held.procs == 0 || !held.cgroup || vacated);
      held := held.(cgroup := held.cgroup && !ok);
    }
  }
}
