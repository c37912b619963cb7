/** The lifecycle manager as a system of steps: API calls that hold one map entry's lock
    while they run, creates that insert at the end, and any number of manager shutdowns,
    all interleaved and with any host call failing. */
module Manager {
  import opened Optional
  import opened VmIds
  import opened VmHost
  import opened VmLifecycle

  /** A manager shutdown in progress: entries its iteration has yet to visit, and whether
      one of those visited failed to shut down. */
  datatype Sweep = Sweep(todo: set<VmId>, failed: bool)

  /** `starting` are the entries locked by a start that has passed its drain check;
      `creating` counts the creates past theirs. */
  datatype World = World(
    draining: bool,
    vms: map<VmId, Slot>,
    starting: set<VmId>,
    creating: nat,
    nextId: nat,
    sweeps: map<nat, Sweep>,
    returned: bool,
    returnedOk: bool)

  /** A manager as it is opened: the VMs found in the store, each reconciled. */
  ghost predicate Opened(w: World) {
    && w == World(false, w.vms, {}, 0, w.nextId, map[], false, false)
    && forall id :: id in w.vms ==> w.vms[id] == Slot(Discovered, CLEAN) && id < w.nextId
  }

  // The steps.

  ghost predicate CreateBegin(w: World, u: World) {
    !w.draining && u == w.(creating := w.creating + 1)
  }

  ghost predicate CreateFail(w: World, u: World) {
    w.creating > 0 && u == w.(creating := w.creating - 1)
  }

  /** The new id is one no VM ever had, and the VM enters the map as Discovered. */
  ghost predicate CreateFinish(w: World, u: World) {
    && w.creating > 0 && w.nextId <= LAST_ID
    && u == w.(creating := w.creating - 1, vms := w.vms[w.nextId := Slot(Discovered, CLEAN)], nextId := w.nextId + 1)
  }

  /** Takes the entry lock, then checks the drain flag. */
  ghost predicate StartBegin(w: World, id: VmId, u: World) {
    id in w.vms && id !in w.starting && !w.draining && u == w.(starting := w.starting + {id})
  }

  /** The rest of the start, however the flag has changed meanwhile. */
  ghost predicate StartEnd(w: World, id: VmId, s: Slot, u: World) {
    && id in w.starting && id in w.vms
    && (exists healthy, r :: StartOutcome(w.vms[id], false, healthy, s, r))
    && u == w.(starting := w.starting - {id}, vms := w.vms[id := s])
  }

  /** One entry shut down under its lock, by the API or by the idle monitor's heartbeat. */
  ghost predicate ShutdownEntry(w: World, id: VmId, s: Slot, u: World) {
    && id in w.vms && id !in w.starting
    && (exists healthy, r :: ShutdownOutcome(w.vms[id], healthy, s, r))
    && u == w.(vms := w.vms[id := s])
  }

  /** The entry goes only after a clean shutdown and a persisted deletion. */
  ghost predicate DeleteEntry(w: World, id: VmId, s: Slot, u: World) {
    && id in w.vms && id !in w.starting
    && (exists healthy :: ShutdownOutcome(w.vms[id], healthy, s, None))
    && u == w.(vms := w.vms - {id})
  }

  /** A process may exit at any time, also in the middle of a start. */
  ghost predicate ProcessExits(w: World, id: VmId, n: nat, u: World) {
    && id in w.vms && n <= w.vms[id].host.procs
    && u == w.(vms := w.vms[id := w.vms[id].(host := w.vms[id].host.(procs := n))])
  }

  /** Sets the flag and starts iterating: every entry present now will be visited unless it
      is removed first; one inserted later may be missed. */
  ghost predicate SweepBegin(w: World, k: nat, u: World) {
    k !in w.sweeps && u == w.(draining := true, sweeps := w.sweeps[k := Sweep(w.vms.Keys, false)])
  }

  ghost predicate SweepVisit(w: World, k: nat, id: VmId, s: Slot, u: World) {
    && k in w.sweeps && id in w.vms && id !in w.starting
    && (exists healthy, r :: ShutdownOutcome(w.vms[id], healthy, s, r) && Visited(w, k, id, s, r.Some?, u))
  }

  ghost predicate Visited(w: World, k: nat, id: VmId, s: Slot, failed: bool, u: World)
    requires k in w.sweeps
  {
    var sweep := w.sweeps[k];
    u == w.(vms := w.vms[id := s], sweeps := w.sweeps[k := Sweep(sweep.todo - {id}, sweep.failed || failed)])
  }

  ghost predicate SweepEnd(w: World, k: nat, u: World) {
    && k in w.sweeps && w.sweeps[k].todo !! w.vms.Keys
    && u == w.(sweeps := w.sweeps - {k}, returned := true, returnedOk := w.returnedOk || !w.sweeps[k].failed)
  }

  ghost predicate CreateStep(w: World, u: World) {
    CreateBegin(w, u) || CreateFail(w, u) || CreateFinish(w, u)
  }

  ghost predicate EntryStep(w: World, id: VmId, s: Slot, u: World) {
    StartEnd(w, id, s, u) || ShutdownEntry(w, id, s, u) || DeleteEntry(w, id, s, u)
  }

  ghost predicate SweepStep(w: World, k: nat, id: VmId, s: Slot, u: World) {
    SweepBegin(w, k, u) || SweepVisit(w, k, id, s, u) || SweepEnd(w, k, u)
  }

  ghost predicate Step(w: World, u: World) {
    || CreateStep(w, u)
    || (exists id :: StartBegin(w, id, u))
    || (exists id, s :: EntryStep(w, id, s, u))
    || (exists id, n :: ProcessExits(w, id, n, u))
    || (exists k, id, s :: SweepStep(w, k, id, s, u))
  }

  // What every step keeps.

  /** The VM is not running and no start holds its lock. */
  ghost predicate Quiet(w: World, id: VmId)
    requires id in w.vms
  {
    id !in w.starting && !w.vms[id].Running()
  }

  /** A sweep has left every entry it is done with quiet, and Discovered if none failed. */
  ghost predicate SweepHolds(w: World, sweep: Sweep) {
    forall id :: id in w.vms && id !in sweep.todo ==>
      Quiet(w, id) && (!sweep.failed ==> w.vms[id].state == Discovered)
  }

  ghost predicate Inv(w: World) {
    && (forall id :: id in w.vms ==> SlotInv(w.vms[id]) && id < w.nextId)
    && w.starting <= w.vms.Keys
    && (w.sweeps != map[] || w.returned ==> w.draining)
    && (forall k :: k in w.sweeps ==> SweepHolds(w, w.sweeps[k]))
    && (w.returned ==> SweepHolds(w, Sweep({}, true)))
    && (w.returnedOk ==> w.returned && SweepHolds(w, Sweep({}, false)))
  }

  /** Changing one entry's slot to one that is no longer running, and is Discovered if it was. */
  lemma {:induction false} QuieterKeepsInv(w: World, id: VmId, s: Slot)
    requires Inv(w) && id in w.vms && SlotInv(s)
    requires s.Running() ==> w.vms[id].Running()
    requires w.vms[id].state == Discovered ==> s.state == Discovered
    ensures Inv(w.(vms := w.vms[id := s]))
  {
  }

  lemma {:induction false} VisitKeepsInv(w: World, k: nat, id: VmId, s: Slot, failed: bool, u: World)
    requires Inv(w) && k in w.sweeps && id in w.vms && id !in w.starting
    requires Inv(w.(vms := w.vms[id := s])) && !s.Running() && (!failed ==> s.state == Discovered)
    requires Visited(w, k, id, s, failed, u)
    ensures Inv(u)
  {
  }

  lemma {:induction false} StartEndKeepsInv(w: World, id: VmId, s: Slot, u: World)
    requires Inv(w) && StartEnd(w, id, s, u)
    ensures Inv(u)
  {
    var healthy, r :| StartOutcome(w.vms[id], false, healthy, s, r);
    OutcomesKeepInv(w.vms[id], healthy, s);
    forall k | k in u.sweeps
      ensures SweepHolds(u, u.sweeps[k])
    {
      assert SweepHolds(w, w.sweeps[k]);
    }
  }

  /** A shutdown leaves its entry not running, and Discovered when it succeeds. */
  lemma {:induction false} ShutdownQuiets(s: Slot, healthy: bool, u: Slot, r: Option<ShutdownError>)
    requires SlotInv(s) && ShutdownOutcome(s, healthy, u, r)
    ensures SlotInv(u) && !u.Running()
    ensures r.None? ==> u.state == Discovered
    ensures s.state == Discovered ==> u.state == Discovered
  {
  }

  lemma {:induction false} ShutdownKeepsInv(w: World, id: VmId, s: Slot, u: World)
    requires Inv(w)
    requires ShutdownEntry(w, id, s, u) || DeleteEntry(w, id, s, u)
    ensures Inv(u)
  {
  }

  lemma {:induction false} SweepKeepsInv(w: World, k: nat, id: VmId, s: Slot, u: World)
    requires Inv(w) && SweepStep(w, k, id, s, u)
    ensures Inv(u)
  {
    if SweepVisit(w, k, id, s, u) {
      var healthy, r :| ShutdownOutcome(w.vms[id], healthy, s, r) && Visited(w, k, id, s, r.Some?, u);
      ShutdownQuiets(w.vms[id], healthy, s, r);
      QuieterKeepsInv(w, id, s);
      VisitKeepsInv(w, k, id, s, r.Some?, u);
    } else {
      forall j | j in u.sweeps
        ensures SweepHolds(u, u.sweeps[j])
      {
        assert j in w.sweeps ==> SweepHolds(w, w.sweeps[j]);
      }
    }
  }

  lemma {:induction false} SmallStepsKeepInv(w: World, u: World)
    requires Inv(w)
    requires CreateStep(w, u) || exists id :: StartBegin(w, id, u)
    ensures Inv(u)
  {
    forall k | k in u.sweeps
      ensures SweepHolds(u, u.sweeps[k])
    {
      assert SweepHolds(w, w.sweeps[k]);
    }
  }

  lemma {:induction false} StepKeepsInv(w: World, u: World)
    requires Inv(w) && Step(w, u)
    ensures Inv(u)
  {
    hide Inv, StartEnd, ShutdownEntry, DeleteEntry, SweepStep, CreateStep, StartBegin;
    if id, s :| EntryStep(w, id, s, u) {
      if StartEnd(w, id, s, u) {
        StartEndKeepsInv(w, id, s, u);
      } else {
        ShutdownKeepsInv(w, id, s, u);
      }
    } else if k, id, s :| SweepStep(w, k, id, s, u) {
      SweepKeepsInv(w, k, id, s, u);
    } else if id, n :| ProcessExits(w, id, n, u) {
      ExitKeepsInv(w, id, n, u);
    } else {
      SmallStepsKeepInv(w, u);
    }
  }

  lemma {:induction false} ExitKeepsInv(w: World, id: VmId, n: nat, u: World)
    requires Inv(w) && ProcessExits(w, id, n, u)
    ensures Inv(u)
  {
  }

  // Whole runs.

  ghost predicate Run(ws: seq<World>) {
    ws != [] && Opened(ws[0]) && forall i :: 0 <= i < |ws| - 1 ==> Step(ws[i], ws[i + 1])
  }

  lemma {:induction false} RunKeepsInv(ws: seq<World>, i: nat)
    requires Run(ws) && i < |ws|
    ensures Inv(ws[i])
  {
    if i > 0 {
      RunKeepsInv(ws, i - 1);
      RunSteps(ws, i - 1);
      StepKeepsInv(ws[i - 1], ws[i]);
    }
  }

  lemma {:induction false} ReturnedStays(w: World, u: World)
    requires Step(w, u)
    ensures w.returned ==> u.returned
    ensures w.returnedOk ==> u.returnedOk
    ensures w.draining ==> u.draining
  {
  }

  lemma {:induction false} ReturnedStaysInRun(ws: seq<World>, i: nat, j: nat)
    requires Run(ws) && i <= j < |ws|
    ensures ws[i].returned ==> ws[j].returned
    ensures ws[i].returnedOk ==> ws[j].returnedOk
  {
    hide *;
    if i < j {
      ReturnedStaysInRun(ws, i, j - 1);
      RunSteps(ws, j - 1);
      ReturnedStays(ws[j - 1], ws[j]);
    }
  }

  lemma {:induction false} RunSteps(ws: seq<World>, i: nat)
    requires Run(ws) && i + 1 < |ws|
    ensures Step(ws[i], ws[i + 1])
  {
  }

  /** Once some manager shutdown has returned, no VM is ever running or being started again;
      if it returned without error every registered VM is Discovered and, but for a stale
      cgroup directory, holds nothing on the host. */
  lemma {:induction false} ShutdownIsFinal(ws: seq<World>, i: nat, j: nat, id: VmId)
    requires Run(ws) && i <= j < |ws| && ws[i].returned && id in ws[j].vms
    ensures Quiet(ws[j], id)
    ensures ws[i].returnedOk ==> ws[j].vms[id].state == Discovered && Startable(ws[j].vms[id].host)
  {
    RunKeepsInv(ws, j);
    ReturnedStaysInRun(ws, i, j);
  }

  /** In every reachable state a VM has at most one Firecracker process, and one that is
      Discovered has no process, no TAP, no table, no socket and no FIFO; one that runs has
      its network and cgroup handles. */
  lemma {:induction false} DiscoveredHoldsNothing(ws: seq<World>, i: nat, id: VmId)
    requires Run(ws) && i < |ws| && id in ws[i].vms
    ensures ws[i].vms[id].host.procs <= 1
    ensures ws[i].vms[id].state == Discovered ==> Startable(ws[i].vms[id].host)
    ensures ws[i].vms[id].Running() ==> ws[i].vms[id].state.vm == ManagedVm(false, true, true)
  {
    RunKeepsInv(ws, i);
  }

  /** From every reachable state of a registered VM, shutdown, start, start on a host that
      has stopped failing ends with the VM running. */
  lemma {:induction false} ReachableVmRecovers(ws: seq<World>, i: nat, id: VmId,
                            s1: Slot, r1: Option<ShutdownError>, s2: Slot, r2: StartResult, s3: Slot, r3: StartResult)
    requires Run(ws) && i < |ws| && id in ws[i].vms
    requires ShutdownOutcome(ws[i].vms[id], true, s1, r1)
    requires StartOutcome(s1, false, true, s2, r2) && StartOutcome(s2, false, true, s3, r3)
    ensures s3.Running() && s3.host.procs == 1
  {
    RunKeepsInv(ws, i);
    ShutdownStartStart(ws[i].vms[id], s1, r1, s2, r2, s3, r3);
  }

  // The calls themselves.

  datatype CreateCheck = Admitted | Refused | CapacityReached(running: nat)

  /** `s` are the managed VMs that have not failed. */
  ghost predicate AreRunning(w: World, s: set<VmId>) {
    forall id :: id in s <==> id in w.vms && w.vms[id].state.Managed? && !w.vms[id].state.vm.failed
  }

  /** The manager object (`Barbirolli`); each method is one step of the system above. `upsets`
      counts the host calls that failed of their own accord and the processes that exited by
      themselves during its calls. */
  class Barbirolli {
    var w: World
    ghost var upsets: nat

    constructor (vms: map<VmId, Slot>, nextId: nat)
      requires forall id :: id in vms ==> vms[id] == Slot(Discovered, CLEAN) && id < nextId
      ensures Opened(w) && w.vms == vms && w.nextId == nextId && upsets == 0
    {
      w := World(false, vms, {}, 0, nextId, map[], false, false);
      upsets := 0;
    }

    /** `create` up to its store call: the drain flag, then the capacity. */
    method CheckCreate(count: nat) returns (r: CreateCheck)
      modifies this`w
      ensures r == Refused <==> old(w).draining
      ensures forall s :: AreRunning(old(w), s) ==>
                && (r == Admitted <==> !old(w).draining && |s| < count)
                && (r.CapacityReached? ==> r.running == |s| && count <= |s|)
      ensures if r == Admitted then CreateBegin(old(w), w) else w == old(w)
    {
      forall s | AreRunning(w, s)
        ensures s == RunningVms(w)
      {
      }
      if w.draining {
        return Refused;
      }
      var running := |RunningVms(w)|;
      if running >= count {
        return CapacityReached(running);
      }
      w := w.(creating := w.creating + 1);
      return Admitted;
    }

    /** `create` after `finish`. */
    method InsertCreated() returns (id: VmId)
      requires w.creating > 0 && w.nextId <= LAST_ID
      modifies this`w
      ensures CreateFinish(old(w), w) && id == old(w).nextId
    {
      id := w.nextId;
      w := w.(creating := w.creating - 1, vms := w.vms[id := Slot(Discovered, CLEAN)], nextId := id + 1);
    }

    /** `start` under the entry lock, up to the drain check. */
    method BeginStart(id: VmId) returns (admitted: bool)
      requires id in w.vms && id !in w.starting
      modifies this`w
      ensures admitted <==> !old(w).draining
      ensures if admitted then StartBegin(old(w), id, w) else w == old(w)
    {
      admitted := !w.draining;
      if admitted {
        w := w.(starting := w.starting + {id});
      }
    }

    method EndStart(id: VmId) returns (r: StartResult)
      requires Inv(w) && id in w.starting
      modifies this
      ensures id in w.vms && StartEnd(old(w), id, w.vms[id], w) && old(upsets) <= upsets
      ensures StartOutcome(old(w).vms[id], false, upsets == old(upsets), w.vms[id], r)
    {
      var vm := new BarbirolliVm.Locked(w.vms[id]);
      r := vm.Start(false);
      upsets := upsets + vm.host.upsets;
      w := w.(starting := w.starting - {id}, vms := w.vms[id := vm.Snapshot()]);
    }

    method ShutdownVm(id: VmId, x86: bool) returns (r: Option<ShutdownError>)
      requires Inv(w) && id in w.vms && id !in w.starting
      modifies this
      ensures id in w.vms && ShutdownEntry(old(w), id, w.vms[id], w)
      ensures ShutdownOutcome(old(w).vms[id], upsets == old(upsets), w.vms[id], r) && old(upsets) <= upsets
    {
      var vm := new BarbirolliVm.Locked(w.vms[id]);
      r := vm.Shutdown(x86);
      upsets := upsets + vm.host.upsets;
      w := w.(vms := w.vms[id := vm.Snapshot()]);
    }

    /** `delete`: shutdown, then the persisted deletion, then the removal. */
    method Delete(id: VmId, x86: bool, persists: bool) returns (ok: bool)
      requires Inv(w) && id !in w.starting
      modifies this
      ensures old(w).draining || id !in old(w).vms ==> !ok && w == old(w)
      ensures !old(w).draining && id in old(w).vms ==>
                DeleteTried(old(w), id, upsets == old(upsets), persists, ok, w)
      ensures ok ==> exists s :: DeleteEntry(old(w), id, s, w)
      ensures !ok && !old(w).draining && id in old(w).vms ==> ShutdownEntry(old(w), id, w.vms[id], w)
      ensures old(upsets) <= upsets
    {
      if w.draining || id !in w.vms {
        return false;
      }
      ghost var before := w;
      var r := ShutdownVm(id, x86);
      ghost var s := w.vms[id];
      ok := r.None? && persists;
      if ok {
        assert DeleteEntry(before, id, s, before.(vms := before.vms - {id}));
        w := w.(vms := w.vms - {id});
        assert w.vms == before.vms - {id};
      }
      ghost var calm := upsets == old(upsets);
      assert ShutdownOutcome(before.vms[id], calm, s, r);
      assert DeleteTried(before, id, calm, persists, ok, w);
    }

    /** One turn of the loop in `shutdown`. */
    method VisitEntry(k: nat, id: VmId, x86: bool)
      requires Inv(w) && k in w.sweeps && id in w.vms && id !in w.starting
      modifies this
      ensures Inv(w) && w.vms.Keys == old(w).vms.Keys && old(upsets) <= upsets
      ensures SweepVisit(old(w), k, id, w.vms[id], w)
      ensures VisitedCalmly(old(w), k, id, upsets == old(upsets), w)
    {
      ghost var at := w;
      var r := ShutdownVm(id, x86);
      var sweep := w.sweeps[k];
      sweep := Sweep(sweep.todo - {id}, sweep.failed || r.Some?);
      w := w.(sweeps := w.sweeps[k := sweep]);
      assert ShutdownOutcome(at.vms[id], upsets == old(upsets), w.vms[id], r)
          && Visited(at, k, id, w.vms[id], r.Some?, w);
      SweepKeepsInv(at, k, id, w.vms[id], w);
    }

    /** `shutdown` with no other call running: visits every entry once, keeps going past
        failures and fails if one failed. */
    method Shutdown(x86: bool) returns (ok: bool)
      requires Inv(w) && w.starting == {} && w.sweeps == map[]
      modifies this
      ensures Inv(w) && w.draining && w.returned && w.vms.Keys == old(w).vms.Keys
      ensures w.sweeps == map[] && (w.returnedOk <==> old(w).returnedOk || ok)
      ensures forall id :: id in w.vms ==> !w.vms[id].Running() && ShutDown(old(w), id, w)
      ensures ok <==> forall id :: id in w.vms ==> w.vms[id].state == Discovered
      ensures old(upsets) <= upsets && (upsets == old(upsets) ==> ok)
    {
      hide *;
      ghost var before := w;
      w := Drained(w);
      DrainedIsSweeping(before);
      while w.sweeps[0].todo != {}
        invariant Sweeping(before, w) && 0 in w.sweeps
        invariant old(upsets) <= upsets && (w.sweeps[0].failed ==> old(upsets) < upsets)
        decreases w.sweeps[0].todo
      {
        var id :| id in w.sweeps[0].todo;
        SweepingEntry(before, w, id);
        ghost var at, upset := w, upsets;
        VisitEntry(0, id, x86);
        VisitIsSweeping(before, at, id, upsets == upset, w);
      }
      ok := !w.sweeps[0].failed;
      SweptHolds(before, w);
      w := Finished(w);
    }
  }

  /** The entry was shut down, and went exactly when that succeeded and its deletion persisted. */
  ghost predicate DeleteTried(w: World, id: VmId, calm: bool, persists: bool, ok: bool, u: World) {
    && id in w.vms
    && exists s, r ::
         && ShutdownOutcome(w.vms[id], calm, s, r)
         && (ok <==> r.None? && persists)
         && u == w.(vms := if ok then w.vms - {id} else w.vms[id := s])
  }

  /** One visit, on a host that stayed calm or not. */
  ghost predicate VisitedCalmly(w: World, k: nat, id: VmId, calm: bool, u: World) {
    && k in w.sweeps && id in w.vms && id in u.vms
    && exists r :: ShutdownOutcome(w.vms[id], calm, u.vms[id], r) && Visited(w, k, id, u.vms[id], r.Some?, u)
  }

  /** The entry was shut down between `w` and `u`, and nothing else was done to it. */
  ghost predicate ShutDown(w: World, id: VmId, u: World) {
    id in w.vms && id in u.vms && exists calm, r :: ShutdownOutcome(w.vms[id], calm, u.vms[id], r)
  }

  /** The world as a shutdown with no other call running begins its loop, and as it returns. */
  function Drained(w: World): World {
    w.(draining := true, sweeps := w.sweeps[0 := Sweep(w.vms.Keys, false)])
  }

  function Finished(w: World): World
    requires 0 in w.sweeps
  {
    w.(sweeps := w.sweeps - {0}, returned := true, returnedOk := w.returnedOk || !w.sweeps[0].failed)
  }

  /** The loop of a shutdown that began in `before`, with no other call running. */
  ghost predicate Sweeping(before: World, w: World) {
    && Inv(w) && w.starting == {} && w.draining && w.vms.Keys == before.vms.Keys
    && w.sweeps.Keys == {0} && w.sweeps[0].todo <= w.vms.Keys && w.returnedOk == before.returnedOk
    && (forall id :: id in w.sweeps[0].todo ==> w.vms[id] == before.vms[id])
    && (forall id :: id in w.vms && id !in w.sweeps[0].todo ==> ShutDown(before, id, w))
    && (w.sweeps[0].failed ==> exists id :: id in w.vms && id !in w.sweeps[0].todo && w.vms[id].state != Discovered)
  }

  lemma {:induction false} DrainedIsSweeping(w: World)
    requires Inv(w) && w.starting == {} && w.sweeps == map[]
    ensures Sweeping(w, Drained(w))
    ensures 0 in Drained(w).sweeps && !Drained(w).sweeps[0].failed
  {
  }

  lemma {:induction false} SweepingEntry(before: World, w: World, id: VmId)
    requires Sweeping(before, w) && id in w.sweeps[0].todo
    ensures Inv(w) && id in w.vms && id !in w.starting
  {
  }

  lemma {:induction false} VisitIsSweeping(before: World, w: World, id: VmId, calm: bool, u: World)
    requires Sweeping(before, w) && id in w.sweeps[0].todo && Inv(u) && VisitedCalmly(w, 0, id, calm, u)
    ensures Sweeping(before, u) && 0 in u.sweeps && u.sweeps[0].todo < w.sweeps[0].todo
    ensures u.sweeps[0].failed ==> w.sweeps[0].failed || !calm
  {
    hide ShutdownOutcome, Inv;
    var r :| ShutdownOutcome(w.vms[id], calm, u.vms[id], r) && Visited(w, 0, id, u.vms[id], r.Some?, u);
    var at, now := w.sweeps[0], u.sweeps[0];
    FailedShutdownShows(w.vms[id], calm, u.vms[id], r);
    assert ShutDown(before, id, u);
    forall other | other in u.vms && other !in now.todo && other != id
      ensures ShutDown(before, other, u)
    {
      assert ShutDown(before, other, w);
    }
    if at.failed {
      var stuck :| stuck in w.vms && stuck !in at.todo && w.vms[stuck].state != Discovered;
      assert stuck in u.vms && stuck !in now.todo && u.vms[stuck].state != Discovered;
    } else if now.failed {
      assert id in u.vms && id !in now.todo && u.vms[id].state != Discovered;
    }
  }

  lemma {:induction false} SweptHolds(before: World, w: World)
    requires Sweeping(before, w) && w.sweeps[0].todo == {}
    ensures var u := Finished(w);
            && Inv(u) && u.draining && u.returned && u.vms.Keys == before.vms.Keys && u.sweeps == map[]
            && (u.returnedOk <==> before.returnedOk || !w.sweeps[0].failed)
            && (forall id :: id in u.vms ==> !u.vms[id].Running() && ShutDown(before, id, u))
            && (w.sweeps[0].failed <==> exists id :: id in u.vms && u.vms[id].state != Discovered)
  {
    hide ShutdownOutcome;
    var u := Finished(w);
    forall id | id in u.vms
      ensures ShutDown(before, id, u)
    {
      assert ShutDown(before, id, w);
    }
  }

  lemma {:induction false} FailedShutdownShows(s: Slot, calm: bool, u: Slot, r: Option<ShutdownError>)
    requires ShutdownOutcome(s, calm, u, r)
    ensures r.Some? <==> u.state != Discovered
    ensures r.Some? ==> !calm
  {
  }

  function RunningVms(w: World): set<VmId> {
    set id | id in w.vms && w.vms[id].Running()
  }
}
