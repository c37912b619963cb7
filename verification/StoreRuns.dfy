/** The VM store and the manager's registry over whole runs: creations, failed creations,
    deletions, crashes at any point and reopenings, interleaved. */
module StoreRuns {
  import opened Optional
  import opened VmIds
  import opened Network
  import opened VmStore
  import VmHost
  import VmLifecycle
  import Manager

  /** `creation` holds the creation lock; `pending` are VMs whose directory is in place but
      which `create` has not registered yet; `deleting` are registered VMs whose deletion is
      already on disk. `issued` lists the ids of all finished creations so far. */
  datatype World = World(
    root: string, disk: Disk, up: bool, creation: Option<PartialVm>, pending: map<VmId, VmSpec>,
    registry: map<VmId, VmSpec>, deleting: set<VmId>, issued: seq<VmId>)

  ghost predicate Boot(w: World) {
    w == World(w.root, map[], false, None, map[], map[], {}, [])
  }

  // The steps.

  ghost predicate CreateBegin(w: World, p: PartialVm, u: World) {
    && w.up && w.creation.None? && IsCreating(p.tmp) && p.tmp !in w.disk && |Finished(w.disk)| <= LAST_ID
    && (exists input, memoryMib :: p.spec == SpecFor(w.root, |Finished(w.disk)|, input, memoryMib))
    && u == w.(disk := Cleared(w.disk)[p.tmp := Missing], creation := Some(p))
  }

  /** A creation failing at any point before the rename. */
  ghost predicate CreateFail(w: World, u: World) {
    w.up && Cleared(u.disk) == Cleared(w.disk) && u == w.(disk := u.disk, creation := None)
  }

  ghost predicate CreateFinish(w: World, u: World) {
    && w.up && w.creation.Some?
    && var p := w.creation.value;
       && Digits(p.spec.id) !in w.disk
       && u == w.(disk := (w.disk - {p.tmp})[Digits(p.spec.id) := Saved(PersistedVmSpec(CONFIG_VERSION, p.spec))],
                  creation := None, pending := w.pending[p.spec.id := p.spec], issued := w.issued + [p.spec.id])
  }

  ghost predicate Register(w: World, id: VmId, u: World) {
    w.up && id in w.pending && u == w.(pending := w.pending - {id}, registry := w.registry[id := w.pending[id]])
  }

  ghost predicate PersistDeletion(w: World, id: VmId, u: World) {
    && w.up && id in w.registry && id !in w.deleting
    && u == w.(disk := w.disk[Digits(id) := Saved(PersistedVmSpec(CONFIG_VERSION, w.registry[id].(deleted := true)))],
               deleting := w.deleting + {id})
  }

  ghost predicate Unregister(w: World, id: VmId, u: World) {
    w.up && id in w.deleting && u == w.(registry := w.registry - {id}, deleting := w.deleting - {id})
  }

  /** The process ends, or an attempt to reopen does; what was in memory is gone. */
  ghost predicate Crash(w: World, u: World) {
    && Cleared(u.disk) == Cleared(w.disk)
    && u == w.(disk := u.disk, up := false, creation := None, pending := map[], registry := map[], deleting := {})
  }

  ghost predicate Reopen(w: World, u: World) {
    && !w.up && Sound(w.root, w.disk)
    && u == w.(disk := Cleared(w.disk), up := true, registry := Registered(w.disk))
  }

  /** The VMs not deleted on disk. */
  ghost function Registered(disk: Disk): map<VmId, VmSpec> {
    map id: VmId | 0 <= id <= LAST_ID && OnDisk(disk, id) && !SpecOn(disk, id).deleted :: SpecOn(disk, id)
  }

  ghost predicate OnDisk(disk: Disk, id: VmId) {
    Digits(id) in disk && disk[Digits(id)].Saved?
  }

  ghost function SpecOn(disk: Disk, id: VmId): VmSpec
    requires OnDisk(disk, id)
  {
    disk[Digits(id)].persisted.spec
  }

  ghost predicate EntryStep(w: World, id: VmId, u: World) {
    Register(w, id, u) || PersistDeletion(w, id, u) || Unregister(w, id, u)
  }

  ghost predicate Step(w: World, u: World) {
    || (exists p :: CreateBegin(w, p, u))
    || CreateFail(w, u) || CreateFinish(w, u) || Crash(w, u) || Reopen(w, u)
    || (exists id :: EntryStep(w, id, u))
  }

  // What every step keeps.

  /** The finished directories are exactly those of the ids 0 to n - 1, and all load. */
  ghost predicate Dense(root: string, disk: Disk, n: nat) {
    && n <= LAST_ID + 1
    && (forall name :: name in disk && !IsCreating(name) ==> exists id: VmId :: id < n && name == Digits(id))
    && forall id: VmId :: id < n ==>
         OnDisk(disk, id) && Loads(root, disk, SpecOn(disk, id)) && SpecOn(disk, id).id == id
  }

  /** Memory and disk agree on which VMs there are. */
  ghost predicate Agrees(w: World, n: nat)
    requires Dense(w.root, w.disk, n)
  {
    && (forall id :: id in w.pending ==>
          id < n && id !in w.registry && w.pending[id] == SpecOn(w.disk, id) && !w.pending[id].deleted)
    && (forall id :: id in w.registry ==>
          && id < n && w.registry[id] == SpecOn(w.disk, id).(deleted := false)
          && (SpecOn(w.disk, id).deleted <==> id in w.deleting))
    && w.deleting <= w.registry.Keys
    && forall id: VmId :: id < n && !SpecOn(w.disk, id).deleted ==> id in w.pending || id in w.registry
  }

  ghost predicate Inv(w: World) {
    && Dense(w.root, w.disk, |w.issued|)
    && (forall i :: 0 <= i < |w.issued| ==> w.issued[i] == i)
    && (w.creation.Some? ==> w.up && Prepared(w.root, w.disk, w.creation.value, |w.issued|))
    && if w.up then Agrees(w, |w.issued|) else w.pending == w.registry == map[] && w.deleting == {}
  }

  ghost predicate Prepared(root: string, disk: Disk, p: PartialVm, n: nat) {
    && IsCreating(p.tmp) && p.tmp in disk && p.spec.id == n && !p.spec.deleted
    && Load(root, Digits(p.spec.id), Saved(PersistedVmSpec(CONFIG_VERSION, p.spec))) == Ok(p.spec)
  }

  lemma {:induction false} DenseCounts(root: string, disk: Disk, n: nat)
    requires Dense(root, disk, n)
    ensures |Finished(disk)| == n
  {
    NamesCount(n);
    forall id: VmId | id < n
      ensures Digits(id) in Finished(disk)
    {
      assert OnDisk(disk, id);
      DigitsFinish(id);
    }
    assert Finished(disk) == NamesBelow(n);
  }

  ghost function NamesBelow(n: nat): set<string>
    requires n <= LAST_ID + 1
  {
    set id: VmId | 0 <= id <= LAST_ID && id < n :: Digits(id)
  }

  lemma {:induction false} NamesCount(n: nat)
    requires n <= LAST_ID + 1
    ensures |NamesBelow(n)| == n
  {
    if n == 0 {
      assert NamesBelow(0) == {};
    } else {
      NamesCount(n - 1);
      var last: VmId := n - 1;
      forall id: VmId | id < last
        ensures Digits(id) != Digits(last)
      {
        DigitsOnce(id, last);
      }
      assert NamesBelow(n) == NamesBelow(n - 1) + {Digits(last)};
    }
  }

  lemma {:induction false} DigitsOnce(i: VmId, j: VmId)
    ensures Digits(i) == Digits(j) <==> i == j
  {
    if Digits(i) == Digits(j) {
      DigitsInjective(i, j);
    }
  }

  /** Nothing about the finished directories depends on creations. */
  lemma {:induction false} DenseCleared(root: string, before: Disk, after: Disk, n: nat)
    requires Dense(root, before, n) && Cleared(before) == Cleared(after)
    ensures Dense(root, after, n)
    ensures forall id: VmId :: id < n ==> SpecOn(after, id) == SpecOn(before, id)
  {
    forall name | !IsCreating(name)
      ensures name in before <==> name in after
      ensures name in before ==> before[name] == after[name]
    {
      assert name in Cleared(before) <==> name in Cleared(after);
    }
    forall id: VmId | id < n
      ensures OnDisk(after, id) && SpecOn(after, id) == SpecOn(before, id) && Loads(root, after, SpecOn(after, id))
    {
      assert OnDisk(before, id);
      DigitsFinish(id);
    }
  }

  /** What `create` prepares passes every check of a later load. */
  lemma {:induction false} PreparedLoads(root: string, id: VmId, input: VmInput, memoryMib: nat)
    ensures var spec := SpecFor(root, id, input, memoryMib);
            && Load(root, Digits(id), Saved(PersistedVmSpec(CONFIG_VERSION, spec))) == Ok(spec)
            && spec.id == id && !spec.deleted
  {
    LoadMeans(root, Digits(id), Saved(PersistedVmSpec(CONFIG_VERSION, SpecFor(root, id, input, memoryMib))));
  }

  lemma {:induction false} CreateBeginKeepsInv(w: World, p: PartialVm, u: World)
    requires Inv(w) && CreateBegin(w, p, u)
    ensures Inv(u)
  {
    hide Load, IsCreating, Digits, SpecFor, Cleared;
    DenseCounts(w.root, w.disk, |w.issued|);
    var input, memoryMib :| p.spec == SpecFor(w.root, |Finished(w.disk)|, input, memoryMib);
    PreparedLoads(w.root, |Finished(w.disk)|, input, memoryMib);
    ClearedAgain(w.disk, p.tmp);
    DenseCleared(w.root, w.disk, u.disk, |w.issued|);
  }

  lemma {:induction false} ClearedAgain(disk: Disk, tmp: string)
    ensures Cleared(Cleared(disk)) == Cleared(disk)
    ensures IsCreating(tmp) ==> Cleared(Cleared(disk)[tmp := Missing]) == Cleared(disk)
  {
  }

  lemma {:induction false} ClearingKeepsInv(w: World, u: World)
    requires Inv(w) && (CreateFail(w, u) || Crash(w, u))
    ensures Inv(u)
  {
    hide Load, IsCreating, Digits, Cleared;
    DenseCleared(w.root, w.disk, u.disk, |w.issued|);
  }

  lemma {:induction false} ReopenKeepsInv(w: World, u: World)
    requires Inv(w) && Reopen(w, u)
    ensures Inv(u)
  {
    hide Load, IsCreating, Digits, Cleared;
    ClearedAgain(w.disk, "");
    DenseCleared(w.root, w.disk, u.disk, |w.issued|);
    forall id: VmId
      ensures id in u.registry ==> id < |w.issued|
    {
      RegisteredBelow(w.root, w.disk, |w.issued|, id);
    }
  }

  lemma {:induction false} RegisteredBelow(root: string, disk: Disk, n: nat, id: VmId)
    requires Dense(root, disk, n)
    ensures id in Registered(disk) <==> id < n && !SpecOn(disk, id).deleted
    ensures Digits(id) in disk <==> id < n
  {
    DigitsFinish(id);
    if Digits(id) in disk {
      var i: VmId :| i < n && Digits(id) == Digits(i);
      DigitsInjective(id, i);
    }
  }

  /** Writing a directory that loads keeps the directories dense. */
  lemma {:induction false} DenseWrite(root: string, disk: Disk, n: nat, spec: VmSpec, m: nat)
    requires Dense(root, disk, n)
    requires Load(root, Digits(spec.id), Saved(PersistedVmSpec(CONFIG_VERSION, spec))) == Ok(spec)
    requires spec.id <= n && m == (if spec.id == n then n + 1 else n)
    ensures var after := disk[Digits(spec.id) := Saved(PersistedVmSpec(CONFIG_VERSION, spec))];
            && Dense(root, after, m)
            && forall id: VmId :: id < m ==> SpecOn(after, id) == if id == spec.id then spec else SpecOn(disk, id)
  {
    var after := disk[Digits(spec.id) := Saved(PersistedVmSpec(CONFIG_VERSION, spec))];
    forall id: VmId | id < m
      ensures OnDisk(after, id) && SpecOn(after, id) == (if id == spec.id then spec else SpecOn(disk, id))
      ensures Loads(root, after, SpecOn(after, id)) && SpecOn(after, id).id == id
    {
      DigitsOnce(id, spec.id);
      if id != spec.id {
        assert OnDisk(disk, id);
      }
    }
  }

  lemma {:induction false} CreateFinishKeepsInv(w: World, u: World)
    requires Inv(w) && CreateFinish(w, u)
    ensures Inv(u)
    ensures u.issued == w.issued + [|w.issued|]
  {
    hide Load, IsCreating, Digits, Cleared;
    var p := w.creation.value;
    ClearedWithout(w.disk, p.tmp);
    DenseCleared(w.root, w.disk, w.disk - {p.tmp}, |w.issued|);
    DenseWrite(w.root, w.disk - {p.tmp}, |w.issued|, p.spec, |w.issued| + 1);
  }

  lemma {:induction false} ClearedWithout(disk: Disk, tmp: string)
    requires IsCreating(tmp)
    ensures Cleared(disk - {tmp}) == Cleared(disk)
  {
  }

  /** The deleted flag is no part of what a load checks. */
  lemma {:induction false} DeletedLoads(root: string, spec: VmSpec)
    requires Load(root, Digits(spec.id), Saved(PersistedVmSpec(CONFIG_VERSION, spec))).Ok?
    ensures var gone := spec.(deleted := true);
            Load(root, Digits(gone.id), Saved(PersistedVmSpec(CONFIG_VERSION, gone))) == Ok(gone)
  {
  }

  lemma {:induction false} LoadedConfig(root: string, disk: Disk, spec: VmSpec)
    requires Loads(root, disk, spec)
    ensures disk[Digits(spec.id)] == Saved(PersistedVmSpec(CONFIG_VERSION, spec))
  {
  }

  lemma {:induction false} PersistKeepsInv(w: World, id: VmId, u: World)
    requires Inv(w) && PersistDeletion(w, id, u)
    ensures Inv(u)
  {
    hide Load, IsCreating, Digits, Cleared;
    var spec := SpecOn(w.disk, id);
    LoadedConfig(w.root, w.disk, spec);
    DeletedLoads(w.root, spec);
    DenseWrite(w.root, w.disk, |w.issued|, spec.(deleted := true), |w.issued|);
  }

  lemma {:induction false} RegistryKeepsInv(w: World, id: VmId, u: World)
    requires Inv(w) && (Register(w, id, u) || Unregister(w, id, u))
    ensures Inv(u)
  {
    hide Load, IsCreating, Digits, Cleared, Dense, OnDisk, SpecOn;
  }

  lemma {:induction false} EntryKeepsInv(w: World, id: VmId, u: World)
    requires Inv(w) && EntryStep(w, id, u)
    ensures Inv(u)
  {
    hide Inv;
    if PersistDeletion(w, id, u) {
      PersistKeepsInv(w, id, u);
    } else {
      RegistryKeepsInv(w, id, u);
    }
  }

  lemma {:induction false} StepKeepsInv(w: World, u: World)
    requires Inv(w) && Step(w, u)
    ensures Inv(u) && u.root == w.root
  {
    hide Inv;
    if p :| CreateBegin(w, p, u) {
      CreateBeginKeepsInv(w, p, u);
    } else if CreateFail(w, u) || Crash(w, u) {
      ClearingKeepsInv(w, u);
    } else if CreateFinish(w, u) {
      CreateFinishKeepsInv(w, u);
    } else if Reopen(w, u) {
      ReopenKeepsInv(w, u);
    } else {
      var id :| EntryStep(w, id, u);
      EntryKeepsInv(w, id, u);
    }
  }

  // Whole runs.

  ghost predicate Run(ws: seq<World>) {
    ws != [] && Boot(ws[0]) && forall i, j :: 0 <= i < |ws| - 1 && j == i + 1 ==> Step(ws[i], ws[j])
  }

  lemma {:induction false} RunKeepsInv(ws: seq<World>, i: nat)
    requires Run(ws) && i < |ws|
    ensures Inv(ws[i]) && ws[i].root == ws[0].root
  {
    if i == 0 {
      hide Load, IsCreating;
    } else {
      hide *;
      RunKeepsInv(ws, i - 1);
      RunSteps(ws, i - 1);
      StepKeepsInv(ws[i - 1], ws[i]);
    }
  }

  lemma {:induction false} RunSteps(ws: seq<World>, i: nat)
    requires Run(ws) && i + 1 < |ws|
    ensures Step(ws[i], ws[i + 1])
  {
  }

  ghost predicate IsIdBelow(name: string, n: nat) {
    exists id: VmId :: id < n && name == Digits(id)
  }

  lemma {:induction false} DenseNames(root: string, disk: Disk, n: nat, name: string)
    requires Dense(root, disk, n)
    ensures name in Finished(disk) <==> IsIdBelow(name, n)
  {
    hide Load, IsCreating, Digits;
    if id: VmId :| id < n && name == Digits(id) {
      assert OnDisk(disk, id);
      DigitsFinish(id);
    }
  }

  /** In every reachable state the finished directories are exactly those of the ids 0 to
      n - 1, where n counts the creations finished so far, and the ids were handed out in
      that order. */
  lemma {:induction false} IdsAreDense(ws: seq<World>, i: nat)
    requires Run(ws) && i < |ws|
    ensures forall name :: name in Finished(ws[i].disk) <==> IsIdBelow(name, |ws[i].issued|)
    ensures |Finished(ws[i].disk)| == |ws[i].issued| <= LAST_ID + 1
    ensures forall k :: 0 <= k < |ws[i].issued| ==> ws[i].issued[k] == k
  {
    RunKeepsInv(ws, i);
    hide Run, Load, IsCreating, Digits, Finished;
    var w := ws[i];
    DenseCounts(w.root, w.disk, |w.issued|);
    forall name
      ensures name in Finished(w.disk) <==> IsIdBelow(name, |w.issued|)
    {
      DenseNames(w.root, w.disk, |w.issued|, name);
    }
  }

  /** Every reachable store loads, and has run out of ids exactly when 16384 were issued. */
  lemma {:induction false} ReachableLoads(w: World)
    requires Inv(w)
    ensures Sound(w.root, w.disk)
    ensures |Finished(w.disk)| == |w.issued|
  {
    hide Load, IsCreating, Digits;
    DenseCounts(w.root, w.disk, |w.issued|);
    forall name | name in w.disk && !IsCreating(name)
      ensures Load(w.root, name, w.disk[name]).Ok?
    {
      var id: VmId :| id < |w.issued| && name == Digits(id);
      assert OnDisk(w.disk, id);
    }
  }

  /** What a step may do to a finished directory: delete its VM, nothing else. */
  lemma {:induction false} StepKeepsSpec(w: World, u: World, id: VmId)
    requires Inv(w) && Step(w, u) && id < |w.issued|
    ensures id < |u.issued| && w.issued <= u.issued && OnDisk(w.disk, id) && OnDisk(u.disk, id)
    ensures SpecOn(u.disk, id) == SpecOn(w.disk, id) || SpecOn(u.disk, id) == SpecOn(w.disk, id).(deleted := true)
  {
    assert OnDisk(w.disk, id);
    if e :| EntryStep(w, e, u) {
      hide Load, IsCreating, Digits, Cleared;
      EntryKeepsSpec(w, e, u, id);
    } else if CreateFinish(w, u) {
      FinishKeepsSpec(w, u, id);
    } else {
      hide Load, IsCreating, Digits;
      ClearedSpec(w, u, id);
    }
  }

  lemma {:induction false} EntryKeepsSpec(w: World, e: VmId, u: World, id: VmId)
    requires Inv(w) && EntryStep(w, e, u) && id < |w.issued|
    ensures u.issued == w.issued && OnDisk(w.disk, id) && OnDisk(u.disk, id)
    ensures SpecOn(u.disk, id) == SpecOn(w.disk, id) || SpecOn(u.disk, id) == SpecOn(w.disk, id).(deleted := true)
  {
  }

  lemma {:induction false} FinishKeepsSpec(w: World, u: World, id: VmId)
    requires Inv(w) && CreateFinish(w, u) && id < |w.issued|
    ensures OnDisk(w.disk, id) && OnDisk(u.disk, id) && SpecOn(u.disk, id) == SpecOn(w.disk, id)
  {
  }

  lemma {:induction false} ClearedSpec(w: World, u: World, id: VmId)
    requires Inv(w) && id < |w.issued|
    requires (exists p :: CreateBegin(w, p, u)) || CreateFail(w, u) || Crash(w, u) || Reopen(w, u)
    ensures u.issued == w.issued && OnDisk(w.disk, id) && OnDisk(u.disk, id) && SpecOn(u.disk, id) == SpecOn(w.disk, id)
  {
    if p :| CreateBegin(w, p, u) {
      ClearedAgain(w.disk, p.tmp);
    } else {
      ClearedAgain(w.disk, "");
    }
    hide Load, IsCreating, Digits, Cleared;
    DenseCleared(w.root, w.disk, u.disk, |w.issued|);
    assert OnDisk(w.disk, id);
  }

  lemma {:induction false} IssuedOnDisk(w: World, id: VmId)
    requires Inv(w) && id < |w.issued|
    ensures OnDisk(w.disk, id)
  {
  }

  /** An id, once issued, names the same VM for ever, and a deleted VM stays deleted. */
  lemma {:induction false} IdsAreNeverReassigned(ws: seq<World>, i: nat, j: nat, id: VmId)
    requires Run(ws) && i <= j < |ws| && id < |ws[i].issued|
    ensures ws[i].issued <= ws[j].issued && OnDisk(ws[i].disk, id) && OnDisk(ws[j].disk, id)
    ensures var was, now := SpecOn(ws[i].disk, id), SpecOn(ws[j].disk, id);
            now == was || now == was.(deleted := true)
  {
    hide *;
    RunKeepsInv(ws, i);
    IssuedOnDisk(ws[i], id);
    if i < j {
      IdsAreNeverReassigned(ws, i, j - 1, id);
      RunKeepsInv(ws, j - 1);
      RunSteps(ws, j - 1);
      StepKeepsSpec(ws[j - 1], ws[j], id);
    }
  }

  /** Every creation that finishes gets an id no creation before it got, larger than all of
      them. */
  lemma {:induction false} NewIdsAreFresh(ws: seq<World>, i: nat)
    requires Run(ws) && i + 1 < |ws| && CreateFinish(ws[i], ws[i + 1])
    ensures var id := ws[i].creation.value.spec.id;
            ws[i + 1].issued == ws[i].issued + [id] && forall earlier :: earlier in ws[i].issued ==> earlier < id
  {
    RunKeepsInv(ws, i);
    CreateFinishKeepsInv(ws[i], ws[i + 1]);
  }

  /** The manager `m` has the VMs of the registry, all Discovered with nothing on the host. */
  ghost predicate Opens(w: World, m: Manager.World) {
    && Manager.Opened(m) && m.nextId == |w.issued| && m.vms.Keys == w.registry.Keys
    && forall id :: id in m.vms ==> m.vms[id] == VmLifecycle.Slot(VmLifecycle.Discovered, VmHost.CLEAN)
  }

  /** Reopening after a stop, with no creation between its rename and its registration and
      no deletion between its write and its removal, registers the VMs that were registered
      before, as they were and all Discovered, and the ids go on where they stopped. */
  lemma {:induction false} ReopenRestores(ws: seq<World>, i: nat, crashed: World, u: World, m: Manager.World)
    requires Run(ws) && i < |ws| && ws[i].up && ws[i].pending == map[] && ws[i].deleting == {}
    requires Crash(ws[i], crashed) && Reopen(crashed, u) && Opens(u, m)
    ensures u.registry == ws[i].registry
    ensures Manager.Opened(m) && m.nextId == |ws[i].issued|
    ensures m.vms == map id | id in ws[i].registry :: VmLifecycle.Slot(VmLifecycle.Discovered, VmHost.CLEAN)
  {
    hide Load, IsCreating, Digits, Cleared;
    var w := ws[i];
    RunKeepsInv(ws, i);
    hide Run, Step;
    DenseCleared(w.root, w.disk, crashed.disk, |w.issued|);
    forall id: VmId
      ensures id in u.registry <==> id in w.registry
      ensures id in w.registry ==> u.registry[id] == w.registry[id]
    {
      RegisteredBelow(w.root, crashed.disk, |w.issued|, id);
    }
  }

  // The calls themselves.

  lemma {:induction false} NextIsFree(w: World)
    requires Inv(w) && w.creation.Some?
    ensures var p := w.creation.value;
            w.up && IsCreating(p.tmp) && p.tmp in w.disk && Digits(p.spec.id) !in w.disk && p.spec.id == |w.issued|
  {
    RegisteredBelow(w.root, w.disk, |w.issued|, w.creation.value.spec.id);
  }

  lemma {:induction false} RegisteredOnDisk(w: World, id: VmId)
    requires Inv(w) && w.up && id in w.registry
    ensures w.registry[id].id == id && w.registry[id].artifactDir == Join(w.root, Digits(id)) && Digits(id) in w.disk
  {
    assert OnDisk(w.disk, id);
  }

  lemma {:induction false} NothingInMemory(w: World)
    requires Inv(w) && !w.up
    ensures w.creation.None? && w.pending == w.registry == map[] && w.deleting == {}
  {
  }

  lemma {:induction false} CrashIs(w: World, u: World)
    requires !w.up && w.creation.None? && w.pending == w.registry == map[] && w.deleting == {}
    requires Cleared(u.disk) == Cleared(w.disk) && u == w.(disk := u.disk)
    ensures Crash(w, u)
  {
  }

  lemma {:induction false} ReopenIs(w: World, u: World)
    requires !w.up && Sound(w.root, w.disk)
    requires u == w.(disk := Cleared(w.disk), up := true, registry := Registered(w.disk))
    ensures Reopen(w, u)
  {
  }

  /** The first `n` specifications without the deleted ones. */
  function Taken(specs: seq<VmSpec>, n: nat): map<VmId, VmSpec>
    requires n <= |specs|
  {
    if n == 0 then map[]
    else if specs[n - 1].deleted then Taken(specs, n - 1)
    else Taken(specs, n - 1)[specs[n - 1].id := specs[n - 1]]
  }

  lemma {:induction false} NoneTaken(specs: seq<VmSpec>)
    ensures Taken(specs, 0) == map[]
  {
  }

  lemma {:induction false} TakenNext(specs: seq<VmSpec>, i: nat)
    requires i < |specs|
    ensures Taken(specs, i + 1) ==
              if specs[i].deleted then Taken(specs, i) else Taken(specs, i)[specs[i].id := specs[i]]
  {
  }

  lemma {:induction false} TakenAre(specs: seq<VmSpec>, n: nat)
    requires n <= |specs| && forall i, j :: 0 <= i < j < |specs| ==> specs[i].id != specs[j].id
    ensures forall id :: id in Taken(specs, n) <==> exists i :: 0 <= i < n && specs[i].id == id && !specs[i].deleted
    ensures forall i :: 0 <= i < n && !specs[i].deleted ==> Taken(specs, n)[specs[i].id] == specs[i]
  {
    if n > 0 {
      TakenAre(specs, n - 1);
    }
  }

  lemma {:induction false} TakenAll(w: World, specs: seq<VmSpec>)
    requires Lists(w.root, Cleared(w.disk), specs)
    ensures Taken(specs, |specs|) == Registered(w.disk)
  {
    hide Load, IsCreating, Digits, Taken, Cleared, Loads;
    TakenAre(specs, |specs|);
    forall i | 0 <= i < |specs|
      ensures OnDisk(w.disk, specs[i].id) && SpecOn(w.disk, specs[i].id) == specs[i]
    {
      ListedOnDisk(w, specs[i]);
    }
    forall id: VmId | OnDisk(w.disk, id)
      ensures exists i :: 0 <= i < |specs| && specs[i].id == id
    {
      OnDiskListed(w, specs, id);
    }
    assert Taken(specs, |specs|).Keys == Registered(w.disk).Keys;
  }

  lemma {:induction false} ListedOnDisk(w: World, spec: VmSpec)
    requires Loads(w.root, Cleared(w.disk), spec)
    ensures OnDisk(w.disk, spec.id) && SpecOn(w.disk, spec.id) == spec
  {
  }

  lemma {:induction false} OnDiskListed(w: World, specs: seq<VmSpec>, id: VmId)
    requires Lists(w.root, Cleared(w.disk), specs) && OnDisk(w.disk, id)
    ensures exists i :: 0 <= i < |specs| && specs[i].id == id
  {
    hide Load, IsCreating, Digits, Loads;
    DigitsFinish(id);
    assert Digits(id) in Cleared(w.disk);
    var i :| 0 <= i < |specs| && Digits(id) == Digits(specs[i].id);
    DigitsOnce(id, specs[i].id);
  }

  /** The store behind the manager; each method takes one or two of the steps above. */
  class Service {
    var w: World
    ghost var faults: nat

    constructor (root: string)
      ensures Boot(w.(up := false)) && w.root == root && w.up && faults == 0
    {
      w := World(root, map[], true, None, map[], map[], {}, []);
      faults := 0;
    }

    /** `create` up to the artifacts. Ids are reported exhausted only when none is left, and
        then whenever no host call fails before it shows. */
    method BeginCreate(input: VmInput, memoryMib: nat, tmp: string) returns (r: Result<PartialVm>)
      requires Inv(w) && w.up && w.creation.None? && IsCreating(tmp) && tmp !in w.disk
      modifies this
      ensures r.Ok? ==> CreateBegin(old(w), r.value, w)
      ensures r.Err? ==> CreateFail(old(w), w)
      ensures |old(w).issued| > LAST_ID ==> r.Err?
      ensures old(faults) <= faults
      ensures r.Ok? <==> faults == old(faults) && |old(w).issued| <= LAST_ID
      ensures r == Err(IdsExhausted) ==> |old(w).issued| > LAST_ID
      ensures faults == old(faults) && |old(w).issued| > LAST_ID ==> r == Err(IdsExhausted)
    {
      hide Inv, Sound, Cleared, SpecFor, Digits, Load;
      ReachableLoads(w);
      var store := new Store(w.root, w.disk);
      r := store.Create(input, memoryMib, tmp);
      faults := faults + store.faults;
      w := w.(disk := store.disk, creation := if r.Ok? then Some(r.value) else None);
    }

    /** Provisioning and `finish`. */
    method FinishCreate(provisioned: bool) returns (r: Result<VmSpec>)
      requires Inv(w) && w.creation.Some?
      modifies this
      ensures r.Ok? ==> CreateFinish(old(w), w) && r.value == old(w).creation.value.spec && r.value.id in w.pending
      ensures r.Err? ==> CreateFail(old(w), w)
      ensures old(faults) <= faults && (r.Ok? ==> faults == old(faults) && provisioned)
      ensures provisioned && faults == old(faults) ==> r.Ok?
    {
      hide Load, Digits, Cleared;
      var partial := w.creation.value;
      NextIsFree(w);
      var store := new Store(w.root, w.disk);
      if provisioned {
        r := store.Finish(partial);
      } else {
        store.Abandon(partial);
        r := Err(Io);
      }
      faults := faults + store.faults;
      w := w.(disk := store.disk, creation := None);
      if r.Ok? {
        w := w.(pending := w.pending[partial.spec.id := partial.spec], issued := w.issued + [partial.spec.id]);
      }
    }

    method RegisterVm(id: VmId)
      requires w.up && id in w.pending
      modifies this
      ensures Register(old(w), id, w)
    {
      w := w.(pending := w.pending - {id}, registry := w.registry[id := w.pending[id]]);
    }

    /** The end of `delete`: the VM leaves the registry only when its deletion is on disk. */
    method DeleteVm(id: VmId) returns (ok: bool)
      requires Inv(w) && w.up && id in w.registry && id !in w.deleting
      modifies this
      ensures if ok then exists mid :: PersistDeletion(old(w), id, mid) && Unregister(mid, id, w) else w == old(w)
      ensures old(faults) <= faults && (ok <==> faults == old(faults))
    {
      hide Load, Digits, Cleared;
      ghost var before := w;
      RegisteredOnDisk(w, id);
      var store := new Store(w.root, w.disk);
      var r := store.Delete(w.registry[id]);
      faults := faults + store.faults;
      if r.Err? {
        return false;
      }
      w := w.(disk := store.disk, deleting := w.deleting + {id});
      assert PersistDeletion(before, id, w);
      w := w.(registry := w.registry - {id}, deleting := w.deleting - {id});
      return true;
    }

    /** `Barbirolli::new`: loads every VM and reconciles those not deleted, over what the
        last manager left of each on the host. */
    method ReopenStore(left: map<VmId, VmHost.HostState>) returns (m: Option<Manager.World>)
      requires Inv(w) && !w.up && forall id :: id in left ==> left[id].procs <= 1
      modifies this
      ensures if m.Some? then Reopen(old(w), w) && Opens(w, m.value) else Crash(old(w), w)
      ensures old(faults) <= faults && (faults == old(faults) ==> m.Some?)
    {
      hide *;
      ghost var before := w;
      ReachableLoads(w);
      NothingInMemory(w);
      var store := new Store(w.root, w.disk);
      var specs := store.All();
      faults := faults + store.faults;
      SweptKeys(before.disk, store.disk);
      if specs.Err? {
        w := w.(disk := store.disk);
        CrashIs(before, w);
        return None;
      }
      var registry: map<VmId, VmSpec> := map[];
      var vms: map<VmId, VmLifecycle.Slot> := map[];
      var ok := true;
      NoneTaken(specs.value);
      NoneDiscovered();
      for i := 0 to |specs.value|
        invariant w == before && store.disk == Cleared(before.disk)
        invariant registry == Taken(specs.value, i) || !ok
        invariant vms.Keys == registry.Keys && AllDiscovered(vms)
        invariant old(faults) <= faults && (faults == old(faults) ==> ok)
      {
        TakenNext(specs.value, i);
        var spec := specs.value[i];
        if !spec.deleted {
          var slot, upsets := ReconcileVm(if spec.id in left then left[spec.id] else VmHost.CLEAN);
          faults := faults + upsets;
          if slot.Some? {
            registry := registry[spec.id := spec];
            DiscoveredMore(vms, spec.id, slot.value);
            vms := vms[spec.id := slot.value];
          } else {
            ok := false;
          }
        }
      }
      w := w.(disk := store.disk);
      if !ok {
        ClearedAgain(before.disk, "");
        CrashIs(before, w);
        return None;
      }
      TakenAll(before, specs.value);
      w := w.(up := true, registry := registry);
      ReopenIs(before, w);
      OpensIs(before, w, vms);
      var issued := |w.issued|;
      return Some(Manager.World(false, vms, {}, 0, issued, map[], false, false));
    }
  }

  /** One turn of the reconcile loop: the VM is registered as Discovered or not at all. */
  method ReconcileVm(left: VmHost.HostState) returns (slot: Option<VmLifecycle.Slot>, ghost upsets: nat)
    requires left.procs <= 1
    ensures slot.Some? ==> slot.value == VmLifecycle.Slot(VmLifecycle.Discovered, VmHost.CLEAN)
    ensures upsets == 0 ==> slot.Some?
  {
    var host := new VmHost.Host(left);
    var failure, _ := VmLifecycle.Reconcile(host);
    upsets := host.upsets;
    slot := if failure.Some? then None else Some(VmLifecycle.Slot(VmLifecycle.Discovered, host.held));
  }

  ghost predicate AllDiscovered(vms: map<VmId, VmLifecycle.Slot>) {
    forall id :: id in vms ==> vms[id] == VmLifecycle.Slot(VmLifecycle.Discovered, VmHost.CLEAN)
  }

  lemma {:induction false} NoneDiscovered()
    ensures AllDiscovered(map[]) && VmHost.CLEAN.procs == 0
  {
  }

  lemma {:induction false} DiscoveredMore(vms: map<VmId, VmLifecycle.Slot>, id: VmId, slot: VmLifecycle.Slot)
    requires AllDiscovered(vms) && slot == VmLifecycle.Slot(VmLifecycle.Discovered, VmHost.CLEAN)
    ensures AllDiscovered(vms[id := slot])
  {
  }

  /** The registry of a reopened store, reconciled, is what a manager is opened with. */
  lemma {:induction false} OpensIs(w: World, u: World, vms: map<VmId, VmLifecycle.Slot>)
    requires Inv(w) && Reopen(w, u) && vms.Keys == u.registry.Keys && AllDiscovered(vms)
    ensures Opens(u, Manager.World(false, vms, {}, 0, |u.issued|, map[], false, false))
  {
    ReopenKeepsInv(w, u);
    hide Dense, Load, Digits, IsCreating, Cleared;
  }
}
