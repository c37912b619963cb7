/** The VM store: one directory per VM named by its id, each with a `config.json`, and
    temporary directories of creations that did not finish. */
module VmStore {
  import opened Optional
  import opened VmIds
  import opened Network

  const CONFIG_VERSION: u16 := 4

  datatype VmInput = VmInput(vcpuCount: nat, bindings: seq<PortBinding>)

  datatype VmSpec = VmSpec(
    id: VmId, deleted: bool, artifactDir: string, kernel: string, rootfs: string, vcpuCount: nat,
    apiSocket: string, memoryMib: nat, bindings: seq<PortBinding>, network: NetworkSpec)

  datatype PersistedVmSpec = PersistedVmSpec(version: u16, spec: VmSpec)

  /** What reading and parsing a directory's `config.json` gives. */
  datatype Config = Missing | Garbage | Saved(persisted: PersistedVmSpec)

  datatype StorageError = InvalidInput | IdsExhausted | Io | InvalidConfig

  datatype Result<+T> = Ok(value: T) | Err(error: StorageError)

  /** The directories of the VM root by name. */
  type Disk = map<string, Config>

  const CREATING: string := ".creating-"

  predicate IsCreating(name: string) {
    CREATING <= name
  }

  lemma {:induction false} CreatingMeans(name: string)
    ensures IsCreating(name) <==> |name| >= 10 && name[..10] == ".creating-"
  {
  }

  ghost function Finished(disk: Disk): set<string> {
    set name | name in disk && !IsCreating(name)
  }

  /** The disk without what unfinished creations left. */
  ghost function Cleared(disk: Disk): Disk {
    map name | name in disk && !IsCreating(name) :: disk[name]
  }

  function Join(dir: string, name: string): string {
    dir + "/" + name
  }

  /** The specification `create` prepares for a new VM. */
  function SpecFor(root: string, id: VmId, input: VmInput, memoryMib: nat): VmSpec {
    var dir := Join(root, Digits(id));
    VmSpec(id, false, dir, Join(dir, "vmlinux"), Join(dir, "rootfs.ext4"), input.vcpuCount,
           Join(dir, "firecracker.socket"), memoryMib, input.bindings, Spec(id))
  }

  /** The checks a directory must pass to be loaded (`VmRootFolderItem::new` and the ones
      before it in `next_item`). */
  function Load(root: string, name: string, config: Config): Result<VmSpec> {
    match config
    case Missing => Err(Io)
    case Garbage => Err(InvalidConfig)
    case Saved(persisted) =>
      var dir, spec := Join(root, name), persisted.spec;
      if persisted.version != CONFIG_VERSION then Err(InvalidConfig)
      else if name != Digits(spec.id) then Err(InvalidConfig)
      else if spec.artifactDir != dir then Err(InvalidConfig)
      else if spec.kernel != Join(dir, "vmlinux") || spec.rootfs != Join(dir, "rootfs.ext4") then Err(InvalidConfig)
      else if spec.apiSocket != Join(dir, "firecracker.socket") then Err(InvalidConfig)
      else if NewSpec(spec.id) != Some(spec.network) then Err(InvalidConfig)
      else Ok(spec)
  }

  /** A directory loads exactly when its config is what `create` would have written for the
      id in its name, deleted or not. */
  lemma {:induction false} LoadMeans(root: string, name: string, config: Config)
    ensures Load(root, name, config).Ok? <==>
              && config.Saved? && config.persisted.version == 4
              && var spec := config.persisted.spec;
              && name == Digits(spec.id)
              && var input := VmInput(spec.vcpuCount, spec.bindings);
              spec == SpecFor(root, spec.id, input, spec.memoryMib).(deleted := spec.deleted)
    ensures Load(root, name, config).Ok? ==> Load(root, name, config).value == config.persisted.spec
    ensures Load(root, name, config).Err? ==>
              Load(root, name, config).error == if config.Missing? then Io else InvalidConfig
  {
    if config.Saved? {
      NameIsValid(config.persisted.spec.id);
    }
  }

  /** What a new VM's specification says, and that it shares no path with another VM's. */
  lemma {:induction false} SpecIsItsOwn(root: string, id: VmId, input: VmInput, memoryMib: nat)
    ensures var spec, dir := SpecFor(root, id, input, memoryMib), root + "/" + Digits(id);
            && spec.id == id && !spec.deleted && spec.network == Spec(id) && spec.memoryMib == memoryMib
            && spec.vcpuCount == input.vcpuCount && spec.bindings == input.bindings
            && spec.artifactDir == dir && spec.kernel == dir + "/vmlinux" && spec.rootfs == dir + "/rootfs.ext4"
            && spec.apiSocket == dir + "/firecracker.socket"
    ensures forall other: VmId :: other != id ==> root + "/" + Digits(other) != root + "/" + Digits(id)
  {
    var dir := root + "/" + Digits(id);
    assert Join(root, Digits(id)) == dir && Join(dir, "vmlinux") == dir + "/vmlinux";
    assert Join(dir, "rootfs.ext4") == dir + "/rootfs.ext4";
    assert Join(dir, "firecracker.socket") == dir + "/firecracker.socket";
    forall other: VmId | root + "/" + Digits(other) == dir
      ensures other == id
    {
      assert dir[|root| + 1..] == Digits(id) && (root + "/" + Digits(other))[|root| + 1..] == Digits(other);
      DigitsInjective(other, id);
    }
  }

  /** Every finished directory loads. */
  ghost predicate Sound(root: string, disk: Disk) {
    forall name :: name in disk && !IsCreating(name) ==> Load(root, name, disk[name]).Ok?
  }

  /** A creation holding the lock: its id, its temporary directory and the specification it
      will persist. */
  datatype PartialVm = PartialVm(tmp: string, spec: VmSpec)

  /** What may be left of the entries after some of the listed creations were removed. */
  ghost predicate Swept(before: Disk, after: Disk) {
    && after.Keys <= before.Keys && Cleared(after) == Cleared(before)
    && forall name :: name in after ==> after[name] == before[name]
  }

  /** `faults` counts the host calls that failed. */
  class Store {
    const root: string
    var disk: Disk
    ghost var faults: nat

    constructor (root: string, disk: Disk)
      ensures this.root == root && this.disk == disk && faults == 0
    {
      this.root := root;
      this.disk := disk;
      faults := 0;
    }

    method HostCall() returns (ok: bool)
      modifies this`faults
      ensures faults == if ok then old(faults) else old(faults) + 1
    {
      ok := *;
      faults := if ok then faults else faults + 1;
    }

    /** `read_dir`: every entry once, in any order. */
    method List() returns (paths: seq<string>)
      ensures multiset(paths) == multiset(disk.Keys)
    {
      paths := [];
      var todo := disk.Keys;
      while todo != {}
        invariant todo <= disk.Keys && multiset(paths) == multiset(disk.Keys - todo)
      {
        var name :| name in todo;
        assert disk.Keys - (todo - {name}) == disk.Keys - todo + {name};
        paths, todo := paths + [name], todo - {name};
      }
      assert disk.Keys - todo == disk.Keys;
    }

    /** `next_item`: removes stale creations on its way to the next VM. */
    method NextItem(paths: seq<string>) returns (rest: seq<string>, item: Result<Option<VmSpec>>)
      requires forall name :: name in FinishedIn(paths) ==> name in disk
      modifies this
      ensures Swept(old(disk), disk) && (item.Ok? ==> Consumed(disk, paths, rest))
      ensures item == Ok(None) ==> FinishedIn(paths) == [] && rest == []
      ensures item.Ok? && item.value.Some? ==>
                var name := Digits(item.value.value.id);
                && |rest| < |paths| && FinishedIn(paths) == [name] + FinishedIn(rest)
                && name in disk && Load(root, name, disk[name]) == Ok(item.value.value)
      ensures old(faults) <= faults && (item.Ok? ==> faults == old(faults))
      ensures item.Err? ==>
                || (faults > old(faults) && item.error == Io)
                || (item.error in {Io, InvalidConfig} && !Sound(root, disk))
    {
      rest := paths;
      while rest != []
        invariant faults == old(faults)
        invariant Swept(old(disk), disk) && Consumed(disk, paths, rest) && FinishedIn(rest) == FinishedIn(paths)
        decreases |rest|
      {
        var name := rest[0];
        rest := rest[1..];
        var ok := HostCall();
        if IsCreating(name) {
          if !ok {
            return rest, Err(Io);
          }
          disk := disk - {name};
        } else {
          assert name in FinishedIn(paths);
          assert name in Cleared(old(disk)) && name in Cleared(disk);
          if !ok {
            return rest, Err(Io);
          }
          var loaded := Load(root, name, disk[name]);
          match loaded {
            case Ok(spec) =>
              LoadMeans(root, name, disk[name]);
              return rest, Ok(Some(spec));
            case Err(error) => return rest, Err(error);
          }
        }
      }
      return rest, Ok(None);
    }

    /** `next_id`: counts the finished directories, in u16. */
    method NextId() returns (r: Result<VmId>)
      modifies this
      ensures Swept(old(disk), disk)
      ensures r.Ok? ==> disk == Cleared(old(disk)) && Sound(root, old(disk)) && r.value == |Finished(old(disk))|
      ensures |Finished(old(disk))| > LAST_ID ==> r.Err?
      ensures old(faults) <= faults && (r.Ok? ==> faults == old(faults))
      ensures r == Err(IdsExhausted) ==> |Finished(old(disk))| > LAST_ID
      ensures r.Err? && r.error != IdsExhausted ==>
                r.error in {Io, InvalidConfig} && (faults > old(faults) || !Sound(root, old(disk)))
    {
      hide *;
      ghost var before := disk;
      var paths := List();
      ScanStarts(root, disk, paths);
      ghost var all := paths;
      ghost var specs := [];
      var len: nat := 0;
      while true
        invariant Scanning(root, before, disk, all, paths, specs) && len == |specs| && faults == old(faults)
        decreases |paths|
      {
        ghost var at, todo := disk, paths;
        ScanListed(root, before, disk, all, paths, specs);
        var item;
        paths, item := NextItem(paths);
        ScanBreaks(root, before, at, disk, all, todo, specs);
        if item.Err? {
          return Err(item.error);
        }
        if item.value.None? {
          ScanEnds(root, before, at, disk, all, todo, specs);
          break;
        }
        ScanGoesOn(root, before, at, disk, all, todo, paths, specs, item.value.value);
        specs := specs + [item.value.value];
        if len + 1 > 0xffff {
          ScanCounts(root, before, disk, all, paths, specs);
          return Err(IdsExhausted);
        }
        len := len + 1;
      }
      if len <= LAST_ID {
        return Ok(len);
      }
      return Err(IdsExhausted);
    }

    /** `all`. */
    method All() returns (r: Result<seq<VmSpec>>)
      modifies this
      ensures Swept(old(disk), disk)
      ensures r.Ok? ==> disk == Cleared(old(disk)) && Sound(root, old(disk)) && Lists(root, disk, r.value)
      ensures old(faults) <= faults && (r.Ok? ==> faults == old(faults))
      ensures r.Err? ==> faults > old(faults) || !Sound(root, old(disk))
    {
      hide *;
      ghost var before := disk;
      var paths := List();
      ScanStarts(root, disk, paths);
      ghost var all := paths;
      var specs := [];
      while true
        invariant Scanning(root, before, disk, all, paths, specs) && faults == old(faults)
        decreases |paths|
      {
        ghost var at, todo := disk, paths;
        ScanListed(root, before, disk, all, paths, specs);
        var item;
        paths, item := NextItem(paths);
        ScanBreaks(root, before, at, disk, all, todo, specs);
        if item.Err? {
          return Err(item.error);
        }
        if item.value.None? {
          ScanEnds(root, before, at, disk, all, todo, specs);
          return Ok(specs);
        }
        ScanGoesOn(root, before, at, disk, all, todo, paths, specs, item.value.value);
        specs := specs + [item.value.value];
      }
    }

    /** `create`, with the lock held throughout: `tmp` is the name the temporary directory
        gets. When a copy fails, dropping the directory may fail too. */
    method Create(input: VmInput, memoryMib: nat, tmp: string) returns (r: Result<PartialVm>)
      requires IsCreating(tmp) && tmp !in disk
      modifies this
      ensures r.Ok? ==>
                && |Finished(old(disk))| <= LAST_ID && Sound(root, old(disk))
                && disk == Cleared(old(disk))[tmp := Missing]
                && r.value == PartialVm(tmp, SpecFor(root, |Finished(old(disk))|, input, memoryMib))
      ensures r.Err? ==> Cleared(disk) == Cleared(old(disk)) && disk.Keys <= old(disk).Keys + {tmp}
      ensures r.Err? && tmp in disk ==> faults > old(faults) + 1
      ensures old(faults) <= faults && (r.Ok? ==> faults == old(faults))
      ensures r == Err(IdsExhausted) ==> |Finished(old(disk))| > LAST_ID
      ensures |Finished(old(disk))| > LAST_ID ==> r.Err?
      ensures r.Err? && r.error != IdsExhausted ==> faults > old(faults) || !Sound(root, old(disk))
    {
      hide *;
      var next := NextId();
      SweptKeys(old(disk), disk);
      if next.Err? {
        return Err(next.error);
      }
      var id := next.value;
      var ok := HostCall();
      if !ok {
        return Err(Io);
      }
      disk := disk[tmp := Missing];
      CreationComesAndGoes(old(disk), tmp, disk);
      ok := HostCall();
      if !ok {
        var removed := HostCall();
        if removed {
          disk := disk - {tmp};
        }
        return Err(Io);
      }
      var network := NewSpec(id);
      NameIsValid(id);
      if network.None? {
        return Err(InvalidInput);
      }
      r := Ok(PartialVm(tmp, SpecFor(root, id, input, memoryMib)));
    }

    /** `finish`: the config goes into the temporary directory, which is then renamed. The
        rename fails when the name is taken, and dropping the directory may fail. */
    method Finish(p: PartialVm) returns (r: Result<VmSpec>)
      requires IsCreating(p.tmp) && p.tmp in disk
      modifies this
      ensures r.Ok? ==>
                && r.value == p.spec && Digits(p.spec.id) !in old(disk)
                && disk == (old(disk) - {p.tmp})[Digits(p.spec.id) := Saved(PersistedVmSpec(CONFIG_VERSION, p.spec))]
      ensures r.Err? ==> Cleared(disk) == Cleared(old(disk)) && disk.Keys <= old(disk).Keys
      ensures old(faults) <= faults
      ensures r.Ok? <==> faults == old(faults) && Digits(p.spec.id) !in old(disk)
      ensures r.Err? ==> r.error == Io && (p.tmp in disk ==> faults > old(faults))
    {
      hide Digits;
      var config := Saved(PersistedVmSpec(CONFIG_VERSION, p.spec));
      var target := Digits(p.spec.id);
      DigitsFinish(p.spec.id);
      var ok := HostCall();
      if ok {
        disk := disk[p.tmp := config];
        if target !in disk {
          ok := HostCall();
          if ok {
            disk := (disk - {p.tmp})[target := config];
            assert disk == (old(disk) - {p.tmp})[target := config];
            return Ok(p.spec);
          }
        }
      }
      Abandon(p);
      return Err(Io);
    }

    /** A creation dropped unfinished: removing its directory may fail. */
    method Abandon(p: PartialVm)
      requires IsCreating(p.tmp)
      modifies this
      ensures disk == old(disk) || disk == old(disk) - {p.tmp}
      ensures Cleared(disk) == Cleared(old(disk))
      ensures old(faults) <= faults && (disk == old(disk) - {p.tmp} || faults > old(faults))
    {
      var ok := HostCall();
      if ok {
        disk := disk - {p.tmp};
      }
    }

    /** `delete`: rewrites the config; the write is taken to be atomic. */
    method Delete(spec: VmSpec) returns (r: Result<()>)
      requires spec.artifactDir == Join(root, Digits(spec.id)) && Digits(spec.id) in disk
      modifies this
      ensures r.Ok? ==>
                disk == old(disk)[Digits(spec.id) := Saved(PersistedVmSpec(CONFIG_VERSION, spec.(deleted := true)))]
      ensures old(faults) <= faults && (r.Ok? <==> faults == old(faults))
      ensures r.Err? ==> disk == old(disk)
    {
      var ok := HostCall();
      if !ok {
        return Err(Io);
      }
      disk := disk[Digits(spec.id) := Saved(PersistedVmSpec(CONFIG_VERSION, spec.(deleted := true)))];
      return Ok(());
    }
  }

  lemma {:induction false} SweptKeys(before: Disk, after: Disk)
    requires Swept(before, after)
    ensures after.Keys <= before.Keys && Cleared(after) == Cleared(before)
  {
  }

  lemma {:induction false} CreationComesAndGoes(before: Disk, tmp: string, disk: Disk)
    requires IsCreating(tmp) && disk == Cleared(before)[tmp := Missing]
    ensures disk.Keys <= before.Keys + {tmp} && Cleared(disk) == Cleared(before) == Cleared(disk - {tmp})
  {
  }

  /** The listed names that are not of creations, in order. */
  function FinishedIn(paths: seq<string>): seq<string> {
    if paths == [] then []
    else if IsCreating(paths[0]) then FinishedIn(paths[1..])
    else [paths[0]] + FinishedIn(paths[1..])
  }

  /** `rest` is what is left of the listing, and no creation listed before it is left. */
  ghost predicate Consumed(disk: Disk, paths: seq<string>, rest: seq<string>) {
    && |rest| <= |paths| && rest == paths[|paths| - |rest|..]
    && forall i :: 0 <= i < |paths| - |rest| && IsCreating(paths[i]) ==> paths[i] !in disk
  }

  /** The specifications are those of the disk's directories, one each. */
  ghost predicate Lists(root: string, disk: Disk, specs: seq<VmSpec>) {
    && (forall i :: 0 <= i < |specs| ==> Loads(root, disk, specs[i]))
    && (forall i, j :: 0 <= i < j < |specs| ==> specs[i].id != specs[j].id)
    && forall name :: name in disk ==> exists i :: 0 <= i < |specs| && name == Digits(specs[i].id)
  }

  ghost predicate Loads(root: string, disk: Disk, spec: VmSpec) {
    Digits(spec.id) in disk && Load(root, Digits(spec.id), disk[Digits(spec.id)]) == Ok(spec)
  }

  // Scanning the VM root.

  function Names(specs: seq<VmSpec>): seq<string> {
    seq(|specs|, i requires 0 <= i < |specs| => Digits(specs[i].id))
  }

  /** The scan of listing `all` has loaded `specs` and has `paths` to go. */
  ghost predicate Scanning(
    root: string, before: Disk, disk: Disk, all: seq<string>, paths: seq<string>, specs: seq<VmSpec>)
  {
    && multiset(all) == multiset(before.Keys)
    && Swept(before, disk) && Consumed(disk, all, paths)
    && FinishedIn(all) == Names(specs) + FinishedIn(paths)
    && forall i :: 0 <= i < |specs| ==> Loads(root, disk, specs[i])
  }

  lemma {:induction false} FinishedInIs(paths: seq<string>)
    ensures forall name :: multiset(FinishedIn(paths))[name] == if IsCreating(name) then 0 else multiset(paths)[name]
    ensures forall name :: name in FinishedIn(paths) <==> name in paths && !IsCreating(name)
  {
    if paths != [] {
      FinishedInIs(paths[1..]);
      assert paths == [paths[0]] + paths[1..];
    }
  }

  lemma {:induction false} NoRepeats(s: seq<string>, of: set<string>)
    requires forall x :: x in s <==> x in of
    requires forall x :: multiset(s)[x] <= 1
    ensures |s| == |of|
    ensures forall i, j :: 0 <= i < j < |s| ==> s[i] != s[j]
  {
    if s == [] {
      assert of == {};
    } else {
      assert s == [s[0]] + s[1..];
      assert multiset(s)[s[0]] == 1 + multiset(s[1..])[s[0]];
      forall x
        ensures multiset(s[1..])[x] <= 1
      {
        assert multiset(s)[x] >= multiset(s[1..])[x];
      }
      NoRepeats(s[1..], of - {s[0]});
    }
  }

  lemma {:induction false} ListingIsFinished(disk: Disk, all: seq<string>)
    requires multiset(all) == multiset(disk.Keys)
    ensures |FinishedIn(all)| == |Finished(disk)|
    ensures forall name :: name in FinishedIn(all) <==> name in Finished(disk)
    ensures forall i, j :: 0 <= i < j < |FinishedIn(all)| ==> FinishedIn(all)[i] != FinishedIn(all)[j]
  {
    FinishedInIs(all);
    forall name
      ensures name in all <==> name in disk
    {
      assert name in multiset(all) <==> name in multiset(disk.Keys);
    }
    NoRepeats(FinishedIn(all), Finished(disk));
  }

  lemma {:induction false} ScanStarts(root: string, disk: Disk, all: seq<string>)
    requires multiset(all) == multiset(disk.Keys)
    ensures Scanning(root, disk, disk, all, all, [])
  {
  }

  lemma {:induction false} ScanListed(
    root: string, before: Disk, disk: Disk, all: seq<string>, paths: seq<string>, specs: seq<VmSpec>)
    requires Scanning(root, before, disk, all, paths, specs)
    ensures forall name :: name in FinishedIn(paths) ==> name in disk
  {
    ListingIsFinished(before, all);
    forall name | name in FinishedIn(paths)
      ensures name in disk
    {
      assert name in FinishedIn(all);
      assert name in Cleared(before) && name in Cleared(disk);
    }
  }

  lemma {:induction false} SweptSound(root: string, before: Disk, after: Disk)
    requires Swept(before, after)
    ensures Sound(root, before) <==> Sound(root, after)
  {
    forall name | !IsCreating(name)
      ensures name in before <==> name in after
    {
      assert name in Cleared(before) <==> name in Cleared(after);
    }
  }

  lemma {:induction false} ScanBreaks(
    root: string, before: Disk, at: Disk, disk: Disk, all: seq<string>, paths: seq<string>, specs: seq<VmSpec>)
    requires Scanning(root, before, at, all, paths, specs) && Swept(at, disk)
    ensures Swept(before, disk) && (Sound(root, before) <==> Sound(root, disk))
  {
    SweptSound(root, before, at);
    SweptSound(root, at, disk);
  }

  lemma {:induction false} ConsumedJoins(at: Disk, disk: Disk, all: seq<string>, paths: seq<string>, rest: seq<string>)
    requires Consumed(at, all, paths) && disk.Keys <= at.Keys && Consumed(disk, paths, rest)
    ensures Consumed(disk, all, rest)
  {
  }

  lemma {:induction false} SweptLoads(root: string, at: Disk, disk: Disk, specs: seq<VmSpec>)
    requires Swept(at, disk) && forall i :: 0 <= i < |specs| ==> Loads(root, at, specs[i])
    ensures forall i :: 0 <= i < |specs| ==> Loads(root, disk, specs[i])
  {
    forall i | 0 <= i < |specs|
      ensures Loads(root, disk, specs[i])
    {
      DigitsFinish(specs[i].id);
      assert Digits(specs[i].id) in Cleared(at) && Digits(specs[i].id) in Cleared(disk);
    }
  }

  /** An id is not the name of a creation. */
  lemma {:induction false} DigitsFinish(id: VmId)
    ensures !IsCreating(Digits(id))
  {
    assert Digits(id)[0] in Digits(id);
  }

  lemma {:induction false} ScanGoesOn(
    root: string, before: Disk, at: Disk, disk: Disk, all: seq<string>, paths: seq<string>, rest: seq<string>,
    specs: seq<VmSpec>, spec: VmSpec)
    requires Scanning(root, before, at, all, paths, specs) && Swept(at, disk) && Consumed(disk, paths, rest)
    requires FinishedIn(paths) == [Digits(spec.id)] + FinishedIn(rest)
    requires Digits(spec.id) in disk && Load(root, Digits(spec.id), disk[Digits(spec.id)]) == Ok(spec)
    ensures Scanning(root, before, disk, all, rest, specs + [spec])
  {
    hide FinishedIn, Load, IsCreating, Digits, Cleared, Swept;
    SweptJoins(before, at, disk);
    ConsumedJoins(at, disk, all, paths, rest);
    SweptLoads(root, at, disk, specs);
    assert Names(specs + [spec]) == Names(specs) + [Digits(spec.id)];
  }

  lemma {:induction false} ScanCounts(
    root: string, before: Disk, disk: Disk, all: seq<string>, paths: seq<string>, specs: seq<VmSpec>)
    requires Scanning(root, before, disk, all, paths, specs)
    ensures |specs| <= |Finished(before)| && LAST_ID < 0xffff
  {
    ListingIsFinished(before, all);
    assert |Names(specs)| == |specs|;
  }

  lemma {:induction false} ScanEnds(
    root: string, before: Disk, at: Disk, disk: Disk, all: seq<string>, paths: seq<string>, specs: seq<VmSpec>)
    requires Scanning(root, before, at, all, paths, specs) && Swept(at, disk)
    requires Consumed(disk, paths, []) && FinishedIn(paths) == []
    ensures disk == Cleared(before) && Sound(root, before)
    ensures |specs| == |Finished(before)| && Lists(root, disk, specs)
  {
    hide *;
    ScanEmptied(root, before, at, disk, all, paths, specs);
    ScannedAll(root, before, disk, all, specs);
    ScannedLists(root, before, disk, all, specs);
    ListsSound(root, disk, specs);
    SweptSound(root, before, disk);
  }

  /** The end of a scan is a scan with nothing to go. */
  lemma {:induction false} ScanEmptied(
    root: string, before: Disk, at: Disk, disk: Disk, all: seq<string>, paths: seq<string>, specs: seq<VmSpec>)
    requires Scanning(root, before, at, all, paths, specs) && Swept(at, disk)
    requires Consumed(disk, paths, []) && FinishedIn(paths) == []
    ensures Scanning(root, before, disk, all, [], specs) && Swept(before, disk)
  {
    hide Load, IsCreating, Digits, Cleared, Swept, Loads, Consumed, Names;
    SweptJoins(before, at, disk);
    ConsumedJoins(at, disk, all, paths, []);
    SweptLoads(root, at, disk, specs);
  }

  lemma {:induction false} ScannedAll(root: string, before: Disk, disk: Disk, all: seq<string>, specs: seq<VmSpec>)
    requires Scanning(root, before, disk, all, [], specs)
    ensures disk == Cleared(before) && |specs| == |Finished(before)|
    ensures Names(specs) == FinishedIn(all) && disk.Keys == Finished(before)
  {
    hide Load, IsCreating, Digits, Loads, Consumed, Swept, Cleared;
    assert FinishedIn(all) == Names(specs);
    ListingIsFinished(before, all);
    NothingLeft(before, disk, all);
    ClearedKeys(before);
  }

  lemma {:induction false} ScannedLists(root: string, before: Disk, disk: Disk, all: seq<string>, specs: seq<VmSpec>)
    requires Scanning(root, before, disk, all, [], specs)
    requires Names(specs) == FinishedIn(all) && disk.Keys == Finished(before)
    ensures Lists(root, disk, specs)
  {
    hide Load, IsCreating, Digits, Loads, Consumed, Swept, FinishedIn, Finished;
    ListingIsFinished(before, all);
    forall name | name in disk
      ensures exists i :: 0 <= i < |specs| && name == Digits(specs[i].id)
    {
      assert name in Finished(before);
      var i :| 0 <= i < |Names(specs)| && Names(specs)[i] == name;
    }
    forall i, j | 0 <= i < j < |specs|
      ensures specs[i].id != specs[j].id
    {
      assert Names(specs)[i] != Names(specs)[j];
    }
  }

  lemma {:induction false} ListsSound(root: string, disk: Disk, specs: seq<VmSpec>)
    requires Lists(root, disk, specs)
    ensures Sound(root, disk)
  {
    hide Load, IsCreating, Digits;
  }

  lemma {:induction false} ClearedKeys(disk: Disk)
    ensures Cleared(disk).Keys == Finished(disk)
  {
  }

  lemma {:induction false} SweptJoins(before: Disk, at: Disk, disk: Disk)
    requires Swept(before, at) && Swept(at, disk)
    ensures Swept(before, disk) && disk.Keys <= at.Keys
  {
  }

  lemma {:induction false} NothingLeft(before: Disk, disk: Disk, all: seq<string>)
    requires multiset(all) == multiset(before.Keys) && Consumed(disk, all, []) && Swept(before, disk)
    ensures disk == Cleared(before)
  {
    forall name | name in disk
      ensures !IsCreating(name)
    {
      assert name in multiset(all);
    }
    assert disk == Cleared(disk);
  }
}
