/** Measuring the merged root and sizing the ext4 image that will hold it. */
module Layout {
  import opened Optional
  import opened Tree

  const U64_MAX: nat := 0xffff_ffff_ffff_ffff
  const MIB: nat := 1024 * 1024
  const MINIMUM_CAPACITY: nat := 256 * MIB
  const MINIMUM_DATA_HEADROOM: nat := 64 * MIB
  const CAPACITY_ALIGNMENT: nat := 64 * MIB
  const BYTES_PER_INODE: nat := 16 * 1024
  const MINIMUM_INODES: nat := 8192

  // What there is to count.

  /** The distinct inodes named at or below `p`. */
  ghost function Under(t: Fs, p: Path): set<nat> {
    set q | q in t.names && AtOrBelow(p, q) :: t.names[q]
  }

  function SizeOf(t: Fs, i: nat): nat {
    if i in t.nodes && t.nodes[i].File? then |t.nodes[i].data| else 0
  }

  /** The sizes of the regular files among the inodes `s`, each counted once. */
  ghost function TotalSize(t: Fs, s: set<nat>): nat {
    if s == {} then 0
    else
      var i :| i in s;
      SizeOf(t, i) + TotalSize(t, s - {i})
  }

  /** The total does not depend on the order the inodes are met in. */
  lemma {:induction false} TotalSizeAdd(t: Fs, s: set<nat>, i: nat)
    requires i !in s
    ensures TotalSize(t, s + {i}) == TotalSize(t, s) + SizeOf(t, i)
    decreases |s|
  {
    var whole := s + {i};
    var j := TotalSizeOne(t, whole);
    if j == i {
      assert whole - {i} == s;
    } else {
      var rest := s - {j};
      assert rest + {i} == whole - {j} && rest + {j} == s;
      hide TotalSize;
      TotalSizeAdd(t, rest, i);
      TotalSizeAdd(t, rest, j);
    }
  }

  lemma {:induction false} TotalSizeOne(t: Fs, s: set<nat>) returns (j: nat)
    requires s != {}
    ensures j in s && TotalSize(t, s) == SizeOf(t, j) + TotalSize(t, s - {j})
  {
    j :| j in s && TotalSize(t, s) == SizeOf(t, j) + TotalSize(t, s - {j});
  }

  lemma {:induction false} TotalSizeMonotone(t: Fs, a: set<nat>, b: set<nat>)
    requires a <= b
    ensures TotalSize(t, a) <= TotalSize(t, b) && |a| <= |b|
    decreases |b - a|
  {
    if a != b {
      assert exists i :: i in b && i !in a;
      var i :| i in b && i !in a;
      TotalSizeAdd(t, a, i);
      assert b - (a + {i}) == b - a - {i};
      TotalSizeMonotone(t, a + {i}, b);
    }
  }

  /** Both counts of the inodes `s` fit in a `u64`. */
  ghost predicate Countable(t: Fs, s: set<nat>) {
    |s| <= U64_MAX && TotalSize(t, s) <= U64_MAX
  }

  ghost function Subtree(t: Fs, p: Path): set<Path> {
    set q | q in t.names && AtOrBelow(p, q)
  }

  ghost function ChildrenOf(t: Fs, p: Path): set<Path> {
    set q | q in t.names && Below(p, q) && |q| == |p| + 1
  }

  /** The inodes under the children `done` of a directory. */
  ghost function UnderAll(t: Fs, done: set<Path>): set<nat> {
    set q, c | c in done && q in t.names && AtOrBelow(c, q) :: t.names[q]
  }

  lemma {:induction false} UnderSplits(t: Fs, p: Path)
    requires t.Closed() && p in t.names
    ensures Under(t, p) == {t.names[p]} + UnderAll(t, ChildrenOf(t, p))
    ensures !t.IsDir(p) ==> ChildrenOf(t, p) == {}
  {
    forall q | q in t.names && Below(p, q)
      ensures q[..|p| + 1] in ChildrenOf(t, p) && AtOrBelow(q[..|p| + 1], q)
    {
      var c := q[..|p| + 1];
      assert c == q || Below(c, q);
      assert c in t.names;
    }
    assert forall q :: AtOrBelow(p, q) <==> q == p || Below(p, q);
    assert forall c, q :: c in ChildrenOf(t, p) && AtOrBelow(c, q) ==> AtOrBelow(p, q);
  }

  lemma {:induction false} UnderAllAdd(t: Fs, done: set<Path>, c: Path)
    ensures UnderAll(t, done + {c}) == UnderAll(t, done) + Under(t, c)
  {
  }

  /** The counters `measure_tree` threads through its recursion. */
  class Meter {
    var seen: set<nat>
    var bytes: nat
    var inodes: nat

    constructor (ghost t: Fs)
      ensures seen == {} && Valid(t)
    {
      seen, bytes, inodes := {}, 0, 0;
    }

    ghost predicate Valid(t: Fs)
      reads this
    {
      inodes == |seen| && bytes == TotalSize(t, seen) && Countable(t, seen)
    }

    /** The part of `measure_tree` before the descent: count an inode met for the first time. */
    method Count(t: Fs, i: nat) returns (ok: bool)
      requires Valid(t) && i in t.nodes
      modifies this
      ensures ok <==> Countable(t, old(seen) + {i})
      ensures ok ==> Valid(t) && seen == old(seen) + {i}
    {
      if i in seen {
        assert seen + {i} == seen;
        return true;
      }
      TotalSizeAdd(t, seen, i);
      seen := seen + {i};
      if inodes + 1 > U64_MAX {
        return false;
      }
      inodes := inodes + 1;
      if t.nodes[i].File? {
        if bytes + |t.nodes[i].data| > U64_MAX {
          return false;
        }
        bytes := bytes + |t.nodes[i].data|;
      }
      return true;
    }

    /** `measure_tree` from `p` down, whatever order directories list their entries in. */
    method MeasureTree(t: Fs, p: Path) returns (ok: bool)
      requires t.Closed() && p in t.names && Valid(t)
      modifies this
      ensures ok <==> Countable(t, old(seen) + Under(t, p))
      ensures ok ==> Valid(t) && seen == old(seen) + Under(t, p)
      decreases Subtree(t, p), 1
    {
      ghost var before := seen;
      ghost var i := t.names[p];
      SubtreeParts(t, p, before);
      ok := Count(t, t.names[p]);
      if !ok {
        CountableParts(t, before + {i}, before + Under(t, p));
        return;
      }
      if t.IsDir(p) {
        ok := MeasureChildren(t, p, before);
      }
    }

    /** The `read_dir` loop of `measure_tree`. */
    method MeasureChildren(t: Fs, p: Path, ghost before: set<nat>) returns (ok: bool)
      requires t.Closed() && p in t.names && Valid(t) && seen == before + {t.names[p]}
      modifies this
      ensures ok <==> Countable(t, before + Under(t, p))
      ensures ok ==> Valid(t) && seen == before + Under(t, p)
      decreases Subtree(t, p), 0
    {
      hide Countable, TotalSize, Under, UnderAll, Subtree, Valid;
      SubtreeParts(t, p, before);
      var listing := set q | q in t.names && Below(p, q) && |q| == |p| + 1;
      ghost var done: set<Path> := {};
      while listing != {}
        invariant listing + done == ChildrenOf(t, p) && listing !! done
        invariant Valid(t) && seen == Reached(t, p, before, done)
        decreases listing
      {
        var child :| child in listing;
        ChildParts(t, p, before, done, child);
        ok := MeasureTree(t, child);
        if !ok {
          return;
        }
        listing := listing - {child};
        done := done + {child};
      }
      assert done == ChildrenOf(t, p);
      CountableNow(t);
      return true;
    }

    lemma {:induction false} CountableNow(t: Fs)
      requires Valid(t)
      ensures Countable(t, seen)
    {
    }
  }

  /** The inodes counted once `p` itself and its children `done` have been measured. */
  ghost function Reached(t: Fs, p: Path, before: set<nat>, done: set<Path>): set<nat>
    requires p in t.names
  {
    before + {t.names[p]} + UnderAll(t, done)
  }

  lemma {:induction false} SubtreeParts(t: Fs, p: Path, before: set<nat>)
    requires t.Closed() && p in t.names
    ensures Reached(t, p, before, {}) == before + {t.names[p]}
    ensures Reached(t, p, before, ChildrenOf(t, p)) == before + Under(t, p)
    ensures before + {t.names[p]} <= before + Under(t, p)
    ensures !t.IsDir(p) ==> before + {t.names[p]} == before + Under(t, p)
  {
    UnderSplits(t, p);
  }

  lemma {:induction false} ChildParts(t: Fs, p: Path, before: set<nat>, done: set<Path>, c: Path)
    requires t.Closed() && p in t.names && done <= ChildrenOf(t, p) && c in ChildrenOf(t, p)
    ensures c in t.names && Subtree(t, c) < Subtree(t, p)
    ensures Reached(t, p, before, done + {c}) == Reached(t, p, before, done) + Under(t, c)
    ensures Countable(t, before + Under(t, p)) ==> Countable(t, Reached(t, p, before, done) + Under(t, c))
  {
    ChildIsSmaller(t, p, c);
    UnderAllAdd(t, done, c);
    UnderSplits(t, p);
    assert UnderAll(t, done + {c}) <= UnderAll(t, ChildrenOf(t, p));
    CountableParts(t, Reached(t, p, before, done) + Under(t, c), before + Under(t, p));
  }

  lemma {:induction false} CountableParts(t: Fs, a: set<nat>, b: set<nat>)
    requires a <= b
    ensures Countable(t, b) ==> Countable(t, a)
  {
    TotalSizeMonotone(t, a, b);
  }

  lemma {:induction false} ChildIsSmaller(t: Fs, p: Path, c: Path)
    requires p in t.names && c in ChildrenOf(t, p)
    ensures Subtree(t, c) < Subtree(t, p)
  {
    assert p in Subtree(t, p) && p !in Subtree(t, c);
    assert forall q :: AtOrBelow(c, q) ==> AtOrBelow(p, q);
  }

  // The capacity those counts ask for.

  function CeilQuarter(n: nat): nat {
    (n + 3) / 4
  }

  function Max(a: nat, b: nat): nat {
    if a < b then b else a
  }

  /** Inodes asked of the image: a quarter more than counted, and at least the floor. */
  function InodeBudget(inodes: nat): nat {
    Max(inodes + CeilQuarter(inodes), MINIMUM_INODES)
  }

  /** The bytes the image must at least hold, with unbounded arithmetic. */
  function Needed(bytes: nat, inodes: nat): nat {
    var data := bytes + Max(CeilQuarter(bytes), MINIMUM_DATA_HEADROOM);
    Max(Max(data, InodeBudget(inodes) * BYTES_PER_INODE), MINIMUM_CAPACITY)
  }

  /** `c` is the least aligned size of at least `need` bytes. */
  ghost predicate LeastAligned(c: nat, need: nat) {
    && c % CAPACITY_ALIGNMENT == 0 && need <= c
    && forall m: nat :: m % CAPACITY_ALIGNMENT == 0 && need <= m ==> c <= m
  }

  datatype FilesystemLayout = FilesystemLayout(capacity: nat, inodes: nat)

  datatype Result<+T> = Ok(value: T) | Overflow

  /** `round_up` with its checked `u64` operations. */
  function RoundUp(value: nat, alignment: nat): Option<nat> {
    if alignment == 0 || value + (alignment - 1) > U64_MAX then None
    else Some((value + (alignment - 1)) / alignment * alignment)
  }

  function Aligned(need: nat): nat {
    (need + (CAPACITY_ALIGNMENT - 1)) / CAPACITY_ALIGNMENT * CAPACITY_ALIGNMENT
  }

  lemma {:induction false} AlignedIsLeast(need: nat)
    ensures LeastAligned(Aligned(need), need)
  {
    var c := Aligned(need);
    forall m: nat | m % CAPACITY_ALIGNMENT == 0 && need <= m
      ensures c <= m
    {
      var q := m / CAPACITY_ALIGNMENT;
      assert m == q * CAPACITY_ALIGNMENT;
    }
  }

  /** Rounding fails exactly when the rounded value itself is no `u64`. */
  lemma {:induction false} RoundUpExact(need: nat)
    ensures RoundUp(need, CAPACITY_ALIGNMENT) == if Aligned(need) <= U64_MAX then Some(Aligned(need)) else None
  {
    assert (U64_MAX + 1) % CAPACITY_ALIGNMENT == 0;
  }

  // What the layout of so many bytes and inodes is, said without computing it.

  predicate U64(n: nat) {
    n < 0x1_0000_0000_0000_0000
  }

  /** At least 8192 inodes, and a quarter more than counted. */
  predicate EnoughInodes(n: nat, inodes: nat) {
    n >= 8192 && 4 * (n - inodes) >= inodes
  }

  ghost predicate LeastInodes(n: nat, inodes: nat) {
    EnoughInodes(n, inodes) && forall m: nat :: EnoughInodes(m, inodes) ==> n <= m
  }

  /** A multiple of 64 MiB with a quarter of the data and at least 64 MiB to spare, 16 KiB for
      each of `n` inodes, and at least 256 MiB. */
  predicate EnoughSpace(c: nat, bytes: nat, n: nat) {
    && c % (64 * 1024 * 1024) == 0
    && 4 * (c - bytes) >= bytes && c - bytes >= 64 * 1024 * 1024
    && c >= 16 * 1024 * n && c >= 256 * 1024 * 1024
  }

  ghost predicate LeastSpace(c: nat, bytes: nat, n: nat) {
    EnoughSpace(c, bytes, n) && forall m: nat :: EnoughSpace(m, bytes, n) ==> c <= m
  }

  /** The layout is the least that suffices, and none is given exactly when no capacity that
      suffices is a `u64`. */
  ghost predicate LayoutIs(r: Result<FilesystemLayout>, bytes: nat, inodes: nat) {
    match r
    case Ok(layout) =>
      && LeastInodes(layout.inodes, inodes) && LeastSpace(layout.capacity, bytes, layout.inodes)
      && U64(layout.capacity)
    case Overflow =>
      forall n: nat, c: nat :: LeastInodes(n, inodes) && EnoughSpace(c, bytes, n) ==> !U64(c)
  }

  lemma {:induction false} BudgetIsLeast(inodes: nat)
    ensures LeastInodes(InodeBudget(inodes), inodes)
  {
  }

  lemma {:induction false} NeededIsEnough(bytes: nat, inodes: nat, c: nat)
    ensures EnoughSpace(c, bytes, InodeBudget(inodes)) <==> c % CAPACITY_ALIGNMENT == 0 && Needed(bytes, inodes) <= c
  {
  }

  lemma {:induction false} AlignedIsLayout(bytes: nat, inodes: nat)
    ensures LeastSpace(Aligned(Needed(bytes, inodes)), bytes, InodeBudget(inodes))
    ensures forall n: nat, c: nat :: LeastInodes(n, inodes) && EnoughSpace(c, bytes, n) ==>
              c >= Aligned(Needed(bytes, inodes)) >= bytes && c >= inodes
  {
    hide EnoughSpace, Needed, InodeBudget, EnoughInodes, Aligned;
    var n := InodeBudget(inodes);
    AlignedIsLeast(Needed(bytes, inodes));
    BudgetIsLeast(inodes);
    NeededCovers(bytes, inodes);
    forall c: nat
      ensures EnoughSpace(c, bytes, n) <==> c % CAPACITY_ALIGNMENT == 0 && Needed(bytes, inodes) <= c
    {
      NeededIsEnough(bytes, inodes, c);
    }
  }

  lemma {:induction false} NeededCovers(bytes: nat, inodes: nat)
    ensures Needed(bytes, inodes) >= bytes && Needed(bytes, inodes) >= inodes
  {
  }

  /** The arithmetic of `FilesystemLayout::new` on the counts of a measured tree. */
  method Size(bytes: nat, inodes: nat) returns (r: Result<FilesystemLayout>)
    requires bytes <= U64_MAX && inodes <= U64_MAX
    ensures LayoutIs(r, bytes, inodes)
  {
    AlignedIsLayout(bytes, inodes);
    BudgetIsLeast(inodes);
    RoundUpExact(Needed(bytes, inodes));
    AlignedIsLeast(Needed(bytes, inodes));
    hide EnoughSpace, EnoughInodes;
    var inodeHeadroom := CeilQuarter(inodes);
    if inodes + inodeHeadroom > U64_MAX { return Overflow; }
    var inodeBudget := Max(inodes + inodeHeadroom, MINIMUM_INODES);
    var dataHeadroom := Max(CeilQuarter(bytes), MINIMUM_DATA_HEADROOM);
    if bytes + dataHeadroom > U64_MAX { return Overflow; }
    var dataBudget := bytes + dataHeadroom;
    if inodeBudget * BYTES_PER_INODE > U64_MAX { return Overflow; }
    var inodeCapacity := inodeBudget * BYTES_PER_INODE;
    var capacity := Max(Max(dataBudget, inodeCapacity), MINIMUM_CAPACITY);
    match RoundUp(capacity, CAPACITY_ALIGNMENT) {
      case None => return Overflow;
      case Some(aligned) => return Ok(FilesystemLayout(aligned, inodeBudget));
    }
  }

  /** A fuller tree never gets a smaller image. */
  lemma {:induction false} CapacityMonotone(
    b0: nat, i0: nat, r0: FilesystemLayout, b1: nat, i1: nat, r1: FilesystemLayout)
    requires b0 <= b1 && i0 <= i1
    requires LayoutIs(Ok(r0), b0, i0) && LayoutIs(Ok(r1), b1, i1)
    ensures r0.capacity <= r1.capacity && r0.inodes <= r1.inodes
  {
    assert EnoughInodes(r1.inodes, i0);
    assert EnoughSpace(r1.capacity, b0, r0.inodes);
  }

  /** The exact counts of a whole tree. */
  ghost function InodeCount(t: Fs): nat {
    |Under(t, [])|
  }

  ghost function ByteCount(t: Fs): nat {
    TotalSize(t, Under(t, []))
  }

  /** `FilesystemLayout::new`: the exact capacity, or an overflow exactly when no `u64` holds it. */
  method NewLayout(t: Fs) returns (r: Result<FilesystemLayout>)
    requires t.Closed()
    ensures LayoutIs(r, ByteCount(t), InodeCount(t))
  {
    var meter := new Meter(t);
    var ok := meter.MeasureTree(t, []);
    assert {} + Under(t, []) == Under(t, []);
    if !ok {
      AlignedIsLayout(ByteCount(t), InodeCount(t));
      return Overflow;
    }
    r := Size(meter.bytes, meter.inodes);
  }
}
