/** Applying one planned layer to the merged root, pass by pass, and the proof
    that the passes together leave exactly the overlay. */
module LayerApply {
  import opened Optional
  import opened Tree
  import opened Layer

  /** Where the whiteout and replacement passes stand: `gone` is what they have taken away
      so far. Leaves are known exactly, directories up to those the layer makes itself. */
  ghost predicate Stage(low: Fs, t: Fs, es: seq<Entry>, gone: iset<Path>) {
    && low.Closed() && Intact(low, t)
    && (forall p :: t.Leaf(p) <==> low.Leaf(p) && p !in gone)
    && (forall p :: t.Leaf(p) ==> t.names[p] == low.names[p])
    && (forall p :: t.IsDir(p) && !DirOf(es, p) ==> low.IsDir(p) && p !in gone)
    && (forall p :: low.IsDir(p) && !Hides(es, p) ==> t.IsDir(p) && t.names[p] == low.names[p])
  }

  /** Removing `cut`, where every directory removed is one the layer hides. */
  lemma {:induction false} StepCut(low: Fs, t: Fs, u: Fs, es: seq<Entry>, gone: iset<Path>, cut: iset<Path>)
    requires Stage(low, t, es, gone)
    requires u.Closed() && Extends(t, u)
    requires forall p :: u.At(p) == if p in cut then None else t.At(p)
    requires forall p :: p in cut && t.IsDir(p) ==> Hides(es, p)
    ensures Stage(low, u, es, gone + cut)
  {
  }

  /** Counting as gone paths that hold no leaf and only directories of the layer. */
  lemma {:induction false} StepNote(low: Fs, t: Fs, es: seq<Entry>, gone: iset<Path>, more: iset<Path>)
    requires Stage(low, t, es, gone)
    requires forall p :: p in more ==> !t.Leaf(p) && (t.IsDir(p) ==> DirOf(es, p))
    ensures Stage(low, t, es, gone + more)
  {
  }

  /** Making directories the layer has anyway. */
  lemma {:induction false} StepDirs(low: Fs, t: Fs, u: Fs, es: seq<Entry>, gone: iset<Path>, p: Path)
    requires Stage(low, t, es, gone)
    requires WithDirs(t, p, u) && t.Unblocked(p) && !t.Leaf(p)
    requires forall q :: AtOrBelow(q, p) ==> DirOf(es, q)
    ensures Stage(low, u, es, gone)
  {
  }

  lemma {:induction false} StageStart(low: Fs, es: seq<Entry>)
    requires low.Closed()
    ensures Stage(low, low, es, OpaqueSpan(es, 0)) && OpaquesFit(low.At, es, 0) && Intact(low, low)
  {
  }

  lemma {:induction false} StageClosed(low: Fs, t: Fs, es: seq<Entry>, gone: iset<Path>)
    requires Stage(low, t, es, gone)
    ensures low.Closed() && t.Closed() && Intact(low, t)
  {
  }

  lemma {:induction false} DirOfAncestors(es: seq<Entry>, i: nat, p: Path)
    requires i < |es| && (Below(p, es[i].path) || (es[i].kind.Directory? && p == es[i].path))
    ensures forall q :: AtOrBelow(q, p) ==> DirOf(es, q)
  {
  }

  /** What the walk over the parents finds, said of the lower tree. */
  lemma {:induction false} ReachableIsUnblocked(low: Fs, t: Fs, es: seq<Entry>, gone: iset<Path>, p: Path)
    requires Stage(low, t, es, gone)
    ensures t.Unblocked(p) <==> Reachable(low.At, gone, p)
  {
  }

  lemma {:induction false} OpaqueSpanStep(es: seq<Entry>, k: nat)
    requires k < |es|
    ensures OpaqueSpan(es, k + 1) == OpaqueSpan(es, k) +
            match es[k].whiteout
            case Some(Opaque(d)) => Span(d)
            case _ => iset{}
  {
  }

  lemma {:induction false} OpaquesFitStep(low: Fs, es: seq<Entry>, k: nat)
    requires k < |es|
    ensures OpaquesFit(low.At, es, k + 1) <==> OpaquesFit(low.At, es, k) && OpaqueFits(low.At, es, k)
    ensures OpaquesFit(low.At, es, |es|) ==> OpaquesFit(low.At, es, k + 1)
  {
  }

  /** One turn of the first loop of `apply_whiteouts`. */
  method ApplyOpaque(root: Root, es: seq<Entry>, k: nat, ghost low: Fs) returns (ok: bool)
    requires Planned(es) && k < |es| && Stage(low, root.tree, es, OpaqueSpan(es, k))
    modifies root
    ensures Intact(low, root.tree)
    ensures old(root.faults) <= root.faults
    ensures ok <==> root.faults == old(root.faults) && OpaqueFits(low.At, es, k)
    ensures ok ==> Stage(low, root.tree, es, OpaqueSpan(es, k + 1))
    ensures ok && es[k].whiteout.Some? && es[k].whiteout.value.Opaque? ==>
              EmptyDirectory(root.tree, es[k].whiteout.value.directory)
  {
    StageClosed(low, root.tree, es, OpaqueSpan(es, k));
    OpaqueSpanStep(es, k);
    assert OpaqueSpan(es, k) + iset{} == OpaqueSpan(es, k);
    ok := true;
    if es[k].whiteout.Some? && es[k].whiteout.value.Opaque? {
      var d := es[k].whiteout.value.directory;
      ok := root.EnsureNoSymlinkParents(d);
      ReachableIsUnblocked(low, root.tree, es, OpaqueSpan(es, k), d);
      if ok {
        ok := ReplaceWithEmptyDirectory(root, es, k, d, low, OpaqueSpan(es, k));
      }
    }
  }

  /** The first loop of `apply_whiteouts`. */
  method ApplyOpaques(root: Root, es: seq<Entry>) returns (ok: bool)
    requires root.tree.Closed() && Planned(es)
    modifies root
    ensures Intact(old(root.tree), root.tree)
    ensures old(root.faults) <= root.faults
    ensures ok <==> root.faults == old(root.faults) && OpaquesFit(old(root.tree.At), es, |es|)
    ensures ok ==> Stage(old(root.tree), root.tree, es, OpaqueSpan(es, |es|))
  {
    hide *;
    ghost var low := root.tree;
    StageStart(low, es);
    for k := 0 to |es|
      invariant root.faults == old(root.faults)
      invariant Intact(low, root.tree) && Stage(low, root.tree, es, OpaqueSpan(es, k))
      invariant OpaquesFit(low.At, es, k)
    {
      OpaquesFitStep(low, es, k);
      var clear := ApplyOpaque(root, es, k, low);
      if !clear {
        return false;
      }
    }
    return true;
  }

  /** One opaque whiteout: a leaf gives way to a directory, a directory is emptied,
      a missing path is created. */
  method ReplaceWithEmptyDirectory(
    root: Root, ghost es: seq<Entry>, ghost k: nat, d: Path, ghost low: Fs, ghost gone: iset<Path>)
    returns (ok: bool)
    requires k < |es| && es[k].whiteout == Some(Opaque(d)) && Planned(es)
    requires Stage(low, root.tree, es, gone) && root.tree.Unblocked(d)
    modifies root
    ensures Intact(low, root.tree)
    ensures ok ==> Stage(low, root.tree, es, gone + Span(d)) && EmptyDirectory(root.tree, d)
    ensures old(root.faults) <= root.faults
    ensures ok <==> root.faults == old(root.faults)
  {
    hide Stage, Without, Emptied, WithDirs, Planned, Span, Intact, EmptyDirectory;
    ghost var t := root.tree;
    StageClosed(low, t, es, gone);
    if root.tree.IsDir(d) {
      EmptyOpaque(low, t, es, gone, k, d);
      EmptiedIsEmpty(t, d);
      ok := root.ClearDirectory(d);
    } else {
      ghost var cut := iset{};
      if root.tree.Leaf(d) {
        CutLeaf(low, t, es, gone, d);
        ok := root.RemovePath(d);
        IntactJoins(low, t, root.tree);
        if !ok {
          return;
        }
        cut := iset{d};
      }
      ghost var u := root.tree;
      SpanAbsorbs(gone, cut, d);
      ok := root.CreateDirAll(d);
      IntactJoins(low, u, root.tree);
      if ok {
        CreateOpaque(low, u, root.tree, es, gone + cut, k, d);
        MadeIsEmpty(u, d, root.tree);
      }
    }
    IntactJoins(low, t, root.tree);
  }

  ghost predicate EmptyDirectory(t: Fs, d: Path) {
    t.IsDir(d) && forall q :: Below(d, q) ==> t.At(q) == None
  }

  lemma {:induction false} EmptiedIsEmpty(t: Fs, d: Path)
    requires t.Closed() && t.IsDir(d)
    ensures EmptyDirectory(Emptied(t, d), d)
  {
  }

  lemma {:induction false} MadeIsEmpty(t: Fs, d: Path, u: Fs)
    requires t.Closed() && t.At(d) == None && WithDirs(t, d, u)
    ensures EmptyDirectory(u, d)
  {
    NothingBelowNew(t, d, u);
  }

  lemma {:induction false} SpanAbsorbs(gone: iset<Path>, cut: iset<Path>, d: Path)
    requires cut == iset{} || cut == iset{d}
    ensures gone + cut + Span(d) == gone + Span(d) && gone + iset{} == gone
  {
  }

  ghost function Span(d: Path): iset<Path> {
    iset p: Path | AtOrBelow(d, p)
  }

  /** Removing a leaf that stands where a directory must be. */
  lemma {:induction false} CutLeaf(low: Fs, t: Fs, es: seq<Entry>, gone: iset<Path>, d: Path)
    requires Stage(low, t, es, gone) && t.Leaf(d)
    ensures d != [] && Stage(low, Without(t, d), es, gone + iset{d})
    ensures Without(t, d).At(d) == None
    ensures t.Unblocked(d) ==> Without(t, d).Unblocked(d)
  {
    WithoutClosed(t, d);
    LeafAlone(t, d);
    StepCut(low, t, Without(t, d), es, gone, iset{d});
  }

  /** An opaque marker hides all below its directory, and its layer has the directory. */
  lemma {:induction false} OpaqueHides(es: seq<Entry>, k: nat, d: Path)
    requires k < |es| && es[k].whiteout == Some(Opaque(d)) && Planned(es)
    ensures DirOf(es, d) && forall p :: Below(d, p) ==> Hides(es, p)
  {
    assert Makes(es[k], d);
    assert forall p :: Below(d, p) ==> HidesAt(es[k], p);
  }

  lemma {:induction false} EmptyOpaque(low: Fs, t: Fs, es: seq<Entry>, gone: iset<Path>, k: nat, d: Path)
    requires k < |es| && es[k].whiteout == Some(Opaque(d)) && Planned(es)
    requires Stage(low, t, es, gone) && t.IsDir(d)
    ensures Stage(low, Emptied(t, d), es, gone + Span(d))
  {
    StageClosed(low, t, es, gone);
    hide Stage, Hides, DirOf, Emptied, Planned, Intact, Span;
    OpaqueHides(es, k, d);
    EmptiedClosed(t, d);
    SpanSplits(gone, d);
    StepCut(low, t, Emptied(t, d), es, gone, Inside(d));
    StepNote(low, Emptied(t, d), es, gone + Inside(d), iset{d});
  }

  ghost function Inside(d: Path): iset<Path> {
    iset p: Path | Below(d, p)
  }

  lemma {:induction false} SpanSplits(gone: iset<Path>, d: Path)
    ensures gone + Inside(d) + iset{d} == gone + Span(d)
  {
    assert forall p :: AtOrBelow(d, p) <==> p == d || Below(d, p);
  }

  lemma {:induction false} CreateOpaque(low: Fs, t: Fs, u: Fs, es: seq<Entry>, gone: iset<Path>, k: nat, d: Path)
    requires k < |es| && es[k].whiteout == Some(Opaque(d)) && Planned(es)
    requires Stage(low, t, es, gone) && t.At(d) == None && t.Unblocked(d)
    requires WithDirs(t, d, u)
    ensures Stage(low, u, es, gone + Span(d))
  {
    DirOfAncestors(es, k, d);
    StepDirs(low, t, u, es, gone, d);
    NothingBelowNew(t, d, u);
    StepNote(low, u, es, gone, Span(d));
  }

  /** Nothing lies below a leaf. */
  lemma {:induction false} LeafAlone(t: Fs, p: Path)
    requires t.Closed() && t.Leaf(p)
    ensures forall q :: AtOrBelow(p, q) && t.At(q) != None ==> q == p
  {
    forall q | AtOrBelow(p, q) && t.At(q) != None
      ensures q == p
    {
      assert q == p || Below(p, q);
    }
  }

  /** Nothing lies below a directory just made. */
  lemma {:induction false} NothingBelowNew(t: Fs, d: Path, u: Fs)
    requires t.Closed() && t.At(d) == None && WithDirs(t, d, u)
    ensures forall q :: AtOrBelow(d, q) && u.At(q) != None ==> q == d
  {
    forall q | AtOrBelow(d, q) && u.At(q) != None
      ensures q == d
    {
      assert q == d || (Below(d, q) && !AtOrBelow(q, d));
      assert t.At(q) != None ==> t.IsDir(d) || q == d;
    }
  }

  /** Removing all at and below `x`, where the `k`-th member hides it. */
  lemma {:induction false} CutHidden(low: Fs, t: Fs, es: seq<Entry>, gone: iset<Path>, x: Path, k: nat)
    requires k < |es| && x != []
    requires forall p :: AtOrBelow(x, p) ==> HidesAt(es[k], p)
    requires Stage(low, t, es, gone)
    ensures Stage(low, Without(t, x), es, gone + Span(x))
  {
    WithoutClosed(t, x);
    forall p | p in Span(x)
      ensures Hides(es, p)
    {
      assert HidesAt(es[k], p);
    }
    StepCut(low, t, Without(t, x), es, gone, Span(x));
  }

  /** Checks the parents of a path the `k`-th member hides, then removes it. */
  method RemoveHidden(
    root: Root, x: Path, ghost es: seq<Entry>, ghost k: nat, ghost low: Fs, ghost gone: iset<Path>)
    returns (ok: bool)
    requires k < |es| && x != []
    requires forall p :: AtOrBelow(x, p) ==> HidesAt(es[k], p)
    requires Stage(low, root.tree, es, gone)
    modifies root
    ensures Intact(low, root.tree)
    ensures old(root.faults) <= root.faults
    ensures ok <==> root.faults == old(root.faults) && Reachable(low.At, gone, x)
    ensures ok ==> Stage(low, root.tree, es, gone + Span(x))
  {
    ghost var t := root.tree;
    StageClosed(low, t, es, gone);
    ok := root.EnsureNoSymlinkParents(x);
    ReachableIsUnblocked(low, t, es, gone, x);
    if ok {
      CutHidden(low, t, es, gone, x, k);
      ok := root.RemovePath(x);
    }
    IntactJoins(low, t, root.tree);
  }

  lemma {:induction false} TargetSpanStep(base: iset<Path>, es: seq<Entry>, k: nat)
    requires k < |es|
    ensures base + TargetSpan(es, k + 1) == base + TargetSpan(es, k) +
            if es[k].whiteout.Some? && es[k].whiteout.value.Remove? then Span(es[k].whiteout.value.target) else iset{}
  {
  }

  lemma {:induction false} EntrySpanStep(base: iset<Path>, es: seq<Entry>, k: nat)
    requires k < |es|
    ensures base + EntrySpan(es, k + 1) == base + EntrySpan(es, k) +
            if !es[k].kind.Directory? then Span(es[k].path) else iset{}
  {
  }

  /** What has gone when all opaque markers and `k` members' removals are done. */
  ghost function AfterRemovals(es: seq<Entry>, k: nat): iset<Path>
    requires k <= |es|
  {
    OpaqueSpan(es, |es|) + TargetSpan(es, k)
  }

  lemma {:induction false} RemovalsEnds(low: Fs, es: seq<Entry>)
    ensures AfterRemovals(es, 0) == OpaqueSpan(es, |es|)
    ensures AfterRemovals(es, |es|) == Whited(es)
    ensures RemovalsFit(low.At, es, 0)
  {
  }

  lemma {:induction false} RemovalsFitStep(low: Fs, es: seq<Entry>, k: nat)
    requires k < |es|
    ensures RemovalsFit(low.At, es, k + 1) <==> RemovalsFit(low.At, es, k) && RemoveFits(low.At, es, k)
    ensures RemovalsFit(low.At, es, |es|) ==> RemovalsFit(low.At, es, k + 1)
  {
  }

  /** One turn of the second loop of `apply_whiteouts`. */
  method ApplyRemoval(root: Root, es: seq<Entry>, k: nat, ghost low: Fs) returns (ok: bool)
    requires Planned(es) && k < |es| && Stage(low, root.tree, es, AfterRemovals(es, k))
    modifies root
    ensures Intact(low, root.tree)
    ensures old(root.faults) <= root.faults
    ensures ok <==> root.faults == old(root.faults) && RemoveFits(low.At, es, k)
    ensures ok ==> Stage(low, root.tree, es, AfterRemovals(es, k + 1))
  {
    StageClosed(low, root.tree, es, AfterRemovals(es, k));
    TargetSpanStep(OpaqueSpan(es, |es|), es, k);
    assert AfterRemovals(es, k) + iset{} == AfterRemovals(es, k);
    ok := true;
    if es[k].whiteout.Some? && es[k].whiteout.value.Remove? {
      ok := RemoveHidden(root, es[k].whiteout.value.target, es, k, low, AfterRemovals(es, k));
    }
  }

  /** The second loop of `apply_whiteouts`. */
  method ApplyRemovals(root: Root, es: seq<Entry>, ghost low: Fs) returns (ok: bool)
    requires Planned(es) && Stage(low, root.tree, es, OpaqueSpan(es, |es|))
    modifies root
    ensures Intact(low, root.tree)
    ensures old(root.faults) <= root.faults
    ensures ok <==> root.faults == old(root.faults) && RemovalsFit(low.At, es, |es|)
    ensures ok ==> Stage(low, root.tree, es, Whited(es))
  {
    hide *;
    RemovalsEnds(low, es);
    StageClosed(low, root.tree, es, OpaqueSpan(es, |es|));
    for k := 0 to |es|
      invariant root.faults == old(root.faults)
      invariant Intact(low, root.tree) && Stage(low, root.tree, es, AfterRemovals(es, k))
      invariant RemovalsFit(low.At, es, k)
    {
      RemovalsFitStep(low, es, k);
      var clear := ApplyRemoval(root, es, k, low);
      if !clear {
        return false;
      }
    }
    return true;
  }

  method ApplyWhiteouts(root: Root, es: seq<Entry>) returns (ok: bool)
    requires root.tree.Closed() && Planned(es)
    modifies root
    ensures Intact(old(root.tree), root.tree)
    ensures old(root.faults) <= root.faults
    ensures ok <==>
              && root.faults == old(root.faults)
              && OpaquesFit(old(root.tree.At), es, |es|) && RemovalsFit(old(root.tree.At), es, |es|)
    ensures ok ==> Stage(old(root.tree), root.tree, es, Whited(es))
  {
    ghost var low := root.tree;
    hide *;
    ok := ApplyOpaques(root, es);
    if ok {
      ok := ApplyRemovals(root, es, low);
    }
  }

  /** The directory members of the plan, in archive order. */
  function Directories(es: seq<Entry>): (ds: seq<Entry>)
    ensures forall e :: e in ds <==> e in es && e.kind.Directory?
  {
    if es == [] then [] else
    var rest := Directories(es[..|es| - 1]);
    assert es == es[..|es| - 1] + [es[|es| - 1]];
    if es[|es| - 1].kind.Directory? then rest + [es[|es| - 1]] else rest
  }

  ghost predicate ByDepth(ds: seq<Entry>) {
    forall i, j :: 0 <= i < j < |ds| ==> |ds[i].path| <= |ds[j].path|
  }

  /** Insertion of one member into a list already sorted by depth. */
  function InsertByDepth(ds: seq<Entry>, e: Entry): (r: seq<Entry>)
    requires ByDepth(ds)
    ensures ByDepth(r)
    ensures forall x :: x in r <==> x in ds || x == e
  {
    if ds == [] || |ds[|ds| - 1].path| <= |e.path| then ds + [e]
    else
      var last := ds[|ds| - 1];
      assert ds == ds[..|ds| - 1] + [last];
      var r := InsertByDepth(ds[..|ds| - 1], e);
      assert forall x :: x in r ==> |x.path| <= |last.path|;
      r + [last]
  }

  function SortByDepth(ds: seq<Entry>): (r: seq<Entry>)
    ensures ByDepth(r)
    ensures forall x :: x in r <==> x in ds
  {
    if ds == [] then [] else
    assert ds == ds[..|ds| - 1] + [ds[|ds| - 1]];
    InsertByDepth(SortByDepth(ds[..|ds| - 1]), ds[|ds| - 1])
  }

  ghost predicate PathAmong(ds: seq<Entry>, k: nat, p: Path)
    requires k <= |ds|
  {
    exists i :: 0 <= i < k && ds[i].path == p
  }

  ghost function PathsOf(ds: seq<Entry>, k: nat): iset<Path>
    requires k <= |ds|
  {
    iset p: Path | PathAmong(ds, k, p)
  }

  lemma {:induction false} PathsOfStep(ds: seq<Entry>, k: nat)
    requires k < |ds|
    ensures PathsOf(ds, k + 1) == PathsOf(ds, k) + iset{ds[k].path}
  {
  }

  /** The directory members sorted by depth, as the replacement loop visits them. */
  ghost predicate SortedDirectories(es: seq<Entry>, ds: seq<Entry>) {
    ByDepth(ds) && forall e :: e in ds <==> e in es && e.kind.Directory?
  }

  lemma {:induction false} SortedDirectoriesOf(es: seq<Entry>)
    ensures SortedDirectories(es, SortByDepth(Directories(es)))
  {
  }

  lemma {:induction false} AllPaths(es: seq<Entry>, ds: seq<Entry>)
    requires SortedDirectories(es, ds)
    ensures PathsOf(ds, |ds|) == DirPaths(es)
  {
  }

  /** What has gone when the whiteouts and the `k` shallowest directories are done. */
  ghost function AfterDirectories(es: seq<Entry>, ds: seq<Entry>, k: nat): iset<Path>
    requires k <= |ds|
  {
    Whited(es) + PathsOf(ds, k)
  }

  /** Because shallower directories come first, those already made are all that matter. */
  lemma {:induction false} DepthOrderSuffices(low: Fs, es: seq<Entry>, ds: seq<Entry>, k: nat)
    requires SortedDirectories(es, ds) && k < |ds|
    ensures Reachable(low.At, AfterDirectories(es, ds, k), ds[k].path) <==>
            Reachable(low.At, Whited(es) + DirPaths(es), ds[k].path)
  {
    AllPaths(es, ds);
    forall q | Below(q, ds[k].path)
      ensures PathAmong(ds, |ds|, q) <==> PathAmong(ds, k, q)
    {
      if PathAmong(ds, |ds|, q) {
        var i :| 0 <= i < |ds| && ds[i].path == q;
        assert i < k;
      }
    }
  }

  lemma {:induction false} DirectoriesEnds(es: seq<Entry>, ds: seq<Entry>)
    requires SortedDirectories(es, ds)
    ensures AfterDirectories(es, ds, 0) == Whited(es)
    ensures AfterDirectories(es, ds, |ds|) == Whited(es) + DirPaths(es)
  {
  }

  ghost predicate SortedFit(low: Fs, es: seq<Entry>, ds: seq<Entry>, k: nat)
    requires k <= |ds|
  {
    forall i: nat :: i < k ==> Reachable(low.At, Whited(es) + DirPaths(es), ds[i].path)
  }

  lemma {:induction false} SortedFitStep(low: Fs, es: seq<Entry>, ds: seq<Entry>, k: nat)
    requires k < |ds|
    ensures SortedFit(low, es, ds, k + 1) <==>
            SortedFit(low, es, ds, k) && Reachable(low.At, Whited(es) + DirPaths(es), ds[k].path)
    ensures SortedFit(low, es, ds, |ds|) ==> SortedFit(low, es, ds, k + 1)
  {
  }

  /** The sorted list and the plan hold the same directories. */
  lemma {:induction false} SortedFitAll(low: Fs, es: seq<Entry>, ds: seq<Entry>)
    requires SortedDirectories(es, ds)
    ensures SortedFit(low, es, ds, 0)
    ensures SortedFit(low, es, ds, |ds|) <==> EntriesFit(low.At, es, |es|, true)
  {
  }

  /** One turn of the first loop of `prepare_replacements`. */
  method PrepareDirectory(root: Root, es: seq<Entry>, ds: seq<Entry>, k: nat, ghost low: Fs) returns (ok: bool)
    requires SortedDirectories(es, ds) && k < |ds| && Stage(low, root.tree, es, AfterDirectories(es, ds, k))
    modifies root
    ensures Intact(low, root.tree)
    ensures old(root.faults) <= root.faults
    ensures ok <==> root.faults == old(root.faults) && Reachable(low.At, Whited(es) + DirPaths(es), ds[k].path)
    ensures ok ==> Stage(low, root.tree, es, AfterDirectories(es, ds, k + 1)) && root.tree.IsDir(ds[k].path)
  {
    StageClosed(low, root.tree, es, AfterDirectories(es, ds, k));
    ok := root.EnsureNoSymlinkParents(ds[k].path);
    ReachableIsUnblocked(low, root.tree, es, AfterDirectories(es, ds, k), ds[k].path);
    DepthOrderSuffices(low, es, ds, k);
    if ok {
      PathsOfStep(ds, k);
      assert AfterDirectories(es, ds, k + 1) == AfterDirectories(es, ds, k) + iset{ds[k].path};
      assert ds[k] in es;
      ghost var i :| 0 <= i < |es| && es[i] == ds[k];
      ok := MakeDirectory(root, ds[k].path, es, i, low, AfterDirectories(es, ds, k));
    }
  }

  /** The first loop of `prepare_replacements`. */
  method PrepareDirectories(root: Root, es: seq<Entry>, ghost low: Fs) returns (ok: bool)
    requires Stage(low, root.tree, es, Whited(es))
    modifies root
    ensures Intact(low, root.tree)
    ensures old(root.faults) <= root.faults
    ensures ok <==> root.faults == old(root.faults) && EntriesFit(low.At, es, |es|, true)
    ensures ok ==> Stage(low, root.tree, es, Whited(es) + DirPaths(es))
  {
    hide *;
    var ds := SortByDepth(Directories(es));
    SortedDirectoriesOf(es);
    DirectoriesEnds(es, ds);
    SortedFitAll(low, es, ds);
    StageClosed(low, root.tree, es, Whited(es));
    for k := 0 to |ds|
      invariant root.faults == old(root.faults)
      invariant Intact(low, root.tree) && Stage(low, root.tree, es, AfterDirectories(es, ds, k))
      invariant SortedFit(low, es, ds, k)
    {
      SortedFitStep(low, es, ds, k);
      var clear := PrepareDirectory(root, es, ds, k, low);
      if !clear {
        return false;
      }
    }
    return true;
  }

  /** One directory member: a leaf gives way to a directory, a missing path is created. */
  method MakeDirectory(
    root: Root, target: Path, ghost es: seq<Entry>, ghost k: nat, ghost low: Fs, ghost gone: iset<Path>)
    returns (ok: bool)
    requires k < |es| && es[k].kind.Directory? && es[k].path == target
    requires Stage(low, root.tree, es, gone) && root.tree.Unblocked(target)
    modifies root
    ensures Intact(low, root.tree)
    ensures ok ==> Stage(low, root.tree, es, gone + iset{target}) && root.tree.IsDir(target)
    ensures old(root.faults) <= root.faults
    ensures ok <==> root.faults == old(root.faults)
  {
    hide Stage, Without, WithDirs, Intact;
    ghost var t := root.tree;
    StageClosed(low, t, es, gone);
    DirOfAncestors(es, k, target);
    assert DirOf(es, target);
    ghost var cut := iset{};
    assert gone + iset{} == gone;
    if root.tree.Leaf(target) {
      CutLeaf(low, t, es, gone, target);
      ok := root.RemovePath(target);
      IntactJoins(low, t, root.tree);
      if !ok {
        return;
      }
      cut := iset{target};
    }
    ok := true;
    ghost var u := root.tree;
    if !root.tree.IsDir(target) {
      ok := root.CreateDirAll(target);
      IntactJoins(low, u, root.tree);
      if !ok {
        return;
      }
      StepDirs(low, u, root.tree, es, gone + cut, target);
      MadeIsDir(u, target, root.tree);
    }
    StepNote(low, root.tree, es, gone + cut, iset{target});
    assert gone + cut + iset{target} == gone + iset{target};
  }

  lemma {:induction false} MadeIsDir(t: Fs, p: Path, u: Fs)
    requires WithDirs(t, p, u)
    ensures u.IsDir(p)
  {
  }

  /** Nothing of the layer lies below a member that is not a directory. */
  lemma {:induction false} LeavesDoNotBlock(low: Fs, es: seq<Entry>, gone: iset<Path>, k: nat, n: nat)
    requires WellFormed(es) && k < |es| && n <= |es|
    ensures Reachable(low.At, gone + EntrySpan(es, n), es[k].path) <==> Reachable(low.At, gone, es[k].path)
  {
    forall q | Below(q, es[k].path)
      ensures q !in EntrySpan(es, n)
    {
      if q in EntrySpan(es, n) {
        var i :| 0 <= i < n && Replaces(es[i], q);
        assert Below(es[i].path, es[k].path);
      }
    }
  }

  /** What has gone when the directories and `k` members' replacements are done. */
  ghost function AfterReplacements(es: seq<Entry>, k: nat): iset<Path>
    requires k <= |es|
  {
    Whited(es) + DirPaths(es) + EntrySpan(es, k)
  }

  lemma {:induction false} ReplacementsEnds(low: Fs, es: seq<Entry>)
    ensures AfterReplacements(es, 0) == Whited(es) + DirPaths(es)
    ensures AfterReplacements(es, |es|) == AllGone(es)
    ensures EntriesFit(low.At, es, 0, false)
  {
  }

  lemma {:induction false} LeavesFitStep(low: Fs, es: seq<Entry>, k: nat)
    requires k < |es|
    ensures EntriesFit(low.At, es, k + 1, false) <==>
            EntriesFit(low.At, es, k, false) && (es[k].kind.Directory? || EntryFits(low.At, es, k))
    ensures EntriesFit(low.At, es, |es|, false) ==> EntriesFit(low.At, es, k + 1, false)
  {
  }

  /** One turn of the second loop of `prepare_replacements`. */
  method ReplaceTarget(root: Root, es: seq<Entry>, k: nat, ghost low: Fs) returns (ok: bool)
    requires WellFormed(es) && k < |es| && Stage(low, root.tree, es, AfterReplacements(es, k))
    modifies root
    ensures Intact(low, root.tree)
    ensures old(root.faults) <= root.faults
    ensures ok <==> root.faults == old(root.faults) && (es[k].kind.Directory? || EntryFits(low.At, es, k))
    ensures ok ==> Stage(low, root.tree, es, AfterReplacements(es, k + 1))
  {
    StageClosed(low, root.tree, es, AfterReplacements(es, k));
    EntrySpanStep(Whited(es) + DirPaths(es), es, k);
    LeavesDoNotBlock(low, es, Whited(es) + DirPaths(es), k, k);
    assert AfterReplacements(es, k) + iset{} == AfterReplacements(es, k);
    ok := true;
    if !es[k].kind.Directory? {
      ok := RemoveHidden(root, es[k].path, es, k, low, AfterReplacements(es, k));
    }
  }

  /** The second loop of `prepare_replacements`. */
  method RemoveReplaced(root: Root, es: seq<Entry>, ghost low: Fs) returns (ok: bool)
    requires WellFormed(es) && Stage(low, root.tree, es, Whited(es) + DirPaths(es))
    modifies root
    ensures Intact(low, root.tree)
    ensures old(root.faults) <= root.faults
    ensures ok <==> root.faults == old(root.faults) && EntriesFit(low.At, es, |es|, false)
    ensures ok ==> Stage(low, root.tree, es, AllGone(es))
  {
    hide *;
    ReplacementsEnds(low, es);
    StageClosed(low, root.tree, es, Whited(es) + DirPaths(es));
    for k := 0 to |es|
      invariant root.faults == old(root.faults)
      invariant Intact(low, root.tree) && Stage(low, root.tree, es, AfterReplacements(es, k))
      invariant EntriesFit(low.At, es, k, false)
    {
      LeavesFitStep(low, es, k);
      var clear := ReplaceTarget(root, es, k, low);
      if !clear {
        return false;
      }
    }
    return true;
  }

  /** All that the two preparation passes take away. */
  ghost function AllGone(es: seq<Entry>): iset<Path> {
    Whited(es) + DirPaths(es) + EntrySpan(es, |es|)
  }

  method PrepareReplacements(root: Root, es: seq<Entry>, ghost low: Fs) returns (ok: bool)
    requires WellFormed(es) && Stage(low, root.tree, es, Whited(es))
    modifies root
    ensures Intact(low, root.tree)
    ensures old(root.faults) <= root.faults
    ensures ok <==>
              && root.faults == old(root.faults)
              && EntriesFit(low.At, es, |es|, true) && EntriesFit(low.At, es, |es|, false)
    ensures ok ==> Stage(low, root.tree, es, AllGone(es))
  {
    hide *;
    ok := PrepareDirectories(root, es, low);
    if ok {
      ok := RemoveReplaced(root, es, low);
    }
  }
}
