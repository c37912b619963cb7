/** Extracting the members of a prepared layer, removing its markers, and the
    theorem the passes add up to. */
module LayerUnpack {
  import opened Optional
  import opened Tree
  import opened Layer
  import opened LayerApply

  ghost predicate MadeBy(es: seq<Entry>, k: nat, p: Path)
    requires k <= |es|
  {
    exists i :: 0 <= i < k && Makes(es[i], p)
  }

  /** What shows at a path that is no directory of the layer once `k` members are
      extracted and the markers among the first `m` removed. */
  ghost function Expected(low: Fs, es: seq<Entry>, k: nat, m: nat, p: Path): Option<Node> {
    var j := IndexOf(es, |es|, p);
    if j >= 0 then if j < k && !(j < m && es[j].whiteout.Some?) then EntryNode(low.At, es, j) else None
    else if Hides(es, p) then None
    else low.At(p)
  }

  ghost predicate Unpacked(low: Fs, t: Fs, es: seq<Entry>, k: nat)
    requires k <= |es|
  {
    && Intact(low, t)
    && (forall p :: DirOf(es, p) ==> !t.Leaf(p))
    && (forall p :: MadeBy(es, k, p) ==> t.IsDir(p))
    && (forall p :: !DirOf(es, p) ==> t.At(p) == Expected(low, es, k, 0, p))
    && (forall p :: !DirOf(es, p) && IndexOf(es, |es|, p) < 0 && t.At(p) != None ==> t.names[p] == low.names[p])
    && (forall i: nat :: i < k ==> MemberStands(low, t, es, i))
  }

  /** An extracted leaf shows a leaf; unless it is a hard link its inode is new,
      and if it is one it shares its source's inode. */
  ghost predicate MemberStands(low: Fs, t: Fs, es: seq<Entry>, i: nat)
    requires i < |es|
  {
    var e := es[i];
    && (!e.kind.Directory? ==> EntryNode(low.At, es, i) != None && EntryNode(low.At, es, i) != Some(Dir))
    && (!e.kind.Directory? ==> e.path in t.names && t.names[e.path] in t.nodes)
    && (e.kind.Regular? || e.kind.SymlinkTo? ==> t.names[e.path] !in low.nodes)
    && (e.kind.HardLinkTo? ==> e.kind.source in t.names && t.names[e.path] == t.names[e.kind.source])
  }

  /** A member that is not a directory is no directory of the layer. */
  lemma {:induction false} LeafNotDirOf(es: seq<Entry>, j: nat)
    requires WellFormed(es) && j < |es| && !es[j].kind.Directory?
    ensures !DirOf(es, es[j].path)
  {
  }

  lemma {:induction false} IndexAt(es: seq<Entry>, j: nat)
    requires Planned(es) && j < |es|
    ensures IndexOf(es, |es|, es[j].path) == j
  {
  }

  /** What the preparation passes leave is what extraction needs. */
  lemma {:induction false} PreparedIsUnpacked(low: Fs, t: Fs, es: seq<Entry>)
    requires WellFormed(es) && Stage(low, t, es, AllGone(es))
    requires EntriesFit(low.At, es, |es|, true) && EntriesFit(low.At, es, |es|, false)
    ensures Unpacked(low, t, es, 0)
  {
    forall p | DirOf(es, p)
      ensures !t.Leaf(p)
    {
      DirOfHasNoLeaf(low, t, es, p);
    }
    forall p | !DirOf(es, p)
      ensures t.At(p) == Expected(low, es, 0, 0, p)
      ensures IndexOf(es, |es|, p) < 0 && t.At(p) != None ==> t.names[p] == low.names[p]
    {
      GoneIsHidden(es, p);
      var j := IndexOf(es, |es|, p);
      if j >= 0 {
        assert Makes(es[j], p) || Replaces(es[j], p);
        assert HidesAt(es[j], p);
      }
    }
  }

  lemma {:induction false} DirOfHasNoLeaf(low: Fs, t: Fs, es: seq<Entry>, p: Path)
    requires WellFormed(es) && Stage(low, t, es, AllGone(es)) && DirOf(es, p)
    requires EntriesFit(low.At, es, |es|, true) && EntriesFit(low.At, es, |es|, false)
    ensures !t.Leaf(p)
  {
    forall i: nat | i < |es| && Makes(es[i], p)
      ensures EntryFits(low.At, es, i)
    {
    }
  }

  /** Off the layer's own directories, what has gone is what is hidden. */
  lemma {:induction false} GoneIsHidden(es: seq<Entry>, p: Path)
    requires Planned(es) && !DirOf(es, p)
    ensures p in AllGone(es) <==> Hides(es, p)
  {
    if p in AllGone(es) {
      if OpaquedBy(es, |es|, p) {
        var i :| 0 <= i < |es| && Opaques(es[i], p);
        assert Makes(es[i], es[i].whiteout.value.directory);
        assert HidesAt(es[i], p);
      } else if RemovedBy(es, |es|, p) {
        var i :| 0 <= i < |es| && Removes(es[i], p);
        assert HidesAt(es[i], p);
      } else if ReplacedBy(es, |es|, p) {
        var i :| 0 <= i < |es| && Replaces(es[i], p);
        assert HidesAt(es[i], p);
      }
    }
    if Hides(es, p) {
      var i :| 0 <= i < |es| && HidesAt(es[i], p);
      assert Opaques(es[i], p) || Removes(es[i], p) || Replaces(es[i], p);
    }
  }

  /** Extraction has reached member `k`: its path is free and its ancestors are the layer's own. */
  lemma {:induction false} MemberReady(low: Fs, t: Fs, es: seq<Entry>, k: nat)
    requires WellFormed(es) && k < |es| && Unpacked(low, t, es, k)
    ensures forall q :: Below(q, es[k].path) ==> DirOf(es, q)
    ensures t.Unblocked(es[k].path)
    ensures es[k].kind.Directory? ==> DirOf(es, es[k].path)
    ensures !es[k].kind.Directory? ==> !DirOf(es, es[k].path) && es[k].path !in t.names
  {
  }

  /** Extracting member `k` in state `t` led to `u`, whose new leaf, if any, shows `n`. */
  ghost predicate Extracted(t: Fs, u: Fs, e: Entry, n: Option<Node>) {
    && u.Closed()
    && Grows(t, u)
    && forall q :: u.At(q) ==
         if q == e.path && !e.kind.Directory? then n else if Makes(e, q) then Some(Dir) else t.At(q)
  }

  lemma {:induction false} MembersStay(low: Fs, t: Fs, u: Fs, es: seq<Entry>, k: nat)
    requires k <= |es| && Grows(t, u)
    requires forall i: nat :: i < k ==> MemberStands(low, t, es, i)
    ensures forall i: nat :: i < k ==> MemberStands(low, u, es, i)
  {
    forall i: nat | i < k
      ensures MemberStands(low, u, es, i)
    {
      assert MemberStands(low, t, es, i);
    }
  }

  lemma {:induction false} MadeByStep(es: seq<Entry>, k: nat, p: Path)
    requires k < |es|
    ensures MadeBy(es, k + 1, p) <==> MadeBy(es, k, p) || Makes(es[k], p)
    ensures MadeBy(es, k, p) ==> DirOf(es, p)
  {
  }

  lemma {:induction false} DirectoriesStay(low: Fs, t: Fs, u: Fs, es: seq<Entry>, k: nat, p: Path)
    requires WellFormed(es) && k < |es| && Unpacked(low, t, es, k)
    requires Extracted(t, u, es[k], EntryNode(low.At, es, k))
    ensures DirOf(es, p) ==> !u.Leaf(p)
    ensures MadeBy(es, k + 1, p) ==> u.IsDir(p)
  {
    MemberReady(low, t, es, k);
    MadeByStep(es, k, p);
    hide MemberStands, Expected, WellFormed, DirOf, MadeBy, Makes, Below;
    assert p == es[k].path && !es[k].kind.Directory? ==> !DirOf(es, p);
  }

  lemma {:induction false} LeavesStay(low: Fs, t: Fs, u: Fs, es: seq<Entry>, k: nat, p: Path)
    requires WellFormed(es) && k < |es| && Unpacked(low, t, es, k) && !DirOf(es, p)
    requires Extracted(t, u, es[k], EntryNode(low.At, es, k))
    ensures u.At(p) == Expected(low, es, k + 1, 0, p)
    ensures IndexOf(es, |es|, p) < 0 && u.At(p) != None ==> u.names[p] == low.names[p]
  {
    IndexAt(es, k);
    ExpectedStep(low, es, k, p);
    hide MemberStands, Expected, IndexOf, WellFormed, EntryNode, Intact;
    assert !Makes(es[k], p);
    assert p != es[k].path ==> u.At(p) == t.At(p);
  }

  lemma {:induction false} ExpectedStep(low: Fs, es: seq<Entry>, k: nat, p: Path)
    requires k < |es|
    ensures Expected(low, es, k + 1, 0, p) ==
              if IndexOf(es, |es|, p) == k then EntryNode(low.At, es, k) else Expected(low, es, k, 0, p)
  {
  }

  lemma {:induction false} UnpackedStays(low: Fs, t: Fs, u: Fs, es: seq<Entry>, k: nat)
    requires k < |es| && Unpacked(low, t, es, k) && Extracted(t, u, es[k], EntryNode(low.At, es, k))
    ensures Intact(low, u) && forall i: nat :: i < k ==> MemberStands(low, u, es, i)
  {
    MembersStay(low, t, u, es, k);
  }

  lemma {:induction false} ExtractStep(low: Fs, t: Fs, u: Fs, es: seq<Entry>, k: nat)
    requires WellFormed(es) && k < |es| && Unpacked(low, t, es, k)
    requires Extracted(t, u, es[k], EntryNode(low.At, es, k))
    requires MemberStands(low, u, es, k)
    ensures Unpacked(low, u, es, k + 1)
  {
    UnpackedStays(low, t, u, es, k);
    hide MemberStands, WellFormed, Expected, DirOf, MadeBy, Extracted, Intact, IndexOf;
    forall p
      ensures DirOf(es, p) ==> !u.Leaf(p)
      ensures MadeBy(es, k + 1, p) ==> u.IsDir(p)
      ensures !DirOf(es, p) ==> u.At(p) == Expected(low, es, k + 1, 0, p)
      ensures !DirOf(es, p) && IndexOf(es, |es|, p) < 0 && u.At(p) != None ==> u.names[p] == low.names[p]
    {
      DirectoriesStay(low, t, u, es, k, p);
      if !DirOf(es, p) {
        LeavesStay(low, t, u, es, k, p);
      }
    }
  }

  /** A hard link's source is found exactly when `LinkResolves` says so, and shows its node. */
  lemma {:induction false} LinkSeen(low: Fs, t: Fs, es: seq<Entry>, k: nat)
    requires WellFormed(es) && k < |es| && Unpacked(low, t, es, k) && es[k].kind.HardLinkTo?
    ensures t.Leaf(es[k].kind.source) <==> LinkResolves(low.At, es, k)
    ensures t.Leaf(es[k].kind.source) ==> t.At(es[k].kind.source) == EntryNode(low.At, es, k)
  {
    var source := es[k].kind.source;
    var j := IndexOf(es, |es|, source);
    if j >= 0 {
      if es[j].kind.Directory? {
        assert Makes(es[j], source);
      } else {
        LeafNotDirOf(es, j);
        assert j < k ==> MemberStands(low, t, es, j) && IndexOf(es, k, source) == j;
      }
    }
  }

  /** A source found lexically is the one the host finds, wherever symlinks may lead. */
  lemma {:induction false} LinkSourceResolves(t: Fs, source: Path, follow: (Path, string) -> Path, links: nat)
    requires t.Closed() && t.Leaf(source)
    ensures Resolve(t, [], source, follow, links) == Some(source)
  {
    assert t.IsDir([]) && [] + source == source;
    LexicalIsResolved(t, [], source, follow, links);
  }

  /** `create_dir_all` on the parents followed by a new name makes an extracted leaf. */
  lemma {:induction false} LeafExtracted(t: Fs, mid: Fs, u: Fs, e: Entry, n: Option<Node>)
    requires t.Closed() && e.path != [] && !e.kind.Directory?
    requires WithDirs(t, Parent(e.path), mid)
    requires u.Closed() && Grows(mid, u)
    requires forall q :: u.At(q) == if q == e.path then n else mid.At(q)
    ensures Extracted(t, u, e, n)
  {
  }

  /** Extraction of one member: missing parents first, then the member itself. */
  method ExtractMember(root: Root, es: seq<Entry>, k: nat, ghost low: Fs) returns (ok: bool)
    requires WellFormed(es) && k < |es| && Unpacked(low, root.tree, es, k)
    modifies root
    ensures Intact(low, root.tree)
    ensures old(root.faults) <= root.faults
    ensures ok <==> root.faults == old(root.faults) && LinkResolves(low.At, es, k)
    ensures ok ==> Unpacked(low, root.tree, es, k + 1)
  {
    ghost var t := root.tree;
    var e := es[k];
    MemberReady(low, t, es, k);
    if e.kind.Directory? {
      ok := CreateDirectory(root, e);
      IntactJoins(low, t, root.tree);
    } else {
      ok := CreateLeaf(root, e, low, es, k);
    }
    if ok {
      ExtractStep(low, t, root.tree, es, k);
    }
  }

  method CreateDirectory(root: Root, e: Entry) returns (ok: bool)
    requires root.tree.Closed() && root.tree.Unblocked(e.path) && !root.tree.Leaf(e.path) && e.kind.Directory?
    modifies root
    ensures Intact(old(root.tree), root.tree)
    ensures ok ==> Extracted(old(root.tree), root.tree, e, Some(Dir))
    ensures old(root.faults) <= root.faults
    ensures ok <==> root.faults == old(root.faults)
  {
    ok := root.CreateDirAll(e.path);
    assert forall q :: AtOrBelow(q, e.path) <==> Makes(e, q);
  }

  /** Making the parents of a free path disturbs no leaf and leaves the path free. */
  lemma {:induction false} ParentsMade(t: Fs, p: Path, mid: Fs)
    requires t.Closed() && p != [] && t.Unblocked(p) && p !in t.names && WithDirs(t, Parent(p), mid)
    ensures p !in mid.names && mid.IsDir(Parent(p))
    ensures forall q :: mid.Leaf(q) <==> t.Leaf(q)
    ensures forall q :: mid.Leaf(q) ==> mid.At(q) == t.At(q)
  {
    assert !AtOrBelow(p, Parent(p));
    assert forall q :: AtOrBelow(q, Parent(p)) ==> Below(q, p);
  }

  method CreateLeaf(root: Root, e: Entry, ghost low: Fs, ghost es: seq<Entry>, ghost k: nat) returns (ok: bool)
    requires WellFormed(es) && k < |es| && es[k] == e && Unpacked(low, root.tree, es, k)
    requires !e.kind.Directory? && root.tree.Unblocked(e.path) && e.path !in root.tree.names
    modifies root
    ensures Intact(low, root.tree)
    ensures old(root.faults) <= root.faults
    ensures ok <==> root.faults == old(root.faults) && LinkResolves(low.At, es, k)
    ensures ok ==> Extracted(old(root.tree), root.tree, e, EntryNode(low.At, es, k))
    ensures ok ==> MemberStands(low, root.tree, es, k)
  {
    ghost var t := root.tree;
    assert Below(Parent(e.path), e.path);
    ok := root.CreateDirAll(Parent(e.path));
    IntactJoins(low, t, root.tree);
    if !ok {
      return;
    }
    ghost var mid := root.tree;
    ParentsMade(t, e.path, mid);
    match e.kind {
      case HardLinkTo(source) =>
        LinkSeen(low, t, es, k);
        if !root.tree.Leaf(source) {
          return false;
        }
        ok := root.Link(e.path, source);
      case Regular(data) =>
        ok := root.PutLeaf(e.path, File(data));
      case SymlinkTo(text) =>
        ok := root.PutLeaf(e.path, Symlink(text));
    }
    IntactJoins(low, mid, root.tree);
    if ok {
      LeafExtracted(t, mid, root.tree, e, EntryNode(low.At, es, k));
    }
  }

  lemma {:induction false} LinksResolveStep(low: Fs, es: seq<Entry>, k: nat)
    requires k < |es|
    ensures LinksResolve(low.At, es, k + 1) <==> LinksResolve(low.At, es, k) && LinkResolves(low.At, es, k)
    ensures LinksResolve(low.At, es, |es|) ==> LinksResolve(low.At, es, k + 1)
  {
  }

  lemma {:induction false} UnpackedClosed(low: Fs, t: Fs, es: seq<Entry>)
    requires Unpacked(low, t, es, 0)
    ensures Intact(low, t) && LinksResolve(low.At, es, 0)
  {
  }

  /** `unpack`: the members in archive order. */
  method Unpack(root: Root, es: seq<Entry>, ghost low: Fs) returns (ok: bool)
    requires WellFormed(es) && Unpacked(low, root.tree, es, 0)
    modifies root
    ensures Intact(low, root.tree)
    ensures old(root.faults) <= root.faults
    ensures ok <==> root.faults == old(root.faults) && LinksResolve(low.At, es, |es|)
    ensures ok ==> Unpacked(low, root.tree, es, |es|)
  {
    hide *;
    UnpackedClosed(low, root.tree, es);
    for k := 0 to |es|
      invariant root.faults == old(root.faults)
      invariant Intact(low, root.tree) && Unpacked(low, root.tree, es, k)
      invariant LinksResolve(low.At, es, k)
    {
      LinksResolveStep(low, es, k);
      var extracted := ExtractMember(root, es, k, low);
      if !extracted {
        return false;
      }
    }
    return true;
  }

  /** All members are extracted and the markers among the first `m` are gone again. */
  ghost predicate Cleaned(low: Fs, t: Fs, es: seq<Entry>, m: nat) {
    && Intact(low, t)
    && (forall p :: DirOf(es, p) ==> t.IsDir(p))
    && (forall p :: !DirOf(es, p) ==> t.At(p) == Expected(low, es, |es|, m, p))
    && (forall p :: !DirOf(es, p) && IndexOf(es, |es|, p) < 0 && t.At(p) != None ==> t.names[p] == low.names[p])
    && (forall i: nat :: i < |es| ==> InodeFits(low, t, es[i]))
  }

  /** A new file or symlink has an inode the lower tree did not have; a hard link and its
      source have the same one. */
  ghost predicate InodeFits(low: Fs, t: Fs, e: Entry) {
    && ((e.kind.Regular? || e.kind.SymlinkTo?) && e.path in t.names ==> t.names[e.path] !in low.nodes)
    && (e.kind.HardLinkTo? && e.path in t.names && e.kind.source in t.names ==>
          t.names[e.path] == t.names[e.kind.source])
  }

  lemma {:induction false} UnpackedIsCleaned(low: Fs, t: Fs, es: seq<Entry>)
    requires Unpacked(low, t, es, |es|)
    ensures Cleaned(low, t, es, 0)
  {
    forall p | DirOf(es, p)
      ensures t.IsDir(p)
    {
      assert p == [] || MadeBy(es, |es|, p);
    }
    forall i: nat | i < |es|
      ensures InodeFits(low, t, es[i])
    {
      assert MemberStands(low, t, es, i);
    }
  }

  /** A marker still stands as an empty file, alone, under the layer's own directories. */
  lemma {:induction false} MarkerStands(low: Fs, t: Fs, es: seq<Entry>, m: nat)
    requires WellFormed(es) && m < |es| && Cleaned(low, t, es, m) && es[m].whiteout.Some?
    ensures var x := es[m].path;
            && t.Closed() && x != [] && t.Unblocked(x) && t.Leaf(x) && !DirOf(es, x)
            && forall q :: Without(t, x).At(q) == if q == x then None else t.At(q)
  {
    var x := es[m].path;
    forall q | Below(q, x)
      ensures DirOf(es, q)
    {
      assert Makes(es[m], q);
    }
    IndexAt(es, m);
    LeafNotDirOf(es, m);
    hide DirOf, WellFormed, InodeFits;
    assert t.At(x) == Some(File(""));
    WithoutClosed(t, x);
    LeafAlone(t, x);
  }

  lemma {:induction false} MarkerGone(low: Fs, t: Fs, es: seq<Entry>, m: nat)
    requires WellFormed(es) && m < |es| && Cleaned(low, t, es, m) && es[m].whiteout.Some?
    ensures Cleaned(low, Without(t, es[m].path), es, m + 1)
  {
    var x := es[m].path;
    var u := Without(t, x);
    MarkerStands(low, t, es, m);
    WithoutClosed(t, x);
    hide DirOf, WellFormed, Expected, IndexOf;
    forall p
      ensures Expected(low, es, |es|, m + 1, p) == if p == x then None else Expected(low, es, |es|, m, p)
    {
      ExpectedGone(low, es, m, p);
    }
    forall i: nat | i < |es|
      ensures InodeFits(low, u, es[i])
    {
      assert InodeFits(low, t, es[i]);
    }
  }

  lemma {:induction false} ExpectedGone(low: Fs, es: seq<Entry>, m: nat, p: Path)
    requires WellFormed(es) && m < |es| && es[m].whiteout.Some?
    ensures Expected(low, es, |es|, m + 1, p) == if p == es[m].path then None else Expected(low, es, |es|, m, p)
  {
  }

  /** The last loop of `apply`: the extracted markers go again. */
  method RemoveMarkers(root: Root, es: seq<Entry>, ghost low: Fs) returns (ok: bool)
    requires WellFormed(es) && Cleaned(low, root.tree, es, 0)
    modifies root
    ensures Intact(low, root.tree)
    ensures ok ==> Cleaned(low, root.tree, es, |es|)
    ensures old(root.faults) <= root.faults
    ensures ok <==> root.faults == old(root.faults)
  {
    hide Cleaned, WellFormed, Intact, Without;
    CleanedIntact(low, root.tree, es, 0);
    for m := 0 to |es|
      invariant root.faults == old(root.faults)
      invariant Intact(low, root.tree) && Cleaned(low, root.tree, es, m)
    {
      if es[m].whiteout.Some? {
        MarkerStands(low, root.tree, es, m);
        MarkerGone(low, root.tree, es, m);
        var clear := root.EnsureNoSymlinkParents(es[m].path);
        if !clear {
          return false;
        }
        ghost var t := root.tree;
        ok := root.RemovePath(es[m].path);
        IntactJoins(low, t, root.tree);
        if !ok {
          return;
        }
      } else {
        NoMarker(low, root.tree, es, m);
      }
    }
    return true;
  }

  lemma {:induction false} CleanedIntact(low: Fs, t: Fs, es: seq<Entry>, m: nat)
    requires Cleaned(low, t, es, m)
    ensures Intact(low, t)
  {
  }

  lemma {:induction false} NoMarker(low: Fs, t: Fs, es: seq<Entry>, m: nat)
    requires m < |es| && Cleaned(low, t, es, m) && !es[m].whiteout.Some?
    ensures Cleaned(low, t, es, m + 1)
  {
  }

  /** What applying a layer to `low` promises of the resulting tree. */
  ghost predicate Overlaid(low: Fs, t: Fs, es: seq<Entry>) {
    && t.Closed()
    && (forall p :: t.At(p) == Overlay(low.At, es, p))
    && (forall i :: i in low.nodes ==> i in t.nodes && t.nodes[i] == low.nodes[i])
    && (forall p :: p in t.names && !DirOf(es, p) && IndexOf(es, |es|, p) < 0 ==>
          p in low.names && t.names[p] == low.names[p])
    && (forall i: nat :: i < |es| ==> InodeFits(low, t, es[i]))
  }

  lemma {:induction false} CleanedIsOverlaid(low: Fs, t: Fs, es: seq<Entry>)
    requires low.Closed() && WellFormed(es) && Cleaned(low, t, es, |es|)
    ensures Overlaid(low, t, es)
  {
    forall p
      ensures t.At(p) == Overlay(low.At, es, p)
    {
      var j := IndexOf(es, |es|, p);
    }
    forall p | p in t.names && !DirOf(es, p) && IndexOf(es, |es|, p) < 0
      ensures p in low.names && t.names[p] == low.names[p]
    {
      assert t.At(p) != None;
    }
  }

  /** The passes of `apply` over a plan: it is accepted exactly when `Accepted` says so,
      and then leaves its overlay. */
  method ApplyPlan(root: Root, es: seq<Entry>) returns (ok: bool)
    requires root.tree.Closed() && WellFormed(es)
    modifies root
    ensures Intact(old(root.tree), root.tree)
    ensures old(root.faults) <= root.faults
    ensures ok <==> root.faults == old(root.faults) && Accepted(old(root.tree.At), es)
    ensures ok ==> Overlaid(old(root.tree), root.tree, es)
  {
    ghost var low := root.tree;
    hide *;
    AcceptedParts(low, es);
    ok := ApplyWhiteouts(root, es);
    if !ok { return; }
    ok := PrepareReplacements(root, es, low);
    if !ok { return; }
    PreparedIsUnpacked(low, root.tree, es);
    ok := Unpack(root, es, low);
    if !ok { return; }
    UnpackedIsCleaned(low, root.tree, es);
    ok := RemoveMarkers(root, es, low);
    if ok {
      CleanedIsOverlaid(low, root.tree, es);
    }
  }

  lemma {:induction false} AcceptedParts(low: Fs, es: seq<Entry>)
    requires WellFormed(es)
    ensures Planned(es)
    ensures Accepted(low.At, es) <==>
            && OpaquesFit(low.At, es, |es|) && RemovalsFit(low.At, es, |es|)
            && EntriesFit(low.At, es, |es|, true) && EntriesFit(low.At, es, |es|, false)
            && LinksResolve(low.At, es, |es|)
  {
  }
}
