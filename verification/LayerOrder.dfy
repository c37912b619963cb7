/** How far the order of the members in the archive matters: not at all for what an accepted
    layer shows, and exactly how far for whether it is accepted. */
module LayerOrder {
  import opened Optional
  import opened Tree
  import opened Layer
  import opened LayerApply
  import opened Inspect

  ghost predicate SameMembers(es: seq<Entry>, fs: seq<Entry>) {
    forall e :: e in es <==> e in fs
  }

  lemma {:induction false} SameSpans(es: seq<Entry>, fs: seq<Entry>, p: Path)
    requires SameMembers(es, fs)
    ensures DirOf(es, p) ==> DirOf(fs, p)
    ensures Hides(es, p) ==> Hides(fs, p)
  {
    if p != [] && DirOf(es, p) {
      var i :| 0 <= i < |es| && Makes(es[i], p);
      assert es[i] in fs;
      var j :| 0 <= j < |fs| && fs[j] == es[i];
      assert Makes(fs[j], p);
    }
    if Hides(es, p) {
      var i :| 0 <= i < |es| && HidesAt(es[i], p);
      assert es[i] in fs;
      var j :| 0 <= j < |fs| && fs[j] == es[i];
      assert HidesAt(fs[j], p);
    }
  }

  lemma {:induction false} MemberMoves(es: seq<Entry>, fs: seq<Entry>, p: Path)
    requires SameMembers(es, fs)
    ensures var i, j := IndexOf(es, |es|, p), IndexOf(fs, |fs|, p);
            i >= 0 ==> j >= 0 && (Planned(fs) ==> fs[j] == es[i])
  {
    assert IndexOf(es, |es|, p) >= 0 ==> es[IndexOf(es, |es|, p)] in fs;
  }

  /** A member's node is the same in every order in which the hard links resolve. */
  lemma {:induction false} NodeMoves(low: View, es: seq<Entry>, fs: seq<Entry>, i: nat, j: nat)
    requires Planned(es) && Planned(fs) && SameMembers(es, fs)
    requires LinksResolve(low, es, |es|) && LinksResolve(low, fs, |fs|)
    requires i < |es| && j < |fs| && es[i] == fs[j]
    ensures EntryNode(low, es, i) == EntryNode(low, fs, j)
    decreases i
  {
    if es[i].kind.HardLinkTo? {
      assert LinkResolves(low, es, i) && LinkResolves(low, fs, j);
      var source := es[i].kind.source;
      var m, n := IndexOf(es, |es|, source), IndexOf(fs, |fs|, source);
      MemberMoves(es, fs, source);
      MemberMoves(fs, es, source);
      if m >= 0 {
        assert IndexOf(es, i, source) == m && IndexOf(fs, j, source) == n;
        NodeMoves(low, es, fs, m, n);
      }
    }
  }

  /** The overlay is the same in every order in which the hard links resolve, so in every
      order that is accepted: whiteouts hide only what lies underneath the layer. */
  lemma {:induction false} OrderDoesNotShow(low: View, es: seq<Entry>, fs: seq<Entry>, p: Path)
    requires Planned(es) && Planned(fs) && SameMembers(es, fs)
    requires LinksResolve(low, es, |es|) && LinksResolve(low, fs, |fs|)
    ensures Overlay(low, es, p) == Overlay(low, fs, p)
  {
    SameSpans(es, fs, p);
    SameSpans(fs, es, p);
    var i, j := IndexOf(es, |es|, p), IndexOf(fs, |fs|, p);
    MemberMoves(es, fs, p);
    MemberMoves(fs, es, p);
    if i >= 0 {
      NodeMoves(low, es, fs, i, j);
    }
  }

  const OPAQUE: Name := ".wh..wh..opq"

  function Marker(d: Path): Entry {
    Entry(d + [OPAQUE], Regular(""), Some(Opaque(d)))
  }

  lemma {:induction false} MarkersWellFormed(d: Path, x: Name)
    requires x != OPAQUE
    ensures var outer, inner := Marker(d), Marker(d + [x]); WellFormed([outer, inner]) && WellFormed([inner, outer])
  {
    var outer, inner := Marker(d), Marker(d + [x]);
    assert outer.path[|d|] == OPAQUE && inner.path[|d|] == x;
    assert |inner.path| == |outer.path| + 1;
    assert Parent(outer.path) == d && Parent(inner.path) == d + [x];
  }

  /** Over a lower tree with a single leaf, at `d`, opaque markers in `d` and in a directory
      below it are accepted in this order and refused in the other. */
  lemma {:induction false} OrderDecidesAcceptance(low: View, d: Path, x: Name)
    requires d != [] && x != OPAQUE && forall q :: Shows(low, q) <==> q == d
    ensures var outer, inner := Marker(d), Marker(d + [x]);
            && WellFormed([outer, inner]) && WellFormed([inner, outer])
            && Accepted(low, [outer, inner]) && !Accepted(low, [inner, outer])
  {
    MarkersWellFormed(d, x);
    hide WellFormed, Planned, Marker;
    var outer, inner := Marker(d), Marker(d + [x]);
    var es, fs := [outer, inner], [inner, outer];
    MarkerIs(d);
    MarkerIs(d + [x]);
    assert Opaques(es[0], d) && OpaquedBy(es, 1, d) && OpaquedBy(es, 2, d);
    assert forall k: nat :: k < 2 ==> EntryFits(low, es, k) && OpaqueFits(low, es, k);
    assert Below(d, d + [x]) && !OpaquedBy(fs, 0, d);
    assert !OpaqueFits(low, fs, 0);
  }

  lemma {:induction false} MarkerIs(d: Path)
    ensures Marker(d).path == d + [OPAQUE] && Marker(d).whiteout == Some(Opaque(d)) && Marker(d).kind == Regular("")
  {
  }

  /** Such a tree: its root, and a symlink in it. */
  lemma {:induction false} OrderDecidesOnSymlink()
    ensures var low: View := p => if p == [] then Some(Dir) else if p == ["a"] then Some(Symlink("x")) else None;
            && Accepted(low, [Marker(["a"]), Marker(["a", "b"])])
            && !Accepted(low, [Marker(["a", "b"]), Marker(["a"])])
  {
    hide Accepted, Marker;
    var low: View := p => if p == [] then Some(Dir) else if p == ["a"] then Some(Symlink("x")) else None;
    assert OPAQUE[0] == '.';
    OrderDecidesAcceptance(low, ["a"], "b");
    assert ["a"] + ["b"] == ["a", "b"];
  }

  /** Among the whiteouts of one sort, the shallower come first. */
  ghost predicate ShallowFirst(fs: seq<Entry>) {
    forall i, j :: 0 <= i < j < |fs| ==>
      match (fs[i].whiteout, fs[j].whiteout)
      case (Some(Opaque(d)), Some(Opaque(e))) => |d| <= |e|
      case (Some(Remove(t)), Some(Remove(u))) => |t| <= |u|
      case _ => true
  }

  lemma {:induction false} Relocate(es: seq<Entry>, fs: seq<Entry>, i: nat) returns (j: nat)
    requires SameMembers(es, fs) && i < |es|
    ensures j < |fs| && fs[j] == es[i]
  {
    assert es[i] in fs;
    j :| 0 <= j < |fs| && fs[j] == es[i];
  }

  lemma {:induction false} SpansMove(es: seq<Entry>, fs: seq<Entry>, p: Path)
    requires SameMembers(es, fs)
    ensures p in Whited(es) + DirPaths(es) ==> p in Whited(fs) + DirPaths(fs)
    ensures p in OpaqueSpan(es, |es|) ==> p in OpaqueSpan(fs, |fs|)
  {
    forall i: nat | i < |es|
      ensures exists j: nat :: j < |fs| && fs[j] == es[i]
    {
      var j := Relocate(es, fs, i);
    }
    if OpaquedBy(es, |es|, p) {
      var i: nat :| i < |es| && Opaques(es[i], p);
      var j := Relocate(es, fs, i);
      assert Opaques(fs[j], p);
    } else if RemovedBy(es, |es|, p) {
      var i: nat :| i < |es| && Removes(es[i], p);
      var j := Relocate(es, fs, i);
      assert Removes(fs[j], p);
    }
  }

  /** An order that takes the shallower whiteouts first, and in which the hard links resolve,
      is accepted whenever any order is. */
  lemma {:induction false} ShallowFirstSuffices(low: View, es: seq<Entry>, fs: seq<Entry>)
    requires Planned(es) && Planned(fs) && SameMembers(es, fs) && ShallowFirst(fs)
    requires Accepted(low, es) && LinksResolve(low, fs, |fs|)
    ensures Accepted(low, fs)
  {
    forall k: nat | k < |fs|
      ensures OpaqueFits(low, fs, k) && RemoveFits(low, fs, k) && EntryFits(low, fs, k) && LinkResolves(low, fs, k)
    {
      var m := Relocate(fs, es, k);
      assert EntryFits(low, es, m);
      forall q | Below(q, fs[k].path) && Shows(low, q)
        ensures q in Whited(fs) + DirPaths(fs)
      {
        SpansMove(es, fs, q);
      }
      match fs[k].whiteout {
        case Some(Opaque(d)) => ShallowOpaque(low, es, fs, k, m, d);
        case Some(Remove(t)) => ShallowRemove(low, es, fs, k, m, t);
        case None =>
      }
    }
  }

  lemma {:induction false} ShallowOpaque(low: View, es: seq<Entry>, fs: seq<Entry>, k: nat, m: nat, d: Path)
    requires SameMembers(es, fs) && ShallowFirst(fs)
    requires k < |fs| && m < |es| && es[m] == fs[k] && fs[k].whiteout == Some(Opaque(d))
    requires Accepted(low, es)
    ensures OpaqueFits(low, fs, k)
  {
    assert OpaqueFits(low, es, m);
    forall q | Below(q, d) && Shows(low, q)
      ensures OpaquedBy(fs, k, q)
    {
      var i: nat :| i < m && Opaques(es[i], q);
      var j := Relocate(es, fs, i);
      assert j < k && Opaques(fs[j], q);
    }
  }

  lemma {:induction false} ShallowRemove(low: View, es: seq<Entry>, fs: seq<Entry>, k: nat, m: nat, t: Path)
    requires SameMembers(es, fs) && ShallowFirst(fs)
    requires k < |fs| && m < |es| && es[m] == fs[k] && fs[k].whiteout == Some(Remove(t))
    requires Accepted(low, es)
    ensures RemoveFits(low, fs, k)
  {
    assert RemoveFits(low, es, m);
    forall q | Below(q, t) && Shows(low, q)
      ensures OpaquedBy(fs, |fs|, q) || RemovedBy(fs, k, q)
    {
      if OpaquedBy(es, |es|, q) {
        SpansMove(es, fs, q);
      } else {
        var i: nat :| i < m && Removes(es[i], q);
        var j := Relocate(es, fs, i);
        assert j < k && Removes(fs[j], q);
      }
    }
  }

  // The orders that are accepted.

  /** Nothing lower stands in the way of the whiteout, whatever comes before it. */
  ghost predicate WhiteoutFits(low: View, es: seq<Entry>, e: Entry) {
    match e.whiteout
    case None => true
    case Some(Opaque(d)) => Reachable(low, iset{}, d)
    case Some(Remove(t)) => Reachable(low, OpaqueSpan(es, |es|), t)
  }

  /** A hard link's source is a lower leaf the layer leaves alone. */
  ghost predicate LinkFits(low: View, es: seq<Entry>, e: Entry) {
    e.kind.HardLinkTo? ==>
      var source := e.kind.source;
      IndexOf(es, |es|, source) < 0 && Shows(low, source) && !DirOf(es, source) && !Hides(es, source)
  }

  /** No member depends on another coming first. */
  ghost predicate AnyOrderFits(low: View, es: seq<Entry>) {
    forall k: nat :: k < |es| ==> WhiteoutFits(low, es, es[k]) && LinkFits(low, es, es[k]) && EntryFits(low, es, k)
  }

  lemma {:induction false} FitsMove(low: View, es: seq<Entry>, fs: seq<Entry>, k: nat)
    requires Planned(es) && Planned(fs) && SameMembers(es, fs) && AnyOrderFits(low, es) && k < |fs|
    ensures OpaqueFits(low, fs, k) && RemoveFits(low, fs, k) && EntryFits(low, fs, k) && LinkResolves(low, fs, k)
  {
    var m := Relocate(fs, es, k);
    forall q | Below(q, fs[k].path) && Shows(low, q)
      ensures q in Whited(fs) + DirPaths(fs)
    {
      SpansMove(es, fs, q);
    }
    if fs[k].whiteout.Some? && fs[k].whiteout.value.Remove? {
      forall q | Below(q, fs[k].whiteout.value.target) && Shows(low, q)
        ensures q in OpaqueSpan(fs, |fs|)
      {
        SpansMove(es, fs, q);
      }
    }
    if fs[k].kind.HardLinkTo? {
      LinkMoves(low, es, fs, fs[k]);
    }
  }

  lemma {:induction false} LinkMoves(low: View, es: seq<Entry>, fs: seq<Entry>, e: Entry)
    requires SameMembers(es, fs) && LinkFits(low, es, e)
    ensures LinkFits(low, fs, e)
  {
    if e.kind.HardLinkTo? {
      var source := e.kind.source;
      SameSpans(fs, es, source);
      MemberMoves(fs, es, source);
    }
  }

  /** The same members with the `k`-th in front. */
  function First(es: seq<Entry>, k: nat): (fs: seq<Entry>)
    requires k < |es|
  {
    [es[k]] + es[..k] + es[k + 1..]
  }

  lemma {:induction false} FirstIsPlanned(es: seq<Entry>, k: nat)
    requires Planned(es) && k < |es|
    ensures First(es, k) != [] && First(es, k)[0] == es[k]
    ensures Planned(First(es, k)) && SameMembers(es, First(es, k))
  {
    var fs := First(es, k);
    forall e
      ensures e in es <==> e in fs
    {
      assert es == es[..k] + [es[k]] + es[k + 1..];
    }
  }

  /** A member accepted in front of all others depends on none of them. */
  lemma {:induction false} FirstFits(low: View, es: seq<Entry>, fs: seq<Entry>, k: nat)
    requires Planned(es) && Planned(fs) && SameMembers(es, fs) && k < |es| && fs != [] && fs[0] == es[k]
    requires Accepted(low, fs)
    ensures WhiteoutFits(low, es, es[k]) && LinkFits(low, es, es[k]) && EntryFits(low, es, k)
  {
    assert OpaqueFits(low, fs, 0) && RemoveFits(low, fs, 0) && EntryFits(low, fs, 0) && LinkResolves(low, fs, 0);
    assert OpaqueSpan(fs, 0) == iset{} && TargetSpan(fs, 0) == iset{};
    forall q | Below(q, es[k].path) && Shows(low, q)
      ensures q in Whited(es) + DirPaths(es)
    {
      SpansMove(fs, es, q);
    }
    if es[k].whiteout.Some? && es[k].whiteout.value.Remove? {
      forall q | Below(q, es[k].whiteout.value.target) && Shows(low, q)
        ensures q in OpaqueSpan(es, |es|)
      {
        SpansMove(fs, es, q);
      }
    }
    if es[k].kind.HardLinkTo? {
      LinkMoves(low, fs, es, es[k]);
    }
  }

  /** Exactly when a layer is accepted whatever the order of its members in the archive. */
  lemma {:induction false} AcceptedInEveryOrder(low: View, es: seq<Entry>)
    requires Planned(es)
    ensures (forall fs :: Planned(fs) && SameMembers(es, fs) ==> Accepted(low, fs)) <==> AnyOrderFits(low, es)
  {
    hide Planned, SameMembers, Accepted, First, OpaqueFits, RemoveFits, EntryFits, LinkResolves, WhiteoutFits, LinkFits;
    forall fs | Planned(fs) && SameMembers(es, fs) && AnyOrderFits(low, es)
      ensures Accepted(low, fs)
    {
      forall k: nat | k < |fs|
        ensures OpaqueFits(low, fs, k) && RemoveFits(low, fs, k) && EntryFits(low, fs, k) && LinkResolves(low, fs, k)
      {
        FitsMove(low, es, fs, k);
      }
      AllFit(low, fs);
    }
    if forall fs :: Planned(fs) && SameMembers(es, fs) ==> Accepted(low, fs) {
      forall k: nat | k < |es|
        ensures WhiteoutFits(low, es, es[k]) && LinkFits(low, es, es[k]) && EntryFits(low, es, k)
      {
        FirstIsPlanned(es, k);
        FirstFits(low, es, First(es, k), k);
      }
    }
  }

  lemma {:induction false} AllFit(low: View, es: seq<Entry>)
    requires forall k: nat :: k < |es| ==>
               OpaqueFits(low, es, k) && RemoveFits(low, es, k) && EntryFits(low, es, k) && LinkResolves(low, es, k)
    ensures Accepted(low, es)
  {
    hide OpaqueFits, RemoveFits, EntryFits, LinkResolves;
  }

  /** Two orders of the same members of which one is accepted and the other is not. */
  ghost predicate OrderMatters(low: View, es: seq<Entry>) {
    exists fs, gs ::
      && Planned(fs) && SameMembers(es, fs) && Accepted(low, fs)
      && Planned(gs) && SameMembers(es, gs) && !Accepted(low, gs)
  }

  lemma {:induction false} DistinctMore(ds: seq<Entry>, e: Entry)
    requires Distinct(ds) && forall x :: x in ds ==> x.path != e.path
    ensures Distinct(ds + [e])
  {
    assert forall i :: 0 <= i < |ds| ==> ds[i] in ds;
  }

  lemma {:induction false} DistinctLess(ds: seq<Entry>)
    requires Distinct(ds) && ds != []
    ensures Distinct(ds[..|ds| - 1]) && ds == ds[..|ds| - 1] + [ds[|ds| - 1]]
    ensures forall x :: x in ds[..|ds| - 1] ==> x in ds && x.path != ds[|ds| - 1].path
  {
  }

  lemma {:induction false} InsertKeepsDistinct(ds: seq<Entry>, e: Entry)
    requires ByDepth(ds) && Distinct(ds) && forall x :: x in ds ==> x.path != e.path
    ensures Distinct(InsertByDepth(ds, e))
  {
    hide Distinct;
    if ds == [] || |ds[|ds| - 1].path| <= |e.path| {
      DistinctMore(ds, e);
    } else {
      var last := ds[|ds| - 1];
      DistinctLess(ds);
      InsertKeepsDistinct(ds[..|ds| - 1], e);
      assert last in ds;
      DistinctMore(InsertByDepth(ds[..|ds| - 1], e), last);
    }
  }

  lemma {:induction false} SortKeepsDistinct(es: seq<Entry>)
    requires Distinct(es)
    ensures Distinct(SortByDepth(es))
  {
    hide Distinct, ByDepth, InsertByDepth;
    if es == [] {
      assert SortByDepth(es) == es;
    } else {
      DistinctLess(es);
      SortKeepsDistinct(es[..|es| - 1]);
      InsertKeepsDistinct(SortByDepth(es[..|es| - 1]), es[|es| - 1]);
    }
  }

  /** Sorting by depth is an order that takes the shallower whiteouts first. */
  lemma {:induction false} SortedIsShallowFirst(es: seq<Entry>)
    requires Planned(es)
    ensures var shallow := SortByDepth(es); Planned(shallow) && SameMembers(es, shallow) && ShallowFirst(shallow)
  {
    SortKeepsDistinct(es);
    var r := SortByDepth(es);
    forall i | 0 <= i < |r|
      ensures r[i].path != [] && MarkerFits(r[i])
    {
      assert r[i] in es;
    }
  }

  /** Exactly when, without hard links, the order decides whether a layer is accepted: it is
      accepted with its members sorted by depth, and some whiteout relies on one before it. */
  lemma {:induction false} OrderMattersWhen(low: View, es: seq<Entry>)
    requires Planned(es) && forall e :: e in es ==> !e.kind.HardLinkTo?
    ensures OrderMatters(low, es) <==> Accepted(low, SortByDepth(es)) && !AnyOrderFits(low, es)
  {
    hide *;
    AcceptedInEveryOrder(low, es);
    SortedIsShallowFirst(es);
    OrdersDiffer(low, es);
    if OrderMatters(low, es) {
      var fs :| Planned(fs) && SameMembers(es, fs) && Accepted(low, fs);
      SameSwap(es, fs, SortByDepth(es));
      LinksNone(low, es, SortByDepth(es));
      ShallowFirstSuffices(low, fs, SortByDepth(es));
    }
  }

  lemma {:induction false} OrdersDiffer(low: View, es: seq<Entry>)
    ensures OrderMatters(low, es) <==>
              && (exists fs :: Planned(fs) && SameMembers(es, fs) && Accepted(low, fs))
              && (exists gs :: Planned(gs) && SameMembers(es, gs) && !Accepted(low, gs))
  {
    hide Planned, SameMembers, Accepted;
  }

  lemma {:induction false} SameSwap(es: seq<Entry>, fs: seq<Entry>, gs: seq<Entry>)
    requires SameMembers(es, fs) && SameMembers(es, gs)
    ensures SameMembers(fs, gs)
  {
  }

  lemma {:induction false} LinksNone(low: View, es: seq<Entry>, fs: seq<Entry>)
    requires SameMembers(es, fs) && forall e :: e in es ==> !e.kind.HardLinkTo?
    ensures LinksResolve(low, fs, |fs|)
  {
    forall k: nat | k < |fs|
      ensures LinkResolves(low, fs, k)
    {
      assert fs[k] in es;
    }
  }
}
