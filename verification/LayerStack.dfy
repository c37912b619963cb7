/** Layers applied one on another, compared with looking a path up from the top layer down. */
module LayerStack {
  import opened Optional
  import opened Tree
  import opened Layer
  import opened LayerUnpack
  import opened LayerArchive
  import opened Inspect

  /** What one layer says about a path: nothing, that it is absent, what it shows, or that
      it is whatever the layers underneath show at another path. */
  datatype Verdict = Silent | Absent | Shown(node: Node) | LinkedTo(source: Path)

  function MemberVerdict(es: seq<Entry>, i: nat): (v: Verdict)
    requires i < |es|
    ensures v.Shown? || v.LinkedTo?
  {
    match es[i].kind
    case Directory => Shown(Dir)
    case Regular(data) => Shown(File(data))
    case SymlinkTo(text) => Shown(Symlink(text))
    case HardLinkTo(source) =>
      var j := IndexOf(es, i, source);
      if j >= 0 then MemberVerdict(es, j) else LinkedTo(source)
  }

  ghost function LayerVerdict(es: seq<Entry>, p: Path): Verdict {
    if DirOf(es, p) then Shown(Dir)
    else
      var i := IndexOf(es, |es|, p);
      if i >= 0 then if es[i].whiteout.Some? then Absent else MemberVerdict(es, i)
      else if Hides(es, p) then Absent
      else Silent
  }

  /** The answer of the first layer, from the top down, that has one. Directories merge:
      a layer listing a directory says nothing about the paths below it. */
  ghost function TopDown(layers: seq<seq<Entry>>, p: Path): Option<Node> {
    if layers == [] then if p == [] then Some(Dir) else None
    else
      var under := layers[..|layers| - 1];
      match LayerVerdict(layers[|layers| - 1], p)
      case Silent => TopDown(under, p)
      case Absent => None
      case Shown(node) => Some(node)
      case LinkedTo(source) => TopDown(under, source)
  }

  ghost function StackView(layers: seq<seq<Entry>>): View {
    p => TopDown(layers, p)
  }

  /** Each layer is accepted on top of what those under it show. */
  ghost predicate AllAccepted(layers: seq<seq<Entry>>) {
    layers != [] ==>
      var under := layers[..|layers| - 1];
      AllAccepted(under) && Accepted(StackView(under), layers[|layers| - 1])
  }

  lemma {:induction false} MemberFromBelow(low: View, es: seq<Entry>, i: nat)
    requires i < |es|
    ensures EntryNode(low, es, i) == match MemberVerdict(es, i)
                                     case Shown(node) => Some(node)
                                     case LinkedTo(source) => low(source)
  {
    if es[i].kind.HardLinkTo? {
      var j := IndexOf(es, i, es[i].kind.source);
      if j >= 0 {
        MemberFromBelow(low, es, j);
      }
    }
  }

  /** Laying one more layer over a stack is looking through it first. */
  lemma {:induction false} OverlayIsTopDown(low: View, layers: seq<seq<Entry>>, es: seq<Entry>, p: Path)
    requires forall q :: low(q) == TopDown(layers, q)
    ensures Overlay(low, es, p) == TopDown(layers + [es], p)
  {
    assert (layers + [es])[..|layers|] == layers;
    var i := IndexOf(es, |es|, p);
    if i >= 0 {
      MemberFromBelow(low, es, i);
    }
  }

  /** Acceptance depends on the lower tree only through what it shows. */
  lemma {:induction false} AcceptedBySight(v: View, w: View, es: seq<Entry>)
    requires forall q :: v(q) == w(q)
    ensures Accepted(v, es) <==> Accepted(w, es)
  {
    SightHalf(v, w, es);
    SightHalf(w, v, es);
  }

  lemma {:induction false} SightHalf(v: View, w: View, es: seq<Entry>)
    requires forall q :: v(q) == w(q)
    ensures Accepted(v, es) ==> Accepted(w, es)
  {
    assert forall q :: Shows(v, q) <==> Shows(w, q);
    if Accepted(v, es) {
      forall k: nat | k < |es|
        ensures OpaqueFits(w, es, k) && RemoveFits(w, es, k) && EntryFits(w, es, k) && LinkResolves(w, es, k)
      {
        assert OpaqueFits(v, es, k) && RemoveFits(v, es, k) && EntryFits(v, es, k) && LinkResolves(v, es, k);
      }
    }
  }

  lemma {:induction false} AcceptedPrefix(layers: seq<seq<Entry>>, k: nat)
    requires k < |layers|
    ensures AllAccepted(layers[..k + 1]) <==> AllAccepted(layers[..k]) && Accepted(StackView(layers[..k]), layers[k])
  {
    assert layers[..k + 1][..k] == layers[..k];
  }

  lemma {:induction false} AcceptedPrefixes(layers: seq<seq<Entry>>, k: nat)
    requires k <= |layers| && AllAccepted(layers)
    ensures AllAccepted(layers[..k])
    decreases |layers|
  {
    if k == |layers| {
      assert layers[..k] == layers;
    } else {
      var under := layers[..|layers| - 1];
      AcceptedPrefixes(under, k);
      assert under[..k] == layers[..k];
    }
  }

  function Plans(archives: seq<seq<RawEntry>>): (r: seq<seq<Entry>>)
    ensures |r| == |archives| && forall i :: 0 <= i < |r| ==> r[i] == PlanOf(archives[i])
  {
    seq(|archives|, i requires 0 <= i < |archives| => PlanOf(archives[i]))
  }

  ghost predicate AllSound(archives: seq<seq<RawEntry>>) {
    forall i :: 0 <= i < |archives| ==> AllMembersSound(archives[i]) && NoPathTwice(archives[i])
  }

  /** The layer loop of `fetch_layers`, on an empty merged root. */
  method ApplyLayers(root: Root, archives: seq<seq<RawEntry>>) returns (ok: bool)
    requires root.tree.Closed()
    requires forall p :: root.tree.At(p) == if p == [] then Some(Dir) else None
    requires forall k :: 0 <= k < |archives| ==> NothingUnderLeaves(PlanOf(archives[k]))
    modifies root
    ensures Intact(old(root.tree), root.tree) && old(root.faults) <= root.faults
    ensures ok <==> root.faults == old(root.faults) && AllSound(archives) && AllAccepted(Plans(archives))
    ensures ok ==> forall p :: root.tree.At(p) == TopDown(Plans(archives), p)
    ensures ok && archives != [] ==> MembersShow(root.tree, archives[|archives| - 1])
  {
    hide *;
    ghost var first := root.tree;
    StackStart(first, archives);
    for k := 0 to |archives|
      invariant root.faults == old(root.faults)
      invariant Intact(first, root.tree) && Stacked(root.tree, archives, k)
      invariant k > 0 ==> MembersShow(root.tree, archives[k - 1])
    {
      ghost var low := root.tree;
      IntactClosed(first, low);
      StackStep(low, archives, k);
      var applied := Apply(root, archives[k]);
      IntactJoins(first, low, root.tree);
      if !applied {
        return false;
      }
      StackGrows(low, root.tree, archives, k);
    }
    StackDone(root.tree, archives);
    return true;
  }

  lemma {:induction false} IntactClosed(t: Fs, u: Fs)
    requires Intact(t, u)
    ensures u.Closed()
  {
  }

  /** The first `k` archives are sound and accepted, and the tree shows what they show. */
  ghost predicate Stacked(t: Fs, archives: seq<seq<RawEntry>>, k: nat)
    requires k <= |archives|
  {
    var layers := Plans(archives)[..k];
    && (forall i :: 0 <= i < k ==> AllMembersSound(archives[i]) && NoPathTwice(archives[i]))
    && AllAccepted(layers)
    && forall p :: t.At(p) == TopDown(layers, p)
  }

  lemma {:induction false} StackStart(t: Fs, archives: seq<seq<RawEntry>>)
    requires forall p :: t.At(p) == if p == [] then Some(Dir) else None
    ensures Stacked(t, archives, 0)
    ensures t.Closed() ==> Intact(t, t)
  {
  }

  /** The next archive is refused only if the whole stack is. */
  lemma {:induction false} StackStep(t: Fs, archives: seq<seq<RawEntry>>, k: nat)
    requires k < |archives| && Stacked(t, archives, k)
    ensures AllSound(archives) && AllAccepted(Plans(archives)) ==>
              AllMembersSound(archives[k]) && NoPathTwice(archives[k]) && Accepted(t.At, PlanOf(archives[k]))
  {
    var layers := Plans(archives);
    AcceptedBySight(t.At, StackView(layers[..k]), layers[k]);
    AcceptedPrefix(layers, k);
    if AllAccepted(layers) {
      AcceptedPrefixes(layers, k + 1);
    }
  }

  lemma {:induction false} StackGrows(low: Fs, t: Fs, archives: seq<seq<RawEntry>>, k: nat)
    requires k < |archives| && Stacked(low, archives, k)
    requires AllMembersSound(archives[k]) && NoPathTwice(archives[k]) && Accepted(low.At, PlanOf(archives[k]))
    requires Overlaid(low, t, PlanOf(archives[k]))
    ensures Stacked(t, archives, k + 1)
  {
    hide Accepted, AllMembersSound, NoPathTwice, PlanOf, TopDown, Overlay;
    var layers := Plans(archives);
    AcceptedBySight(low.At, StackView(layers[..k]), layers[k]);
    AcceptedPrefix(layers, k);
    assert layers[..k] + [layers[k]] == layers[..k + 1];
    forall p
      ensures t.At(p) == TopDown(layers[..k + 1], p)
    {
      OverlayIsTopDown(low.At, layers[..k], layers[k], p);
    }
  }

  lemma {:induction false} StackDone(t: Fs, archives: seq<seq<RawEntry>>)
    requires Stacked(t, archives, |archives|)
    ensures AllSound(archives) && AllAccepted(Plans(archives))
    ensures forall p :: t.At(p) == TopDown(Plans(archives), p)
  {
    assert Plans(archives)[..|archives|] == Plans(archives);
  }
}
