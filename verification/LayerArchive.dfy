/** Applying a layer from its archive, said of the archive's own members. */
module LayerArchive {
  import opened Optional
  import opened Tree
  import opened Layer
  import opened LayerUnpack
  import opened Inspect

  // What one member does to the path `p`.

  ghost predicate MemberMakes(raw: RawEntry, p: Path) {
    match Normalized(raw.path)
    case None => false
    case Some(x) => Below(p, x) || (raw.kind.RawDirectory? && p == x)
  }

  /** A marker `.wh..wh..opq` hides all below its directory, a marker `.wh.` followed by a name
      all at or below that sibling, and what is not a directory all at or below itself. */
  ghost predicate MemberHides(raw: RawEntry, p: Path) {
    match Normalized(raw.path)
    case None => false
    case Some(x) =>
      x != [] &&
      var name := x[|x| - 1];
      || (name == ".wh..wh..opq" && Below(Parent(x), p))
      || (".wh." <= name && name != ".wh..wh..opq" && Below(Parent(x), p) && p[|x| - 1] == name[4..])
      || (!raw.kind.RawDirectory? && AtOrBelow(x, p))
  }

  /** What a member leaves at its own path. A hard link has its source's inode, unless the
      source is a marker, which is gone. */
  ghost predicate MemberShows(t: Fs, raw: RawEntry) {
    match Normalized(raw.path)
    case None => false
    case Some(x) =>
      if x == [] || raw.kind.RawDirectory? then t.At(x) == Some(Dir)
      else if ".wh." <= x[|x| - 1] then t.At(x) == None
      else
        match raw.kind
        case RawDirectory => false
        case RawFile(data) => t.At(x) == Some(File(data))
        case RawSymlink(text) => text.Some? && t.At(x) == Some(Symlink(text.value))
        case RawHardLink(link) =>
          && link.Some? && Normalized(link.value).Some? && t.Leaf(x)
          && var source := Normalized(link.value).value; source in t.names ==> t.names[x] == t.names[source]
  }

  ghost predicate MembersShow(t: Fs, raws: seq<RawEntry>) {
    forall k :: 0 <= k < |raws| ==> MemberShows(t, raws[k])
  }

  /** Off the members' own paths: parents of members are directories, what some member hides is
      gone, and the rest is as it was, under the same inode. */
  ghost predicate RestShows(low: Fs, t: Fs, raws: seq<RawEntry>) {
    && (forall p, k :: 0 <= k < |raws| && MemberMakes(raws[k], p) ==> t.At(p) == Some(Dir))
    && forall p :: p != [] && (forall k :: 0 <= k < |raws| ==> !MemberMakes(raws[k], p) && !NamedBy(raws[k], p)) ==>
         if exists k :: 0 <= k < |raws| && MemberHides(raws[k], p) then t.At(p) == None
         else t.At(p) == low.At(p) && (p in t.names ==> p in low.names && t.names[p] == low.names[p])
  }

  ghost predicate NamedBy(raw: RawEntry, p: Path) {
    Normalized(raw.path) == Some(p)
  }

  lemma {:induction false} NodeIsLeaf(low: View, es: seq<Entry>, i: nat)
    requires Planned(es) && LinksResolve(low, es, |es|) && i < |es| && !es[i].kind.Directory?
    ensures EntryNode(low, es, i) != None && EntryNode(low, es, i) != Some(Dir)
  {
    if es[i].kind.HardLinkTo? {
      assert LinkResolves(low, es, i);
      var j := IndexOf(es, |es|, es[i].kind.source);
      if j >= 0 {
        assert IndexOf(es, i, es[i].kind.source) == j;
        NodeIsLeaf(low, es, j);
      }
    }
  }

  /** One entry makes and hides what its member does. */
  lemma {:induction false} EntryDoes(raw: RawEntry, e: Entry, p: Path)
    requires PlannedAs(raw, e)
    ensures Makes(e, p) <==> MemberMakes(raw, p)
    ensures HidesAt(e, p) <==> MemberHides(raw, p)
  {
    var x := e.path;
    var name := x[|x| - 1];
    if e.whiteout.Some? && e.whiteout.value.Remove? {
      var t := e.whiteout.value.target;
      assert t == Parent(x) + [t[|t| - 1]] && name[4..] == t[|t| - 1];
      assert AtOrBelow(t, p) ==> p[|x| - 1] == t[|x| - 1];
      assert Below(Parent(x), p) ==> p[..|x|] == Parent(x) + [p[|x| - 1]];
    }
  }

  lemma {:induction false} PlanMakes(raws: seq<RawEntry>, p: Path)
    requires AllMembersSound(raws)
    ensures DirOf(PlanOf(raws), p) <==> p == [] || exists k :: 0 <= k < |raws| && MemberMakes(raws[k], p)
    ensures Hides(PlanOf(raws), p) <==> exists k :: 0 <= k < |raws| && MemberHides(raws[k], p)
  {
    hide PlannedAs, PlanOf, PlanIndex, MemberMakes, MemberHides, Makes, HidesAt, MemberSound;
    var es := PlanOf(raws);
    forall j: nat | j < |es|
      ensures exists k ::
                && 0 <= k < |raws| && (Makes(es[j], p) ==> MemberMakes(raws[k], p))
                && (HidesAt(es[j], p) ==> MemberHides(raws[k], p))
    {
      var k := EntryHasMember(raws, j);
      EntryDoes(raws[k], es[j], p);
    }
    forall k: nat | k < |raws|
      ensures MemberMakes(raws[k], p) ==> p == [] || exists j :: 0 <= j < |es| && Makes(es[j], p)
      ensures MemberHides(raws[k], p) ==> exists j :: 0 <= j < |es| && HidesAt(es[j], p)
    {
      MemberPlanned(raws, k);
      if IsRoot(raws[k]) {
        RootDoesLittle(raws[k], p);
      } else {
        EntryDoes(raws[k], es[PlanIndex(raws, k)], p);
      }
    }
  }

  lemma {:induction false} RootDoesLittle(raw: RawEntry, p: Path)
    requires IsRoot(raw)
    ensures !MemberHides(raw, p) && (MemberMakes(raw, p) ==> p == [])
  {
  }

  lemma {:induction false} AcceptedLinks(low: Fs, es: seq<Entry>)
    requires Accepted(low.At, es) && WellFormed(es)
    ensures LinksResolve(low.At, es, |es|) && Planned(es)
  {
    hide OpaquesFit, RemovalsFit, EntriesFit, LinksResolve;
  }

  /** What the overlay shows at a member's path. */
  lemma {:induction false} EntryIsShown(low: Fs, t: Fs, es: seq<Entry>, j: nat)
    requires WellFormed(es) && Accepted(low.At, es) && Overlaid(low, t, es) && j < |es|
    ensures t.At(es[j].path) ==
              if es[j].kind.Directory? then Some(Dir)
              else if es[j].whiteout.Some? then None else EntryNode(low.At, es, j)
    ensures !es[j].kind.Directory? ==> EntryNode(low.At, es, j) != None && EntryNode(low.At, es, j) != Some(Dir)
    ensures InodeFits(low, t, es[j])
  {
    AcceptedLinks(low, es);
    IndexAt(es, j);
    if es[j].kind.Directory? {
      assert Makes(es[j], es[j].path);
    } else {
      LeafNotDirOf(es, j);
      NodeIsLeaf(low.At, es, j);
    }
    hide Accepted, WellFormed, DirOf, Hides, IndexOf;
  }

  lemma {:induction false} MemberIsShown(low: Fs, t: Fs, raws: seq<RawEntry>, k: nat)
    requires AllMembersSound(raws) && NoPathTwice(raws) && k < |raws|
    requires WellFormed(PlanOf(raws)) && Accepted(low.At, PlanOf(raws)) && Overlaid(low, t, PlanOf(raws))
    ensures MemberShows(t, raws[k])
  {
    hide WellFormed, Accepted, Overlaid, PlanOf, PlanIndex, AllMembersSound, NoPathTwice, Overlay;
    MemberPlanned(raws, k);
    if IsRoot(raws[k]) {
      RootIsShown(low, t, raws);
    } else {
      EntryIsShown(low, t, PlanOf(raws), PlanIndex(raws, k));
    }
  }

  lemma {:induction false} RootIsShown(low: Fs, t: Fs, raws: seq<RawEntry>)
    requires Overlaid(low, t, PlanOf(raws))
    ensures t.At([]) == Some(Dir)
  {
    hide PlanOf, Overlay;
  }

  /** The overlay of the plan is what the members say. */
  lemma {:induction false} ArchiveShows(low: Fs, t: Fs, raws: seq<RawEntry>)
    requires AllMembersSound(raws) && NoPathTwice(raws)
    requires WellFormed(PlanOf(raws)) && Accepted(low.At, PlanOf(raws)) && Overlaid(low, t, PlanOf(raws))
    ensures MembersShow(t, raws) && RestShows(low, t, raws)
  {
    hide MemberShows, Accepted, WellFormed, PlanOf, MemberSound, MemberMakes, MemberHides, DirOf, Hides;
    forall k | 0 <= k < |raws|
      ensures MemberShows(t, raws[k])
    {
      MemberIsShown(low, t, raws, k);
    }
    forall p
      ensures DirOf(PlanOf(raws), p) <==> p == [] || exists k :: 0 <= k < |raws| && MemberMakes(raws[k], p)
      ensures Hides(PlanOf(raws), p) <==> exists k :: 0 <= k < |raws| && MemberHides(raws[k], p)
      ensures (forall k :: 0 <= k < |raws| ==> !NamedBy(raws[k], p)) ==> IndexOf(PlanOf(raws), |PlanOf(raws)|, p) < 0
    {
      PlanMakes(raws, p);
      NamedByMember(raws, p);
    }
  }

  lemma {:induction false} NamedByMember(raws: seq<RawEntry>, p: Path)
    requires AllMembersSound(raws)
    ensures (forall k :: 0 <= k < |raws| ==> !NamedBy(raws[k], p)) ==> IndexOf(PlanOf(raws), |PlanOf(raws)|, p) < 0
  {
    var j := IndexOf(PlanOf(raws), |PlanOf(raws)|, p);
    if j >= 0 {
      var k := EntryHasMember(raws, j);
      assert NamedBy(raws[k], p);
    }
  }

  /** `apply`: an archive is refused untouched when a member is unsound or a path repeats;
      otherwise its plan decides. */
  method Apply(root: Root, raws: seq<RawEntry>) returns (ok: bool)
    requires root.tree.Closed() && NothingUnderLeaves(PlanOf(raws))
    modifies root
    ensures Intact(old(root.tree), root.tree) && old(root.faults) <= root.faults
    ensures ok <==>
              && root.faults == old(root.faults)
              && AllMembersSound(raws) && NoPathTwice(raws) && Accepted(old(root.tree.At), PlanOf(raws))
    ensures ok ==> MembersShow(root.tree, raws) && RestShows(old(root.tree), root.tree, raws)
    ensures ok ==> Overlaid(old(root.tree), root.tree, PlanOf(raws))
    ensures !AllMembersSound(raws) || !NoPathTwice(raws) ==> root.tree == old(root.tree)
  {
    hide *;
    ghost var low := root.tree;
    ClosedIsIntact(low);
    var readable := root.HostCall();
    if !readable {
      return false;
    }
    var plan := InspectArchive(raws);
    if plan.Err? {
      return false;
    }
    PlannedIsWellFormed(plan.value);
    ok := ApplyPlan(root, plan.value);
    if ok {
      ArchiveShows(low, root.tree, raws);
    }
  }

  lemma {:induction false} ClosedIsIntact(t: Fs)
    requires t.Closed()
    ensures Intact(t, t)
  {
  }

  lemma {:induction false} PlannedIsWellFormed(es: seq<Entry>)
    requires Planned(es) && NothingUnderLeaves(es)
    ensures WellFormed(es)
  {
  }
}
