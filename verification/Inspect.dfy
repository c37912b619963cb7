/** Reading a tar archive into a plan: path normalisation, whiteout recognition and
    the checks that refuse a layer before anything is touched. */
module Inspect {
  import opened Optional
  import opened Tree
  import opened Layer

  datatype Component = RootDir | CurDir | ParentDir | Normal(name: Name)

  /** The member kinds the plan tells apart; `data` is the body, whose length the header gives. */
  datatype RawKind =
    | RawDirectory
    | RawFile(data: string)
    | RawSymlink(text: Option<string>)
    | RawHardLink(link: Option<seq<Component>>)

  datatype RawEntry = RawEntry(path: seq<Component>, kind: RawKind)

  datatype Refusal =
    | UnsafePath | RootNotDirectory | MissingLinkTarget | UnsafeLinkTarget
    | WhiteoutNotEmptyFile | WhiteoutWithoutTarget | WhiteoutUnsafeTarget | DuplicateEntry

  datatype Result<+T> = Ok(value: T) | Err(refusal: Refusal)

  const WHITEOUT_PREFIX := ".wh."
  const OPAQUE_NAME := ".wh..wh..opq"

  predicate Relative(cs: seq<Component>) {
    forall c :: c in cs ==> c.Normal? || c.CurDir?
  }

  /** `normalize_relative`. */
  function Normalized(cs: seq<Component>): (r: Option<Path>)
    ensures r.Some? <==> Relative(cs)
    ensures r.Some? ==> |r.value| <= |cs|
  {
    if cs == [] then Some([])
    else
      match Normalized(cs[..|cs| - 1])
      case None => assert cs == cs[..|cs| - 1] + [cs[|cs| - 1]]; None
      case Some(p) =>
        assert cs == cs[..|cs| - 1] + [cs[|cs| - 1]];
        match cs[|cs| - 1]
        case Normal(name) => Some(p + [name])
        case CurDir => Some(p)
        case _ => assert cs[|cs| - 1] in cs; None
  }

  lemma {:induction false} NormalizedOne(c: Component)
    ensures Normalized([c]) == match c
                               case Normal(name) => Some([name])
                               case CurDir => Some([])
                               case _ => None
  {
    assert Normalized([c][..0]) == Some([]);
    assert forall name: Name :: [] + [name] == [name];
  }

  /** Normalising goes component by component (`NormalizedOne`), and what a component gives
      stays in its place; one that gives nothing spoils the whole. */
  lemma {:induction false} NormalizedJoins(cs: seq<Component>, ds: seq<Component>)
    ensures Normalized(cs + ds) == match (Normalized(cs), Normalized(ds))
                                   case (Some(p), Some(q)) => Some(p + q)
                                   case _ => None
  {
    if ds == [] {
      assert cs + ds == cs;
      assert Normalized(cs).Some? ==> Normalized(cs).value + [] == Normalized(cs).value;
    } else {
      var front := ds[..|ds| - 1];
      assert (cs + ds)[..|cs + ds| - 1] == cs + front;
      NormalizedJoins(cs, front);
      if Normalized(cs).Some? && Normalized(front).Some? {
        var p, q := Normalized(cs).value, Normalized(front).value;
        assert p + [] == p && forall name :: p + (q + [name]) == (p + q) + [name];
      }
    }
  }

  function Components(p: Path): seq<Component> {
    if p == [] then [] else Components(Parent(p)) + [Normal(p[|p| - 1])]
  }

  /** A path that is normalised already stays as it is. */
  lemma {:induction false} NormalizedAgain(p: Path)
    ensures Normalized(Components(p)) == Some(p)
  {
    if p != [] {
      hide Normalized;
      var front, last := Parent(p), p[|p| - 1];
      NormalizedAgain(front);
      NormalizedJoins(Components(front), [Normal(last)]);
      NormalizedOne(Normal(last));
      assert front + [last] == p;
    }
  }

  /** `Whiteout::new` for a member at the non-empty path `p`. */
  function WhiteoutOf(p: Path, kind: RawKind): (r: Result<Option<Whiteout>>)
    requires p != []
  {
    var name := p[|p| - 1];
    if !(WHITEOUT_PREFIX <= name) then Ok(None)
    else if kind != RawFile("") then Err(WhiteoutNotEmptyFile)
    else if name == OPAQUE_NAME then Ok(Some(Opaque(Parent(p))))
    else
      var target := name[|WHITEOUT_PREFIX|..];
      if target == "" then Err(WhiteoutWithoutTarget)
      else if target == "." || target == ".." then Err(WhiteoutUnsafeTarget)
      else Ok(Some(Remove(Parent(p) + [target])))
  }

  function KindOf(kind: RawKind): Result<Kind> {
    match kind
    case RawDirectory => Ok(Directory)
    case RawFile(data) => Ok(Regular(data))
    case RawSymlink(None) => Err(MissingLinkTarget)
    case RawSymlink(Some(text)) => Ok(SymlinkTo(text))
    case RawHardLink(None) => Err(MissingLinkTarget)
    case RawHardLink(Some(link)) =>
      match Normalized(link)
      case None => Err(UnsafeLinkTarget)
      case Some(source) => Ok(HardLinkTo(source))
  }

  /** `ArchiveEntry::new`; the root directory itself is dropped. */
  function EntryOf(raw: RawEntry): Result<Option<Entry>> {
    match Normalized(raw.path)
    case None => Err(UnsafePath)
    case Some(p) =>
      if p == [] then if raw.kind.RawDirectory? then Ok(None) else Err(RootNotDirectory)
      else
        match KindOf(raw.kind)
        case Err(refusal) => Err(refusal)
        case Ok(kind) =>
          match WhiteoutOf(p, raw.kind)
          case Err(refusal) => Err(refusal)
          case Ok(whiteout) => Ok(Some(Entry(p, kind, whiteout)))
  }

  /** The plan the first members of an archive make, if each of them is sound. */
  function PlanOf(raws: seq<RawEntry>): seq<Entry> {
    if raws == [] then []
    else
      PlanOf(raws[..|raws| - 1]) +
      match EntryOf(raws[|raws| - 1])
      case Ok(Some(e)) => [e]
      case _ => []
  }

  ghost predicate Distinct(es: seq<Entry>) {
    forall i, j :: 0 <= i < j < |es| ==> es[i].path != es[j].path
  }

  // What is asked of a member, and what the plan says of it, in terms of the member alone.

  predicate IsRoot(raw: RawEntry) {
    Normalized(raw.path) == Some([])
  }

  /** Its links, if it is one, have what they need. */
  predicate LinkSound(kind: RawKind) {
    && (kind.RawSymlink? ==> kind.text.Some?)
    && (kind.RawHardLink? ==> kind.link.Some? && Normalized(kind.link.value).Some?)
  }

  /** A relative path; the root only as a directory; a link has a target, a relative one if it
      is a hard link; and a `.wh.` name only on an empty file, followed by a basename. */
  ghost predicate MemberSound(raw: RawEntry) {
    match Normalized(raw.path)
    case None => false
    case Some(p) =>
      if p == [] then raw.kind.RawDirectory?
      else
        && LinkSound(raw.kind)
        && (".wh." <= p[|p| - 1] ==>
              raw.kind == RawFile("") && p[|p| - 1] != ".wh." && p[|p| - 1] != ".wh.." && p[|p| - 1] != ".wh...")
  }

  ghost predicate AllMembersSound(raws: seq<RawEntry>) {
    forall i :: 0 <= i < |raws| ==> MemberSound(raws[i])
  }

  /** No two members but the root's normalise to the same path. */
  ghost predicate NoPathTwice(raws: seq<RawEntry>) {
    forall i, j :: 0 <= i < j < |raws| && !IsRoot(raws[i]) ==> Normalized(raws[i].path) != Normalized(raws[j].path)
  }

  /** The entry carries the member's path, kind and body, and the whiteout its name spells. */
  ghost predicate PlannedAs(raw: RawEntry, e: Entry) {
    && Normalized(raw.path) == Some(e.path) && e.path != []
    && (match raw.kind
        case RawDirectory => e.kind == Directory
        case RawFile(data) => e.kind == Regular(data)
        case RawSymlink(text) => text.Some? && e.kind == SymlinkTo(text.value)
        case RawHardLink(link) => link.Some? && e.kind.HardLinkTo? && Normalized(link.value) == Some(e.kind.source))
    && var name := e.path[|e.path| - 1];
       match e.whiteout
       case None => !(".wh." <= name)
       case Some(Opaque(d)) => name == ".wh..wh..opq" && d == Parent(e.path)
       case Some(Remove(t)) =>
         name != ".wh..wh..opq" && t != [] && Parent(t) == Parent(e.path) && name == ".wh." + t[|t| - 1]
  }

  /** A member is taken exactly when it is sound, and the root's entry is dropped. */
  lemma {:induction false} EntryMeans(raw: RawEntry)
    ensures EntryOf(raw).Ok? <==> MemberSound(raw)
    ensures EntryOf(raw) == Ok(None) <==> MemberSound(raw) && IsRoot(raw)
    ensures EntryOf(raw).Ok? && EntryOf(raw).value.Some? ==> PlannedAs(raw, EntryOf(raw).value.value)
  {
    if Normalized(raw.path).Some? && !IsRoot(raw) {
      var p := Normalized(raw.path).value;
      var name := p[|p| - 1];
      assert p == Parent(p) + [name];
      if ".wh." <= name {
        PrefixMeans(name);
      }
    }
  }

  lemma {:induction false} PrefixMeans(name: string)
    requires ".wh." <= name
    ensures name == ".wh." + name[4..]
    ensures name[4..] == "" <==> name == ".wh."
    ensures name[4..] == "." <==> name == ".wh.."
    ensures name[4..] == ".." <==> name == ".wh..."
  {
  }

  /** Why a single member is refused: the first of these that holds. */
  lemma {:induction false} RefusalMeans(raw: RawEntry)
    requires EntryOf(raw).Err?
    ensures match EntryOf(raw).refusal
            case UnsafePath => Normalized(raw.path).None?
            case RootNotDirectory => IsRoot(raw) && !raw.kind.RawDirectory?
            case MissingLinkTarget => !IsRoot(raw) && (raw.kind == RawSymlink(None) || raw.kind == RawHardLink(None))
            case UnsafeLinkTarget =>
              !IsRoot(raw) && raw.kind.RawHardLink? && raw.kind.link.Some? && Normalized(raw.kind.link.value).None?
            case DuplicateEntry => false
            case whiteout =>
              var p := Normalized(raw.path).value;
              && p != [] && LinkSound(raw.kind) && ".wh." <= p[|p| - 1]
              && (whiteout == WhiteoutNotEmptyFile <==> raw.kind != RawFile(""))
              && (whiteout == WhiteoutWithoutTarget <==> raw.kind == RawFile("") && p[|p| - 1] == ".wh.")
              && (whiteout == WhiteoutUnsafeTarget <==>
                    raw.kind == RawFile("") && (p[|p| - 1] == ".wh.." || p[|p| - 1] == ".wh..."))
  {
    if Normalized(raw.path).Some? && !IsRoot(raw) {
      var p := Normalized(raw.path).value;
      if ".wh." <= p[|p| - 1] {
        PrefixMeans(p[|p| - 1]);
      }
    }
  }

  /** Where in the plan the `k`-th member's entry is, or would be. */
  function PlanIndex(raws: seq<RawEntry>, k: nat): nat
    requires k <= |raws|
  {
    |PlanOf(raws[..k])|
  }

  /** Every member but the root's has its entry, in archive order. */
  lemma {:induction false} MemberPlanned(raws: seq<RawEntry>, k: nat)
    requires AllMembersSound(raws) && k < |raws|
    ensures var j := PlanIndex(raws, k);
            if IsRoot(raws[k]) then PlanIndex(raws, k + 1) == j
            else PlanIndex(raws, k + 1) == j + 1 <= |PlanOf(raws)| && PlannedAs(raws[k], PlanOf(raws)[j])
  {
    hide PlannedAs, MemberSound, EntryOf, PlanOf;
    EntryMeans(raws[k]);
    PlanStep(raws, k);
    PlanGrows(raws, k + 1);
  }

  /** Every entry is that of some member. */
  lemma {:induction false} EntryHasMember(raws: seq<RawEntry>, j: nat) returns (k: nat)
    requires AllMembersSound(raws) && j < |PlanOf(raws)|
    ensures k < |raws| && !IsRoot(raws[k]) && PlanIndex(raws, k) == j && PlannedAs(raws[k], PlanOf(raws)[j])
    decreases |raws|
  {
    hide PlannedAs, MemberSound, EntryOf;
    var front := raws[..|raws| - 1];
    EntryMeans(raws[|raws| - 1]);
    if j < |PlanOf(front)| {
      k := EntryHasMember(front, j);
      assert front[..k] == raws[..k];
    } else {
      k := |raws| - 1;
    }
  }

  lemma {:induction false} PlanIndexGrows(raws: seq<RawEntry>, i: nat, j: nat)
    requires i <= j <= |raws|
    ensures PlanIndex(raws, i) <= PlanIndex(raws, j)
  {
    PlanGrows(raws[..j], i);
    assert raws[..j][..i] == raws[..i];
  }

  lemma {:induction false} DistinctMeans(raws: seq<RawEntry>)
    requires AllMembersSound(raws)
    ensures Distinct(PlanOf(raws)) <==> NoPathTwice(raws)
  {
    hide PlannedAs, MemberSound, EntryOf, PlanOf, PlanIndex;
    var es := PlanOf(raws);
    if Distinct(es) {
      forall i: nat, j: nat | i < j < |raws| && !IsRoot(raws[i])
        ensures Normalized(raws[i].path) != Normalized(raws[j].path)
      {
        MemberPlanned(raws, i);
        MemberPlanned(raws, j);
        PlanIndexGrows(raws, i + 1, j);
        PlannedPath(raws, i);
        PlannedPath(raws, j);
      }
    }
    if NoPathTwice(raws) {
      forall a: nat, b: nat | a < b < |es|
        ensures es[a].path != es[b].path
      {
        var i := EntryHasMember(raws, a);
        var j := EntryHasMember(raws, b);
        PlannedPath(raws, i);
        PlannedPath(raws, j);
        if j < i {
          PlanIndexGrows(raws, j, i);
        }
      }
    }
  }

  /** The path of a member's entry. */
  lemma {:induction false} PlannedPath(raws: seq<RawEntry>, k: nat)
    requires AllMembersSound(raws) && k < |raws|
    ensures !IsRoot(raws[k]) ==>
              && PlanIndex(raws, k) < |PlanOf(raws)|
              && Normalized(raws[k].path) == Some(PlanOf(raws)[PlanIndex(raws, k)].path)
  {
    MemberPlanned(raws, k);
  }

  lemma {:induction false} EntryIsPlanned(raw: RawEntry)
    requires EntryOf(raw).Ok? && EntryOf(raw).value.Some?
    ensures var e := EntryOf(raw).value.value; e.path != [] && MarkerFits(e)
  {
    EntryMeans(raw);
    var e := EntryOf(raw).value.value;
    if e.whiteout.Some? && e.whiteout.value.Remove? {
      var t := e.whiteout.value.target;
      assert |e.path[|e.path| - 1]| == 4 + |t[|t| - 1]|;
    }
  }

  lemma {:induction false} PlanMarkersFit(raws: seq<RawEntry>)
    ensures forall i :: 0 <= i < |PlanOf(raws)| ==> PlanOf(raws)[i].path != [] && MarkerFits(PlanOf(raws)[i])
  {
    if raws != [] {
      PlanMarkersFit(raws[..|raws| - 1]);
      var last := raws[|raws| - 1];
      if EntryOf(last).Ok? && EntryOf(last).value.Some? {
        EntryIsPlanned(last);
      }
    }
  }

  lemma {:induction false} PlanStep(raws: seq<RawEntry>, k: nat)
    requires k < |raws|
    ensures PlanOf(raws[..k + 1]) == PlanOf(raws[..k]) +
            match EntryOf(raws[k])
            case Ok(Some(e)) => [e]
            case _ => []
  {
    assert raws[..k + 1][..k] == raws[..k];
  }

  lemma {:induction false} PlanGrows(raws: seq<RawEntry>, k: nat)
    requires k <= |raws|
    ensures PlanOf(raws[..k]) <= PlanOf(raws)
    decreases |raws|
  {
    if k == |raws| {
      assert raws[..k] == raws;
    } else {
      PlanGrows(raws[..|raws| - 1], k);
      assert raws[..|raws| - 1][..k] == raws[..k];
    }
  }

  lemma {:induction false} PlanIsPlanned(raws: seq<RawEntry>)
    requires Distinct(PlanOf(raws))
    ensures Planned(PlanOf(raws))
  {
    PlanMarkersFit(raws);
  }

  /** The `k`-th member is the first that cannot be taken after those before it. */
  ghost predicate RefusedAt(raws: seq<RawEntry>, k: nat, refusal: Refusal) {
    && k < |raws| && AllMembersSound(raws[..k]) && NoPathTwice(raws[..k])
    && if refusal == DuplicateEntry then MemberSound(raws[k]) && !NoPathTwice(raws[..k + 1])
       else EntryOf(raws[k]) == Err(refusal)
  }

  /** `inspect`: accepts an archive exactly when every member is sound and no two name the
      same path, and then returns the plan of its members in archive order. */
  method InspectArchive(raws: seq<RawEntry>) returns (r: Result<seq<Entry>>)
    ensures r.Ok? <==> AllMembersSound(raws) && NoPathTwice(raws)
    ensures r.Ok? ==> r.value == PlanOf(raws) && Planned(r.value)
    ensures r.Err? ==> exists k: nat :: RefusedAt(raws, k, r.refusal)
  {
    hide *;
    var seen: set<Path> := {};
    var planned: seq<Entry> := [];
    NothingInspected(raws);
    for k := 0 to |raws|
      invariant Inspected(raws, k, planned)
      invariant seen == set e | e in planned :: e.path
    {
      match EntryOf(raws[k]) {
        case Err(refusal) =>
          MemberRefused(raws, k, planned);
          return Err(refusal);
        case Ok(None) =>
          MemberInspected(raws, k, planned);
        case Ok(Some(entry)) =>
          MemberInspected(raws, k, planned);
          if entry.path in seen {
            return Err(DuplicateEntry);
          }
          seen := seen + {entry.path};
          planned := planned + [entry];
      }
    }
    AllInspected(raws, planned);
    return Ok(planned);
  }

  /** The first `k` members are taken, and `planned` is their plan. */
  ghost predicate Inspected(raws: seq<RawEntry>, k: nat, planned: seq<Entry>)
    requires k <= |raws|
  {
    AllMembersSound(raws[..k]) && NoPathTwice(raws[..k]) && planned == PlanOf(raws[..k]) && Distinct(planned)
  }

  lemma {:induction false} NothingInspected(raws: seq<RawEntry>)
    ensures Inspected(raws, 0, [])
  {
  }

  lemma {:induction false} MemberRefused(raws: seq<RawEntry>, k: nat, planned: seq<Entry>)
    requires k < |raws| && Inspected(raws, k, planned) && EntryOf(raws[k]).Err?
    ensures !AllMembersSound(raws) && RefusedAt(raws, k, EntryOf(raws[k]).refusal)
  {
    hide MemberSound, EntryOf;
    EntryMeans(raws[k]);
    RefusalMeans(raws[k]);
  }

  lemma {:induction false} MemberInspected(raws: seq<RawEntry>, k: nat, planned: seq<Entry>)
    requires k < |raws| && Inspected(raws, k, planned) && EntryOf(raws[k]).Ok?
    ensures match EntryOf(raws[k]).value
            case None => Inspected(raws, k + 1, planned)
            case Some(entry) =>
              if exists e :: e in planned && e.path == entry.path then
                !NoPathTwice(raws) && RefusedAt(raws, k, DuplicateEntry)
              else Inspected(raws, k + 1, planned + [entry])
  {
    hide MemberSound, EntryOf, PlanOf, IsRoot, Normalized;
    EntryMeans(raws[k]);
    PlanStep(raws, k);
    var more := raws[..k + 1];
    assert more == raws[..k] + [raws[k]];
    DistinctMeans(more);
    assert NoPathTwice(raws) ==> NoPathTwice(more);
    if EntryOf(raws[k]).value.Some? {
      var entry := EntryOf(raws[k]).value.value;
      assert (planned + [entry])[|planned|] == entry;
      if e :| e in planned && e.path == entry.path {
        var i :| 0 <= i < |planned| && planned[i] == e;
        assert (planned + [entry])[i] == e;
      }
    }
  }

  lemma {:induction false} AllInspected(raws: seq<RawEntry>, planned: seq<Entry>)
    requires Inspected(raws, |raws|, planned)
    ensures AllMembersSound(raws) && NoPathTwice(raws) && planned == PlanOf(raws) && Planned(planned)
  {
    assert raws[..|raws|] == raws;
    PlanIsPlanned(raws);
  }
}
