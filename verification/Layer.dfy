/** An OCI layer as planned by `inspect`, and what applying it is meant to do:
    the overlay it leaves on a lower tree, and exactly when it is accepted. */
module Layer {
  import opened Optional
  import opened Tree

  datatype Kind = Directory | Regular(data: string) | SymlinkTo(text: string) | HardLinkTo(source: Path)

  datatype Whiteout = Remove(target: Path) | Opaque(directory: Path)

  /** A planned archive member; the marker of a whiteout is the member's own path. */
  datatype Entry = Entry(path: Path, kind: Kind, whiteout: Option<Whiteout>)

  type View = Path -> Option<Node>

  /** What `inspect` guarantees of every plan it returns. */
  ghost predicate Planned(es: seq<Entry>) {
    && (forall i :: 0 <= i < |es| ==> es[i].path != [] && MarkerFits(es[i]))
    && (forall i, j :: 0 <= i < j < |es| ==> es[i].path != es[j].path)
  }

  predicate MarkerFits(e: Entry)
    requires e.path != []
  {
    match e.whiteout
    case None => true
    case Some(Remove(t)) => e.kind == Regular("") && t != [] && t != e.path && Parent(t) == Parent(e.path)
    case Some(Opaque(d)) => e.kind == Regular("") && d == Parent(e.path)
  }

  /** No member lies below a member that is not a directory. The code does not check this. */
  ghost predicate NothingUnderLeaves(es: seq<Entry>) {
    forall i, j :: 0 <= i < |es| && 0 <= j < |es| && !es[i].kind.Directory? ==> !Below(es[i].path, es[j].path)
  }

  ghost predicate WellFormed(es: seq<Entry>) {
    Planned(es) && NothingUnderLeaves(es)
  }

  // What one member does to the path `p`.

  predicate Opaques(e: Entry, p: Path) {
    e.whiteout.Some? && e.whiteout.value.Opaque? && AtOrBelow(e.whiteout.value.directory, p)
  }

  predicate Removes(e: Entry, p: Path) {
    e.whiteout.Some? && e.whiteout.value.Remove? && AtOrBelow(e.whiteout.value.target, p)
  }

  predicate Replaces(e: Entry, p: Path) {
    !e.kind.Directory? && AtOrBelow(e.path, p)
  }

  predicate Makes(e: Entry, p: Path) {
    Below(p, e.path) || (e.kind.Directory? && p == e.path)
  }

  predicate HidesAt(e: Entry, p: Path) {
    || (Opaques(e, p) && e.whiteout.value.directory != p)
    || Removes(e, p)
    || Replaces(e, p)
  }

  // What the layer does to the path `p`.

  /** `p` is a directory of the layer, listed or implied by a member below it. */
  ghost predicate DirOf(es: seq<Entry>, p: Path) {
    p == [] || exists i :: 0 <= i < |es| && Makes(es[i], p)
  }

  /** A lower node at `p` does not show through the layer. */
  ghost predicate Hides(es: seq<Entry>, p: Path) {
    exists i :: 0 <= i < |es| && HidesAt(es[i], p)
  }

  /** The position of the member at `p` among the first `k`, or -1. */
  function IndexOf(es: seq<Entry>, k: nat, p: Path): (j: int)
    requires k <= |es|
    ensures -1 <= j < k
    ensures j >= 0 ==> es[j].path == p
    ensures j < 0 ==> forall i :: 0 <= i < k ==> es[i].path != p
  {
    if k == 0 then -1 else if es[k - 1].path == p then k - 1 else IndexOf(es, k - 1, p)
  }

  /** The node member `i` puts at its path. A hard link repeats what its source names when
      the member is reached: an earlier member, or else the lower tree. */
  function EntryNode(low: View, es: seq<Entry>, i: nat): Option<Node>
    requires i < |es|
  {
    match es[i].kind
    case Directory => Some(Dir)
    case Regular(data) => Some(File(data))
    case SymlinkTo(text) => Some(Symlink(text))
    case HardLinkTo(source) =>
      var j := IndexOf(es, i, source);
      if j >= 0 then EntryNode(low, es, j) else low(source)
  }

  /** The overlay of the layer on `low`: its directories and its members other than markers,
      then whatever of `low` is not hidden. */
  ghost function Overlay(low: View, es: seq<Entry>, p: Path): Option<Node> {
    if DirOf(es, p) then Some(Dir)
    else
      var i := IndexOf(es, |es|, p);
      if i >= 0 then if es[i].whiteout.Some? then None else EntryNode(low, es, i)
      else if Hides(es, p) then None
      else low(p)
  }

  // The lower leaves each pass has taken away by its `k`-th member.

  ghost predicate OpaquedBy(es: seq<Entry>, k: nat, p: Path)
    requires k <= |es|
  {
    exists i :: 0 <= i < k && Opaques(es[i], p)
  }

  ghost predicate RemovedBy(es: seq<Entry>, k: nat, p: Path)
    requires k <= |es|
  {
    exists i :: 0 <= i < k && Removes(es[i], p)
  }

  ghost predicate ReplacedBy(es: seq<Entry>, k: nat, p: Path)
    requires k <= |es|
  {
    exists i :: 0 <= i < k && Replaces(es[i], p)
  }

  ghost predicate ListedDir(es: seq<Entry>, p: Path) {
    exists i :: 0 <= i < |es| && es[i].kind.Directory? && es[i].path == p
  }

  ghost function OpaqueSpan(es: seq<Entry>, k: nat): iset<Path>
    requires k <= |es|
  {
    iset p: Path | OpaquedBy(es, k, p)
  }

  ghost function TargetSpan(es: seq<Entry>, k: nat): iset<Path>
    requires k <= |es|
  {
    iset p: Path | RemovedBy(es, k, p)
  }

  ghost function EntrySpan(es: seq<Entry>, k: nat): iset<Path>
    requires k <= |es|
  {
    iset p: Path | ReplacedBy(es, k, p)
  }

  ghost function DirPaths(es: seq<Entry>): iset<Path> {
    iset p: Path | ListedDir(es, p)
  }

  ghost function Whited(es: seq<Entry>): iset<Path> {
    OpaqueSpan(es, |es|) + TargetSpan(es, |es|)
  }

  /** The lower tree shows something other than a directory at `p`. */
  ghost predicate Shows(low: View, p: Path) {
    low(p) != None && low(p) != Some(Dir)
  }

  /** No lower leaf outside `gone` stands in the way of reaching `p`. */
  ghost predicate Reachable(low: View, gone: iset<Path>, p: Path) {
    forall q :: Below(q, p) && Shows(low, q) ==> q in gone
  }

  /** The `k`-th member, if an opaque marker, can be applied after those before it. */
  ghost predicate OpaqueFits(low: View, es: seq<Entry>, k: nat)
    requires k < |es|
  {
    es[k].whiteout.Some? && es[k].whiteout.value.Opaque? ==>
      Reachable(low, OpaqueSpan(es, k), es[k].whiteout.value.directory)
  }

  /** The `k`-th member, if a removing marker, can be applied after every opaque marker
      and the removing markers before it. */
  ghost predicate RemoveFits(low: View, es: seq<Entry>, k: nat)
    requires k < |es|
  {
    es[k].whiteout.Some? && es[k].whiteout.value.Remove? ==>
      Reachable(low, OpaqueSpan(es, |es|) + TargetSpan(es, k), es[k].whiteout.value.target)
  }

  ghost predicate OpaquesFit(low: View, es: seq<Entry>, k: nat)
    requires k <= |es|
  {
    forall i: nat :: i < k ==> OpaqueFits(low, es, i)
  }

  ghost predicate RemovalsFit(low: View, es: seq<Entry>, k: nat)
    requires k <= |es|
  {
    forall i: nat :: i < k ==> RemoveFits(low, es, i)
  }

  /** Member `i`'s parents are free of lower leaves once the whiteouts and the layer's
      own directories have replaced what they replace. */
  ghost predicate EntryFits(low: View, es: seq<Entry>, i: nat)
    requires i < |es|
  {
    Reachable(low, Whited(es) + DirPaths(es), es[i].path)
  }

  /** The first `k` members that are directories (or that are not) fit. */
  ghost predicate EntriesFit(low: View, es: seq<Entry>, k: nat, directories: bool)
    requires k <= |es|
  {
    forall i: nat :: i < k && es[i].kind.Directory? == directories ==> EntryFits(low, es, i)
  }

  /** The source of hard link `i` names a leaf when the member is reached. */
  ghost predicate LinkResolves(low: View, es: seq<Entry>, i: nat)
    requires i < |es|
  {
    es[i].kind.HardLinkTo? ==>
      var source := es[i].kind.source;
      var j := IndexOf(es, |es|, source);
      if j >= 0 then j < i && !es[j].kind.Directory?
      else Shows(low, source) && !DirOf(es, source) && !Hides(es, source)
  }

  ghost predicate LinksResolve(low: View, es: seq<Entry>, k: nat)
    requires k <= |es|
  {
    forall i: nat :: i < k ==> LinkResolves(low, es, i)
  }

  /** Exactly when the layer is accepted on top of `low`. */
  ghost predicate Accepted(low: View, es: seq<Entry>) {
    && OpaquesFit(low, es, |es|)
    && RemovalsFit(low, es, |es|)
    && EntriesFit(low, es, |es|, true)
    && EntriesFit(low, es, |es|, false)
    && LinksResolve(low, es, |es|)
  }
}
