/** The merged root filesystem: path names, the inodes they name, and the few
    host operations the layer code performs on them. */
module Tree {
  import opened Optional

  /** A path component as `Component::Normal` yields it: never empty, `.` or `..`. */
  type Name = s: string | s != "" && s != "." && s != ".." witness "a"

  /** A path relative to the root; the root itself is the empty sequence. */
  type Path = seq<Name>

  /** `q` lies at `p` or somewhere below it. */
  predicate AtOrBelow(p: Path, q: Path) {
    p <= q
  }

  /** `q` lies strictly below `p`. */
  predicate Below(p: Path, q: Path) {
    p < q
  }

  function Parent(p: Path): Path
    requires p != []
  {
    p[..|p| - 1]
  }

  datatype Node = Dir | File(data: string) | Symlink(target: string)

  /** Names map to inode numbers, inode numbers to nodes, so two names may share a node. */
  datatype Fs = Fs(names: map<Path, nat>, nodes: map<nat, Node>) {

    ghost predicate Mapped() {
      forall p :: p in names ==> names[p] in nodes
    }

    /** What `symlink_metadata` reports for a path with no symlink among its parents. */
    function At(p: Path): (r: Option<Node>) {
      if p in names && names[p] in nodes then Some(nodes[names[p]]) else None
    }

    predicate IsDir(p: Path) {
      At(p) == Some(Dir)
    }

    /** A name for anything but a directory. */
    predicate Leaf(p: Path) {
      At(p) != None && At(p) != Some(Dir)
    }

    /** Every node's ancestors are real directories, and the root is one. */
    ghost predicate Closed() {
      && Mapped()
      && IsDir([])
      && forall p, q :: Below(q, p) && p in names ==> IsDir(q)
    }

    /** No strict ancestor of `p` is a symlink or a file; it may be missing. */
    ghost predicate Unblocked(p: Path) {
      forall q :: Below(q, p) ==> !Leaf(q)
    }
  }

  /** `t` without `x` and everything under it. */
  function Without(t: Fs, x: Path): Fs {
    t.(names := map q | q in t.names && !AtOrBelow(x, q) :: t.names[q])
  }

  /** `t` without anything strictly under `x`. */
  function Emptied(t: Fs, x: Path): Fs {
    t.(names := map q | q in t.names && !Below(x, q) :: t.names[q])
  }

  /** No existing inode is rewritten and every surviving name keeps its inode. */
  ghost predicate Extends(t: Fs, u: Fs) {
    && (forall i :: i in t.nodes ==> i in u.nodes && u.nodes[i] == t.nodes[i])
    && (forall p :: p in t.names && p in u.names ==> u.names[p] == t.names[p])
  }

  /** `u` has all of `t` and perhaps more. */
  ghost predicate Grows(t: Fs, u: Fs) {
    && (forall i :: i in t.nodes ==> i in u.nodes && u.nodes[i] == t.nodes[i])
    && (forall p :: p in t.names ==> p in u.names && u.names[p] == t.names[p])
  }

  /** `u` is `t` with every missing prefix of `p` made a directory of its own. */
  ghost predicate WithDirs(t: Fs, p: Path, u: Fs) {
    && Grows(t, u)
    && u.Closed()
    && (forall q :: u.At(q) == if AtOrBelow(q, p) then Some(Dir) else t.At(q))
  }

  /** What even a call that fails halfway keeps: the tree is closed, and no inode it had is
      rewritten. */
  ghost predicate Intact(t: Fs, u: Fs) {
    u.Closed() && forall i :: i in t.nodes ==> i in u.nodes && u.nodes[i] == t.nodes[i]
  }

  lemma {:induction false} IntactJoins(t: Fs, u: Fs, v: Fs)
    requires Intact(t, u) && Intact(u, v)
    ensures Intact(t, v)
  {
  }

  lemma {:induction false} WithoutClosed(t: Fs, x: Path)
    requires t.Closed() && x != []
    ensures Without(t, x).Closed() && Extends(t, Without(t, x))
    ensures forall q :: Without(t, x).At(q) == if AtOrBelow(x, q) then None else t.At(q)
  {
  }

  lemma {:induction false} EmptiedClosed(t: Fs, x: Path)
    requires t.Closed() && t.IsDir(x)
    ensures Emptied(t, x).Closed() && Extends(t, Emptied(t, x))
    ensures forall q :: Emptied(t, x).At(q) == if Below(x, q) then None else t.At(q)
  {
  }

  /** `t` without the subtrees rooted at the children `done` of `d`. */
  ghost function WithoutChildren(t: Fs, d: Path, done: set<Path>): Fs {
    t.(names := map q | q in t.names && !(Below(d, q) && q[..|d| + 1] in done) :: t.names[q])
  }

  lemma {:induction false} WithoutNone(t: Fs, d: Path)
    ensures WithoutChildren(t, d, {}) == t
  {
  }

  lemma {:induction false} WithoutOneMore(t: Fs, d: Path, done: set<Path>, c: Path)
    requires Below(d, c) && |c| == |d| + 1
    ensures Without(WithoutChildren(t, d, done), c) == WithoutChildren(t, d, done + {c})
  {
    assert forall q :: AtOrBelow(c, q) <==> Below(d, q) && q[..|d| + 1] == c;
    assert Without(WithoutChildren(t, d, done), c).names == WithoutChildren(t, d, done + {c}).names;
  }

  lemma {:induction false} WithoutAll(t: Fs, d: Path, done: set<Path>)
    requires t.Closed()
    requires done == set q | q in t.names && Below(d, q) && |q| == |d| + 1
    ensures WithoutChildren(t, d, done) == Emptied(t, d)
  {
    forall q | q in t.names && Below(d, q)
      ensures q[..|d| + 1] in done
    {
      var c := q[..|d| + 1];
      assert c == q || (Below(c, q) && t.IsDir(c));
    }
    assert WithoutChildren(t, d, done).names == Emptied(t, d).names;
  }

  lemma {:induction false} ChildUnblocked(t: Fs, d: Path, c: Path)
    requires t.Closed() && t.IsDir(d) && Below(d, c) && |c| == |d| + 1
    ensures t.Unblocked(c)
  {
    assert forall q :: Below(q, c) ==> q == d || Below(q, d);
  }

  /** Path resolution as the host does it: directories are entered, a symlink that is not
      the last component is followed, at most `links` times. `follow` says where the text
      of a symlink in a given directory leads. */
  function Resolve(t: Fs, at: Path, rest: Path, follow: (Path, string) -> Path, links: nat): Option<Path>
    decreases links, |rest|
  {
    if rest == [] then Some(at)
    else
      var next := at + [rest[0]];
      if |rest| == 1 then Some(next)
      else
        match t.At(next)
        case None => None
        case Some(Dir) => Resolve(t, next, rest[1..], follow, links)
        case Some(File(_)) => None
        case Some(Symlink(text)) =>
          if links == 0 then None else Resolve(t, [], follow(at, text) + rest[1..], follow, links - 1)
  }

  /** A path that passed `ensure_no_symlink_parents` resolves to itself, wherever symlinks
      elsewhere may lead, and fails to resolve only when its parent directory is missing. */
  lemma {:induction false} LexicalIsResolved(t: Fs, at: Path, rest: Path, follow: (Path, string) -> Path, links: nat)
    requires t.Closed() && t.IsDir(at) && t.Unblocked(at + rest)
    ensures Resolve(t, at, rest, follow, links) ==
            if rest == [] || t.IsDir(Parent(at + rest)) then Some(at + rest) else None
    decreases |rest|
  {
    if |rest| > 1 {
      var next := at + [rest[0]];
      assert next + rest[1..] == at + rest;
      assert Below(next, at + rest);
      if t.IsDir(next) {
        LexicalIsResolved(t, next, rest[1..], follow, links);
      } else {
        assert next == Parent(at + rest) || Below(next, Parent(at + rest));
      }
    } else if |rest| == 1 {
      assert Parent(at + rest) == at && rest == [rest[0]];
    } else {
      assert at + rest == at;
    }
  }

  /** The merged root the layers are written into. Any host call may fail of its own accord;
      `faults` counts those that did. */
  class Root {
    var tree: Fs
    ghost var faults: nat

    constructor ()
      ensures tree.Closed() && faults == 0
      ensures forall p :: tree.At(p) == if p == [] then Some(Dir) else None
    {
      tree := Fs(map[[] := 0], map[0 := Dir]);
      faults := 0;
    }

    method HostCall() returns (ok: bool)
      modifies this`faults
      ensures old(faults) <= faults
      ensures ok <==> faults == old(faults)
    {
      ok := *;
      faults := if ok then faults else faults + 1;
    }

    /** `remove_path`: a directory goes with all it holds, a leaf alone, a missing path is no
        error. Removing a directory may stop with some of what it holds gone. */
    method RemovePath(p: Path) returns (ok: bool)
      requires tree.Closed() && p != [] && tree.Unblocked(p)
      modifies this
      ensures Intact(old(tree), tree)
      ensures ok ==> tree == Without(old(tree), p)
      ensures old(faults) <= faults
      ensures ok <==> faults == old(faults)
    {
      WithoutClosed(tree, p);
      ok := HostCall();
      if !ok {
        if tree.IsDir(p) {
          RemoveSome(p);
        }
      } else if p in tree.names {
        if tree.IsDir(p) {
          tree := tree.(names := map q | q in tree.names && !AtOrBelow(p, q) :: tree.names[q]);
        } else {
          assert forall q :: q in tree.names && AtOrBelow(p, q) ==> q == p || Below(p, q);
          tree := tree.(names := tree.names - {p});
          assert tree.names == Without(old(tree), p).names;
        }
      } else {
        assert forall q :: q in tree.names && AtOrBelow(p, q) ==> q == p || Below(p, q);
        assert tree.names == Without(old(tree), p).names;
      }
    }

    /** Names at or below `p` go one by one, each when nothing is left below it. */
    method RemoveSome(p: Path)
      requires tree.Closed() && p != []
      modifies this`tree
      ensures Intact(old(tree), tree)
    {
      var n: int := *;
      while n > 0
        invariant Intact(old(tree), tree)
        decreases n
      {
        n := n - 1;
        var q: Path := *;
        if AtOrBelow(p, q) && forall r :: r in tree.names ==> !Below(q, r) {
          tree := tree.(names := tree.names - {q});
        }
      }
    }

    /** The `read_dir` loop of an opaque whiteout: every child of `d` is removed, in any order. */
    method ClearDirectory(d: Path) returns (ok: bool)
      requires tree.Closed() && tree.IsDir(d)
      modifies this
      ensures Intact(old(tree), tree)
      ensures ok ==> tree == Emptied(old(tree), d)
      ensures old(faults) <= faults
      ensures ok <==> faults == old(faults)
    {
      EmptiedClosed(tree, d);
      ghost var was := tree;
      var children := set q | q in tree.names && Below(d, q) && |q| == |d| + 1;
      ghost var all, done := children, {};
      WithoutNone(was, d);
      while children != {}
        invariant faults == old(faults)
        invariant Intact(was, tree) && children + done == all && children !! done
        invariant tree == WithoutChildren(was, d, done) && tree.IsDir(d)
        invariant forall c :: c in children ==> Below(d, c) && |c| == |d| + 1
        decreases children
      {
        var child :| child in children;
        WithoutOneMore(was, d, done, child);
        ChildUnblocked(tree, d, child);
        ok := RemovePath(child);
        if !ok {
          return;
        }
        children := children - {child};
        done := done + {child};
      }
      WithoutAll(was, d, done);
      ok := HostCall();
    }

    /** `create_dir_all`: binds the missing prefixes of `p` one after the other. */
    method CreateDirAll(p: Path) returns (ok: bool)
      requires tree.Closed() && tree.Unblocked(p) && !tree.Leaf(p)
      modifies this
      ensures Intact(old(tree), tree)
      ensures ok ==> WithDirs(old(tree), p, tree)
      ensures old(faults) <= faults
      ensures ok <==> faults == old(faults)
    {
      ghost var was := tree;
      var k := 0;
      while k < |p|
        invariant 0 <= k <= |p| && faults == old(faults)
        invariant WithDirs(was, p[..k], tree)
      {
        k := k + 1;
        assert p[..k][..k - 1] == p[..k - 1];
        assert k < |p| ==> Below(p[..k], p);
        ok := HostCall();
        if !ok {
          return;
        }
        if p[..k] !in tree.names {
          ghost var before := tree;
          assert before.IsDir(p[..k - 1]);
          var i := FreshInode();
          tree := Fs(tree.names[p[..k] := i], tree.nodes[i := Dir]);
          BindClosed(before, p[..k], i, Dir);
        }
        assert forall q :: AtOrBelow(q, p[..k]) <==> AtOrBelow(q, p[..k - 1]) || q == p[..k];
      }
      assert p[..|p|] == p;
      return true;
    }

    /** `ensure_no_symlink_parents`: walks the parents of `p` until one is missing. */
    method EnsureNoSymlinkParents(p: Path) returns (ok: bool)
      requires tree.Closed()
      modifies this`faults
      ensures old(faults) <= faults
      ensures ok <==> faults == old(faults) && tree.Unblocked(p)
    {
      var k := 0;
      while k + 1 < |p|
        invariant 0 <= k && (p != [] ==> k < |p|) && faults == old(faults)
        invariant forall q :: Below(q, p) && |q| <= k ==> !tree.Leaf(q)
      {
        k := k + 1;
        assert Below(p[..k], p);
        assert forall q :: Below(q, p) && |q| == k ==> q == p[..k];
        ok := HostCall();
        if !ok {
          return;
        }
        match tree.At(p[..k]) {
          case None =>
            assert forall q :: Below(q, p) && |q| > k ==> Below(p[..k], q);
            return true;
          case Some(Dir) =>
          case Some(_) => return false;
        }
      }
      return true;
    }

    /** A new file or symlink: an inode of its own, whatever the old name at `p` shared. A
        failing call may leave nothing, or a file with part of the data. */
    method PutLeaf(p: Path, n: Node) returns (ok: bool)
      requires tree.Closed() && p != [] && p !in tree.names && tree.IsDir(Parent(p))
      modifies this
      ensures Intact(old(tree), tree)
      ensures ok ==> Grows(old(tree), tree) && p in tree.names && tree.names[p] !in old(tree).nodes
      ensures ok ==> forall q :: tree.At(q) == if q == p then Some(n) else old(tree).At(q)
      ensures old(faults) <= faults
      ensures ok <==> faults == old(faults)
    {
      var i := FreshInode();
      ok := HostCall();
      var part: string, begun: bool := *, *;
      var node := if ok then n else File(part);
      BindClosed(tree, p, i, node);
      if ok || begun {
        tree := Fs(tree.names[p := i], tree.nodes[i := node]);
      }
    }

    /** A hard link: one more name for the inode at `source`. */
    method Link(p: Path, source: Path) returns (ok: bool)
      requires tree.Closed() && p != [] && p !in tree.names && tree.IsDir(Parent(p)) && tree.Leaf(source)
      modifies this
      ensures Intact(old(tree), tree)
      ensures ok ==> Grows(old(tree), tree)
      ensures ok ==> forall q :: tree.At(q) == if q == p then old(tree).At(source) else old(tree).At(q)
      ensures ok ==> p in tree.names && source in tree.names && tree.names[p] == tree.names[source]
      ensures old(faults) <= faults
      ensures ok <==> faults == old(faults)
    {
      ok := HostCall();
      if ok {
        LinkClosed(tree, p, source);
        tree := tree.(names := tree.names[p := tree.names[source]]);
      }
    }

    method FreshInode() returns (i: nat)
      ensures i !in tree.nodes
    {
      i := 0;
      var keys := tree.nodes.Keys;
      while keys != {}
        invariant forall j :: j in tree.nodes ==> j in keys || j < i
        decreases keys
      {
        var j :| j in keys;
        keys := keys - {j};
        if i <= j {
          i := j + 1;
        }
      }
    }
  }

  /** One more name for a leaf keeps the tree closed. */
  lemma {:induction false} LinkClosed(t: Fs, p: Path, source: Path)
    requires t.Closed() && p != [] && p !in t.names && t.IsDir(Parent(p)) && t.Leaf(source)
    ensures var u := t.(names := t.names[p := t.names[source]]);
            && u.Closed() && Grows(t, u)
            && forall q :: u.At(q) == if q == p then t.At(source) else t.At(q)
  {
    var u := t.(names := t.names[p := t.names[source]]);
    forall a, q | Below(q, a) && a in u.names
      ensures u.IsDir(q)
    {
      if a == p && q != Parent(p) {
        assert Below(q, Parent(p));
        assert t.IsDir(q);
      }
    }
  }

  /** Binding a missing name inside a directory to a new inode keeps the tree closed. */
  lemma {:induction false} BindClosed(t: Fs, p: Path, i: nat, n: Node)
    requires t.Closed() && p != [] && p !in t.names && t.IsDir(Parent(p)) && i !in t.nodes
    ensures var u := Fs(t.names[p := i], t.nodes[i := n]);
            && u.Closed() && Grows(t, u)
            && forall q :: u.At(q) == if q == p then Some(n) else t.At(q)
  {
    var u := Fs(t.names[p := i], t.nodes[i := n]);
    forall a, q | Below(q, a) && a in u.names
      ensures u.IsDir(q)
    {
      if a == p && q != Parent(p) {
        assert Below(q, Parent(p));
        assert t.IsDir(q);
      }
    }
  }
}
