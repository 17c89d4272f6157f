/** ensureBaseDirectoryExists: copying missing ancestors of the base directory from the parent layer. */
module BaseDirectory {
  import opened Trees

  /** `Outside`: a symbolic link stands on the way, so the path would be resolved elsewhere. */
  datatype Ensured = Ready(tree: Tree) | Missing | Outside

  predicate LinkOnTheWay(t: Tree, p: Path) {
    CrossesSymlink(t, p) || (p in t && t[p].Symlink?)
  }

  function Ensure(p: Path, child: Tree, parent: Tree): Ensured
    decreases |p|
  {
    if p == [] then Ready(child)
    else
      match Ensure(Parent(p), child, parent)
      case Missing => Missing
      case Outside => Outside
      case Ready(c) => EnsureLast(p, c, parent)
  }

  function EnsureLast(p: Path, c: Tree, parent: Tree): Ensured
    requires p != []
  {
    if LinkOnTheWay(c, p) then Outside
    else if p in c then Ready(c)
    else if !IsDir(c, Parent(p)) then Missing
    else if LinkOnTheWay(parent, p) then Outside
    else if p !in parent then Missing
    else Ready(c[p := Dir(parent[p].attrs)])
  }

  /** The child's tree after the recursion, whether it succeeds or not: the ancestors made so far stay. */
  function Attempted(p: Path, child: Tree, parent: Tree): Tree
    decreases |p|
  {
    if p == [] then child
    else
      match Ensure(p, child, parent)
      case Ready(t) => t
      case _ => Attempted(Parent(p), child, parent)
  }

  class ChildVolume {
    var tree: Tree

    constructor (tree: Tree)
      ensures this.tree == tree
    {
      this.tree := tree;
    }

    method EnsureBaseDirectoryExists(baseDir: Path, parent: Tree) returns (r: Ensured)
      modifies this
      ensures r == Ensure(baseDir, old(tree), parent)
      ensures tree == Attempted(baseDir, old(tree), parent)
      ensures r.Ready? ==> tree == r.tree
      decreases |baseDir|
    {
      if baseDir == [] {
        return Ready(tree);
      }
      r := EnsureBaseDirectoryExists(Parent(baseDir), parent);
      if !r.Ready? {
        return r;
      }
      if LinkOnTheWay(tree, baseDir) {
        return Outside;
      }
      if baseDir in tree {
        return Ready(tree);
      }
      if !IsDir(tree, Parent(baseDir)) {
        return Missing;
      }
      if LinkOnTheWay(parent, baseDir) {
        return Outside;
      }
      if baseDir !in parent {
        return Missing;
      }
      tree := tree[baseDir := Dir(parent[baseDir].attrs)];
      return Ready(tree);
    }
  }

  /** On success the base directory and its ancestors exist, the new ones look like the parent layer's,
      and nothing the child already had has changed. */
  lemma {:induction false} EnsureAddsOnlyAncestors(p: Path, child: Tree, parent: Tree)
    requires WellFormed(child) && Ensure(p, child, parent).Ready?
    ensures
      var t := Ensure(p, child, parent).tree;
      && WellFormed(t)
      && (forall k: nat | k <= |p| :: p[..k] in t)
      && (forall q | q in child :: q in t && t[q] == child[q])
      && (forall q | q in t && q !in child :: q <= p && q in parent && t[q] == Dir(parent[q].attrs))
    decreases |p|
  {
    if p != [] {
      EnsureAddsOnlyAncestors(Parent(p), child, parent);
      var t := Ensure(p, child, parent).tree;
      forall k: nat | k <= |p| ensures p[..k] in t {
        if k < |p| {
          assert p[..k] == Parent(p)[..k];
        } else {
          assert p[..k] == p;
        }
      }
      forall q | q in t && q != [] ensures IsDir(t, Parent(q)) {
        var c := Ensure(Parent(p), child, parent).tree;
        assert q in c ==> IsDir(c, Parent(q));
      }
    }
  }

  /** Success or not, nothing the child had changes, and what is new are copies of ancestors. */
  lemma {:induction false} AttemptAddsOnlyAncestors(p: Path, child: Tree, parent: Tree)
    requires WellFormed(child)
    ensures
      var t := Attempted(p, child, parent);
      && WellFormed(t)
      && (forall q | q in child :: q in t && t[q] == child[q])
      && (forall q | q in t && q !in child :: q <= p && q in parent && t[q] == Dir(parent[q].attrs))
      && (Ensure(p, child, parent).Ready? ==> t == Ensure(p, child, parent).tree)
    decreases |p|
  {
    if p != [] {
      if Ensure(p, child, parent).Ready? {
        EnsureAddsOnlyAncestors(p, child, parent);
      } else {
        AttemptAddsOnlyAncestors(Parent(p), child, parent);
      }
    }
  }

  /** What has to hold at one prefix of the base directory. */
  ghost predicate Obtainable(q: Path, child: Tree, parent: Tree) {
    q == [] || q in child || (q in parent && (Parent(q) in child ==> child[Parent(q)].Dir?))
  }

  /** With no symbolic link in sight, exactly when it succeeds. */
  lemma {:induction false} EnsureSucceedsIff(p: Path, child: Tree, parent: Tree)
    requires WellFormed(child)
    requires forall q | q in child || q in parent :: !(q in child && child[q].Symlink?) && !(q in parent && parent[q].Symlink?)
    ensures Ensure(p, child, parent).Ready? <==> forall k: nat | k <= |p| :: Obtainable(p[..k], child, parent)
    ensures !Ensure(p, child, parent).Outside?
    decreases |p|
  {
    if p != [] {
      EnsureSucceedsIff(Parent(p), child, parent);
      assert p[..|p|] == p;
      assert forall k: nat | k < |p| :: p[..k] == Parent(p)[..k];
      if Ensure(Parent(p), child, parent).Ready? {
        EnsureAddsOnlyAncestors(Parent(p), child, parent);
        var c := Ensure(Parent(p), child, parent).tree;
        assert Parent(p) in c by { assert Parent(p)[..|p| - 1] == Parent(p); }
        assert forall q | q in c :: !c[q].Symlink?;
        assert !(p <= Parent(p));
        assert p in c ==> p in child;
        assert Ensure(p, child, parent).Ready? <==> Obtainable(p, child, parent);
      }
      if forall k: nat | k <= |p| :: Obtainable(p[..k], child, parent) {
        assert forall k: nat | k <= |Parent(p)| :: Obtainable(Parent(p)[..k], child, parent);
      }
    }
  }

  /** A child that is a fresh snapshot of its parent never changes. */
  lemma {:induction false} SnapshotUnchanged(p: Path, t: Tree)
    requires Ensure(p, t, t).Ready?
    ensures Ensure(p, t, t).tree == t
    decreases |p|
  {
    if p != [] {
      SnapshotUnchanged(Parent(p), t);
    }
  }
}
