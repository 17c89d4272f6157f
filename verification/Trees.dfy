/** File trees: what a volume holds. A path is the sequence of its components; the root is []. */
module Trees {

  type Path = seq<string>

  datatype Attrs = Attrs(mode: int, uid: int, gid: int)

  datatype Node =
    | Dir(attrs: Attrs)
    | File(data: string, attrs: Attrs)
    | Symlink(target: string, attrs: Attrs)

  type Tree = map<Path, Node>

  function Parent(p: Path): Path
    requires p != []
  {
    p[..|p| - 1]
  }

  /** The root is a directory and every other node sits in a directory. */
  ghost predicate WellFormed(t: Tree) {
    && IsDir(t, [])
    && forall p :: p in t && p != [] ==> IsDir(t, Parent(p))
  }

  predicate IsDir(t: Tree, p: Path) {
    p in t && t[p].Dir?
  }

  /** `t` without `p` and everything below it: os.RemoveAll on a path that no symlink crosses. */
  function Prune(t: Tree, p: Path): Tree {
    map q | q in t && !(p <= q) :: t[q]
  }

  /** `t` without what lies strictly below `p`. */
  function Hollow(t: Tree, p: Path): Tree {
    map q | q in t && !(p < q) :: t[q]
  }

  /** Some proper ancestor of `p` is a symbolic link, so the kernel would resolve `p` elsewhere. */
  predicate CrossesSymlink(t: Tree, p: Path) {
    exists k: nat | k < |p| :: p[..k] in t && t[p[..k]].Symlink?
  }

  predicate HasChildren(t: Tree, p: Path) {
    exists q | q in t :: p < q
  }

  lemma {:induction false} AncestorsAreDirs(t: Tree, p: Path, k: nat)
    requires WellFormed(t) && p in t && k < |p|
    ensures IsDir(t, p[..k])
    decreases |p|
  {
    assert IsDir(t, Parent(p));
    if k < |p| - 1 {
      AncestorsAreDirs(t, Parent(p), k);
      assert Parent(p)[..k] == p[..k];
    }
  }

  lemma PruneWellFormed(t: Tree, p: Path)
    requires WellFormed(t) && p != []
    ensures WellFormed(Prune(t, p))
  {
  }

  lemma HollowWellFormed(t: Tree, p: Path)
    requires WellFormed(t)
    ensures WellFormed(Hollow(t, p))
  {
  }
}
