/** When a stream unpacks, and what each of its entries comes to. */
module UnpackConditions {
  import opened Options
  import opened Trees
  import opened IdMappings
  import opened Layers
  import opened LayerSpec

  datatype NodeKind = ADir | AFile | ALink

  function KindOf(n: Node): NodeKind {
    match n
    case Dir(_) => ADir
    case File(_, _) => AFile
    case Symlink(_, _) => ALink
  }

  /** What stands at `p` when the turn of the entry after `es` comes, told from the lower tree and the entries. */
  ghost function KindAt(lower: Tree, es: seq<Action>, p: Path): Option<NodeKind> {
    if Standing(es, p) != [] then Some(if NoSwapAt(lower, es, p) then KindOf(Standing(es, p)[0]) else AFile)
    else if Survives(lower, es, p) then Some(KindOf(lower[p]))
    else None
  }

  lemma KindIs(lower: Tree, es: seq<Action>, p: Path)
    requires ApplyAll(lower, es).Unpacked?
    ensures
      var t := ApplyAll(lower, es).tree;
      KindAt(lower, es, p) == if p in t then Some(KindOf(t[p])) else None
  {
    Settled(lower, es, p);
  }

  ghost predicate NoLinkAbove(lower: Tree, es: seq<Action>, p: Path) {
    forall k: nat | k < |p| :: KindAt(lower, es, p[..k]) != Some(ALink)
  }

  /** The entry is one the rules describe, and no symbolic link is on its way. */
  ghost predicate Followable(lower: Tree, es: seq<Action>, e: Action) {
    match e
    case Ignore => true
    case Beyond => false
    case Link(_, _) => false
    case Opaque(dir) => NoLinkAbove(lower, es, dir) && KindAt(lower, es, dir) != Some(ALink)
    case Whiteout(target) => NoLinkAbove(lower, es, target)
    case Put(p, node) => NoLinkAbove(lower, es, p) && (!node.Symlink? ==> KindAt(lower, es, p) != Some(ALink))
  }

  ghost predicate InDirectory(lower: Tree, es: seq<Action>, p: Path) {
    p != [] && KindAt(lower, es, Parent(p)) == Some(ADir)
  }

  /** The entry finds what it needs: an opaque marker its directory; a directory itself or a place to be made;
      a file the same, and no directory in its place; a symbolic link a place, and no directory with children
      in it. A whiteout needs nothing. */
  ghost predicate Suits(lower: Tree, es: seq<Action>, e: Action) {
    match e
    case Ignore => true
    case Beyond => false
    case Link(_, _) => false
    case Opaque(dir) => KindAt(lower, es, dir) == Some(ADir)
    case Whiteout(target) => target != []
    case Put(p, node) =>
      match node
      case Dir(_) => KindAt(lower, es, p).Some? || InDirectory(lower, es, p)
      case File(_, _) =>
        KindAt(lower, es, p) != Some(ADir) && (KindAt(lower, es, p).Some? || InDirectory(lower, es, p))
      case Symlink(_, _) =>
        InDirectory(lower, es, p) && (KindAt(lower, es, p).Some? ==> forall q | p < q :: KindAt(lower, es, q).None?)
  }

  lemma NoLinkAboveIff(lower: Tree, es: seq<Action>, p: Path)
    requires ApplyAll(lower, es).Unpacked?
    ensures NoLinkAbove(lower, es, p) <==> !CrossesSymlink(ApplyAll(lower, es).tree, p)
  {
    forall k: nat | k < |p| ensures
      var t := ApplyAll(lower, es).tree;
      KindAt(lower, es, p[..k]) == (if p[..k] in t then Some(KindOf(t[p[..k]])) else None)
    {
      KindIs(lower, es, p[..k]);
    }
  }

  lemma PutIff(lower: Tree, es: seq<Action>, p: Path, node: Node)
    requires ApplyAll(lower, es).Unpacked?
    ensures
      var e, o := Put(p, node), Apply(ApplyAll(lower, es).tree, Put(p, node));
      (o.Unmodelled? <==> !Followable(lower, es, e)) && (o.Unpacked? <==> Followable(lower, es, e) && Suits(lower, es, e))
  {
    NoLinkAboveIff(lower, es, p);
    KindIs(lower, es, p);
    if p != [] {
      KindIs(lower, es, Parent(p));
    }
    if node.Symlink? {
      forall q | p < q ensures
        var t := ApplyAll(lower, es).tree;
        KindAt(lower, es, q) == (if q in t then Some(KindOf(t[q])) else None)
      {
        KindIs(lower, es, q);
      }
    }
  }

  lemma ApplyIff(lower: Tree, es: seq<Action>, e: Action)
    requires ApplyAll(lower, es).Unpacked?
    ensures
      var o := Apply(ApplyAll(lower, es).tree, e);
      (o.Unmodelled? <==> !Followable(lower, es, e)) && (o.Unpacked? <==> Followable(lower, es, e) && Suits(lower, es, e))
  {
    match e {
      case Ignore =>
      case Beyond =>
      case Link(_, _) =>
      case Opaque(dir) =>
        NoLinkAboveIff(lower, es, dir);
        KindIs(lower, es, dir);
      case Whiteout(target) => NoLinkAboveIff(lower, es, target);
      case Put(p, node) => PutIff(lower, es, p, node);
    }
  }

  /** The entry at `k`, as its turn comes, is followable and finds what it needs. */
  ghost predicate Passes(lower: Tree, es: seq<Action>, k: nat)
    requires k < |es|
  {
    Followable(lower, es[..k], es[k]) && Suits(lower, es[..k], es[k])
  }

  /** It is followable, and does not. */
  ghost predicate Stumbles(lower: Tree, es: seq<Action>, k: nat)
    requires k < |es|
  {
    Followable(lower, es[..k], es[k]) && !Suits(lower, es[..k], es[k])
  }

  lemma PrefixPasses(lower: Tree, es: seq<Action>, n: nat, k: nat)
    requires k < n <= |es|
    ensures Passes(lower, es[..n], k) <==> Passes(lower, es, k)
    ensures Stumbles(lower, es[..n], k) <==> Stumbles(lower, es, k)
  {
    assert es[..n][..k] == es[..k] && es[..n][k] == es[k];
  }

  lemma LastDecides(lower: Tree, es: seq<Action>)
    requires es != []
    ensures
      var n := |es| - 1;
      && (ApplyAll(lower, es).Unpacked? <==> ApplyAll(lower, es[..n]).Unpacked? && Passes(lower, es, n))
      && (ApplyAll(lower, es).Failed? <==>
            ApplyAll(lower, es[..n]).Failed? || (ApplyAll(lower, es[..n]).Unpacked? && Stumbles(lower, es, n)))
  {
    var n := |es| - 1;
    if ApplyAll(lower, es[..n]).Unpacked? {
      ApplyIff(lower, es[..n], es[n]);
    }
  }

  /** A stream unpacks exactly when each entry passes as its turn comes. */
  lemma {:induction false} UnpacksIff(lower: Tree, es: seq<Action>)
    ensures ApplyAll(lower, es).Unpacked? <==> forall k | 0 <= k < |es| :: Passes(lower, es, k)
    decreases |es|
  {
    if es != [] {
      var n := |es| - 1;
      UnpacksIff(lower, es[..n]);
      LastDecides(lower, es);
      forall k | 0 <= k < n ensures Passes(lower, es[..n], k) <==> Passes(lower, es, k) {
        PrefixPasses(lower, es, n, k);
      }
    }
  }

  /** And it fails, as opposed to leaving the rules' reach, exactly when the first entry that does not pass
      stumbles. */
  lemma {:induction false} FailsIff(lower: Tree, es: seq<Action>)
    ensures ApplyAll(lower, es).Failed? <==>
      exists k | 0 <= k < |es| :: Stumbles(lower, es, k) && forall j | 0 <= j < k :: Passes(lower, es, j)
    decreases |es|
  {
    if es != [] {
      var n := |es| - 1;
      FailsIff(lower, es[..n]);
      UnpacksIff(lower, es[..n]);
      LastDecides(lower, es);
      forall k | 0 <= k < n
        ensures Passes(lower, es[..n], k) <==> Passes(lower, es, k)
        ensures Stumbles(lower, es[..n], k) <==> Stumbles(lower, es, k)
      {
        PrefixPasses(lower, es, n, k);
      }
    }
  }

  // ----- what an entry comes to

  /** A node as the header describes it, its owner translated by the store's mappings. */
  predicate Describes(spec: UnpackSpec, h: Header, node: Node) {
    && (match h.kind
        case Regular(data) => node.File? && node.data == data
        case SymbolicLink(target) => node.Symlink? && node.target == target
        case Directory => node.Dir?
        case _ => false)
    && node.attrs == Attrs(h.mode, TranslateID(h.uid, spec.uidMappings), TranslateID(h.gid, spec.gidMappings))
  }

  predicate Unmarked(h: Header) {
    !AnyContains(h.name, WHITEOUT) && !AnyContains(h.name, OPAQUE)
  }

  lemma {:induction false} StandsAlone(es: seq<Action>, k: nat, p: Path, node: Node)
    requires k < |es| && es[k] == Put(p, node)
    requires forall j | k < j < |es| :: !(es[j].Put? && es[j].path == p) && !Erases(es[j], p)
    ensures Standing(es, p) == [node]
    decreases |es|
  {
    if k < |es| - 1 {
      StandsAlone(es[..|es| - 1], k, p, node);
    }
  }

  /** An unmarked entry that nothing later in its layer replaces or erases is in the tree as its header says,
      unless it is a directory that met a file; devices and unknown kinds leave no trace. */
  lemma EntryLands(spec: UnpackSpec, lower: Tree, headers: seq<Header>, k: nat)
    requires UnpackLayer(spec, lower, headers).Unpacked? && k < |headers| && Unmarked(headers[k])
    requires headers[k].kind.Regular? || headers[k].kind.SymbolicLink? || headers[k].kind.Directory?
    requires
      var es, p := ClassifyAll(spec, headers), spec.baseDirectory + headers[k].name;
      forall j | k < j < |es| :: !(es[j].Put? && es[j].path == p) && !Erases(es[j], p)
    ensures
      var t, p := UnpackLayer(spec, lower, headers).tree, spec.baseDirectory + headers[k].name;
      && p in t
      && (!headers[k].kind.Directory? || NoSwapAt(lower, ClassifyAll(spec, headers), p) ==> Describes(spec, headers[k], t[p]))
  {
    var es, p := ClassifyAll(spec, headers), spec.baseDirectory + headers[k].name;
    var node := es[k].node;
    StandsAlone(es, k, p, node);
    Settled(lower, es, p);
  }

  lemma Untraced(spec: UnpackSpec, h: Header)
    requires Unmarked(h) && (h.kind.Device? || h.kind.OtherKind?)
    ensures forall t :: Apply(t, Classify(spec, h)) == Unpacked(t, 0)
  {
  }

  /** The size reported is the sum of the lengths of the regular files, entry by entry. */
  lemma {:induction false} BytesAdd(xs: seq<Action>, ys: seq<Action>)
    ensures FileBytes(xs + ys) == FileBytes(xs) + FileBytes(ys)
    ensures forall p, data, attrs :: FileBytes([Put(p, File(data, attrs))]) == |data|
    ensures forall e: Action | !(e.Put? && e.node.File?) :: FileBytes([e]) == 0
    decreases |ys|
  {
    if ys != [] {
      BytesAdd(xs, ys[..|ys| - 1]);
      assert (xs + ys)[..|xs + ys| - 1] == xs + ys[..|ys| - 1];
    } else {
      assert xs + ys == xs;
    }
  }

  // ----- entries over what is there already

  lemma OneHeader(spec: UnpackSpec, lower: Tree, h: Header)
    ensures
      var o := Apply(lower, Classify(spec, h));
      && UnpackLayer(spec, lower, [h]).Unpacked? == o.Unpacked?
      && (o.Unpacked? ==> UnpackLayer(spec, lower, [h]).tree == o.tree)
  {
    var es := ClassifyAll(spec, [h]);
    assert es == [Classify(spec, h)] && es[..0] == [];
    assert ApplyAll(lower, es[..0]) == Unpacked(lower, 0);
    assert es[..|es| - 1] == es[..0];
  }

  lemma NotThroughLinks(t: Tree, p: Path)
    requires WellFormed(t) && p in t
    ensures !CrossesSymlink(t, p)
  {
    forall k: nat | k < |p| ensures IsDir(t, p[..k]) {
      AncestorsAreDirs(t, p, k);
    }
  }

  /** A directory entry for a directory that is there succeeds, and gives it the header's attributes. */
  lemma DirectoryAgain(spec: UnpackSpec, lower: Tree, h: Header)
    requires WellFormed(lower) && Unmarked(h) && h.kind.Directory? && IsDir(lower, spec.baseDirectory + h.name)
    ensures
      var o := UnpackLayer(spec, lower, [h]);
      && o.Unpacked? && o.tree.Keys == lower.Keys && Describes(spec, h, o.tree[spec.baseDirectory + h.name])
      && forall q | q in lower && q != spec.baseDirectory + h.name :: o.tree[q] == lower[q]
  {
    NotThroughLinks(lower, spec.baseDirectory + h.name);
    OneHeader(spec, lower, h);
  }

  /** A file entry for a file that is there rewrites it. */
  lemma FileAgain(spec: UnpackSpec, lower: Tree, h: Header)
    requires WellFormed(lower) && Unmarked(h) && h.kind.Regular?
    requires spec.baseDirectory + h.name in lower && lower[spec.baseDirectory + h.name].File?
    ensures
      var o := UnpackLayer(spec, lower, [h]);
      && o.Unpacked? && o.tree.Keys == lower.Keys && Describes(spec, h, o.tree[spec.baseDirectory + h.name])
      && forall q | q in lower && q != spec.baseDirectory + h.name :: o.tree[q] == lower[q]
  {
    NotThroughLinks(lower, spec.baseDirectory + h.name);
    OneHeader(spec, lower, h);
  }

  /** A whiteout of what is not there succeeds, and changes nothing. */
  lemma WhiteoutOfNothing(lower: Tree, target: Path)
    requires target != [] && !CrossesSymlink(lower, target) && forall q | q in lower :: !(target <= q)
    ensures Apply(lower, Whiteout(target)) == Unpacked(lower, 0)
  {
    assert Prune(lower, target) == lower;
  }
}
