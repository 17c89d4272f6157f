/** The tree rules put to work on whole chains: what the layers of an image come to, as far as the rules go. */
module Stacks {
  import opened Options
  import opened Trees
  import opened IdMappings
  import opened Layers
  import opened ChainIds
  import opened Contents
  import LayerSpec
  import Markers
  import UnpackConditions
  import BaseDirectory

  /** The blobs behind the diff IDs, and the ID mappings of the store. */
  datatype Rules = Rules(blob: string -> seq<Header>, uidMappings: seq<Mapping>, gidMappings: seq<Mapping>)

  function SpecOf(cfg: Config, r: Rules, c: ChainId): UnpackSpec {
    UnpackSpec(match cfg.baseDirectory(c) case None => [] case Some(d) => d, r.uidMappings, r.gidMappings)
  }

  /** The base-directory step by the rules. */
  function Grounded(dir: Option<Path>, child: Tree, parent: Tree): Outcome {
    match dir
    case None => Unpacked(child, 0)
    case Some(d) =>
      match BaseDirectory.Ensure(d, child, parent)
      case Ready(t) => Unpacked(t, 0)
      case Missing => Failed
      case Outside => Unmodelled
  }

  function Unpacking(cfg: Config, r: Rules, c: ChainId, t: Tree): Outcome {
    UnpackLayer(SpecOf(cfg, r, c), t, r.blob(c.diff))
  }

  /** What the layer is built on: nothing, or the layers below. */
  function Under(cfg: Config, r: Rules, c: ChainId): Outcome
    decreases c, 0
  {
    match c
    case Base(_) => Unpacked(EmptyVolume(cfg), 0)
    case Node(p, _) => Stack(cfg, r, p)
  }

  function LookedUp(c: ChainId, below: Tree): Tree {
    if c.Node? then below else map[]
  }

  /** The tree the layer is unpacked onto. */
  function Ground(cfg: Config, r: Rules, c: ChainId): Outcome
    decreases c, 1
  {
    match Under(cfg, r, c)
    case Failed => Failed
    case Unmodelled => Unmodelled
    case Unpacked(t, _) => Grounded(cfg.baseDirectory(c), ChownRoot(cfg, t), LookedUp(c, t))
  }

  /** All the layers of the chain, by the rules; `Unmodelled` if any of them leaves the rules' reach. */
  function Stack(cfg: Config, r: Rules, c: ChainId): Outcome
    decreases c, 2
  {
    match Ground(cfg, r, c)
    case Failed => Failed
    case Unmodelled => Unmodelled
    case Unpacked(t, _) => Unpacking(cfg, r, c, t)
  }

  function AsOption(o: Outcome): Option<Tree> {
    if o.Unpacked? then Some(o.tree) else None
  }

  /** Where the rules reach, the store's calls do what they say; elsewhere they may do anything. */
  ghost predicate FollowsAt(cfg: Config, r: Rules, c: ChainId) {
    && (Under(cfg, r, c).Unpacked? ==>
          var t := Under(cfg, r, c).tree;
          var u := ChownRoot(cfg, t);
          var o := Grounded(cfg.baseDirectory(c), u, LookedUp(c, t));
          !o.Unmodelled? ==> Prepare(cfg, c, u, LookedUp(c, t)) == AsOption(o))
    && (Ground(cfg, r, c).Unpacked? ==>
          var t := Ground(cfg, r, c).tree;
          var o := Unpacking(cfg, r, c, t);
          !o.Unmodelled? ==> cfg.unpack(c, t) == AsOption(o))
    && cfg.size(c) == LayerSpec.FileBytes(ClassifyAll(SpecOf(cfg, r, c), r.blob(c.diff)))
  }

  ghost predicate Follows(cfg: Config, r: Rules) {
    forall c :: FollowsAt(cfg, r, c)
  }

  /** For every chain within the rules' reach, what it denotes is what the rules make of it. */
  lemma {:induction false} DenotesItsStack(cfg: Config, r: Rules, c: ChainId)
    requires Follows(cfg, r) && !Stack(cfg, r, c).Unmodelled?
    ensures Denote(cfg, c) == AsOption(Stack(cfg, r, c))
    ensures Stack(cfg, r, c).Unpacked? ==> WellFormed(Stack(cfg, r, c).tree) && Stack(cfg, r, c).bytes == cfg.size(c)
    ensures Ground(cfg, r, c).Unpacked? ==> WellFormed(Ground(cfg, r, c).tree)
  {
    assert FollowsAt(cfg, r, c);
    if c.Node? {
      DenotesItsStack(cfg, r, c.parent);
    }
    if Under(cfg, r, c).Unpacked? {
      var t := Under(cfg, r, c).tree;
      GroundedWellFormed(cfg, r, c);
      assert Start(cfg, c) == Some(t) && Below(cfg, c) == Some(LookedUp(c, t));
      assert Prepared(cfg, c) == AsOption(Ground(cfg, r, c));
    } else {
      assert Under(cfg, r, c).Failed? && Start(cfg, c).None?;
      assert Prepared(cfg, c).None?;
    }
    if Ground(cfg, r, c).Unpacked? {
      assert Prepared(cfg, c) == Some(Ground(cfg, r, c).tree);
      assert Unpacking(cfg, r, c, Ground(cfg, r, c).tree) == Stack(cfg, r, c);
    }
    if Stack(cfg, r, c).Unpacked? {
      LayerSpec.UnpackWellFormed(Ground(cfg, r, c).tree, ClassifyAll(SpecOf(cfg, r, c), r.blob(c.diff)));
    }
  }

  lemma GroundedWellFormed(cfg: Config, r: Rules, c: ChainId)
    requires Under(cfg, r, c).Unpacked? && WellFormed(Under(cfg, r, c).tree)
    ensures Ground(cfg, r, c).Unpacked? ==> WellFormed(Ground(cfg, r, c).tree)
  {
    var t := Under(cfg, r, c).tree;
    if cfg.baseDirectory(c).Some? && Ground(cfg, r, c).Unpacked? {
      BaseDirectory.EnsureAddsOnlyAncestors(cfg.baseDirectory(c).value, ChownRoot(cfg, t), LookedUp(c, t));
    }
  }

  /** The rules themselves as a store's calls, failing where they do not reach. */
  function ByRules(cfg: Config, r: Rules): Config {
    cfg.(prepare := (c, t, parent) => AsOption(Grounded(cfg.baseDirectory(c), t, parent)),
         unpack := (c, t) => AsOption(Unpacking(cfg, r, c, t)),
         size := c => LayerSpec.FileBytes(ClassifyAll(SpecOf(cfg, r, c), r.blob(c.diff))))
  }

  lemma RulesFollowThemselves(cfg: Config, r: Rules)
    ensures Follows(ByRules(cfg, r), r)
  {
    forall c ensures FollowsAt(ByRules(cfg, r), r, c) {
      assert SpecOf(ByRules(cfg, r), r, c) == SpecOf(cfg, r, c);
    }
  }

  /** So a volume that is the last layer of such a chain is the specification's overlay on what lies below. */
  lemma LayerIsOverlay(cfg: Config, r: Rules, c: ChainId)
    requires Follows(cfg, r) && Stack(cfg, r, c).Unpacked?
    requires forall h | h in r.blob(c.diff) :: Markers.Proper(SpecOf(cfg, r, c), h) && Markers.ReadAlike(SpecOf(cfg, r, c), h)
    ensures Denote(cfg, c).Some? && Ground(cfg, r, c).Unpacked?
    ensures
      var lower := Ground(cfg, r, c).tree;
      var es := Markers.OciAll(SpecOf(cfg, r, c), r.blob(c.diff));
      LayerSpec.IsOverlay(Denote(cfg, c).value, lower, es) <==> LayerSpec.NoLateMarker(es) && LayerSpec.NoSwap(lower, es)
  {
    DenotesItsStack(cfg, r, c);
    Markers.UnpackRefinesOci(SpecOf(cfg, r, c), Ground(cfg, r, c).tree, r.blob(c.diff));
  }

  /** What an unmarked header of the layer says is what the volume holds, the owner translated by the store's
      own mappings, uid by the one and gid by the other. */
  lemma HeaderLands(cfg: Config, r: Rules, c: ChainId, k: nat)
    requires Follows(cfg, r) && Stack(cfg, r, c).Unpacked? && k < |r.blob(c.diff)|
    requires
      var h := r.blob(c.diff)[k];
      UnpackConditions.Unmarked(h) && (h.kind.Regular? || h.kind.SymbolicLink?)
    requires
      var es, p := ClassifyAll(SpecOf(cfg, r, c), r.blob(c.diff)), Prefix(cfg, c) + r.blob(c.diff)[k].name;
      forall j | k < j < |es| :: !(es[j].Put? && es[j].path == p) && !LayerSpec.Erases(es[j], p)
    ensures
      var h, p := r.blob(c.diff)[k], Prefix(cfg, c) + r.blob(c.diff)[k].name;
      && Denote(cfg, c).Some? && p in Denote(cfg, c).value
      && (match h.kind
          case Regular(data) => Denote(cfg, c).value[p].File? && Denote(cfg, c).value[p].data == data
          case SymbolicLink(target) => Denote(cfg, c).value[p].Symlink? && Denote(cfg, c).value[p].target == target
          case _ => true)
      && Denote(cfg, c).value[p].attrs == Attrs(h.mode, TranslateID(h.uid, r.uidMappings), TranslateID(h.gid, r.gidMappings))
  {
    DenotesItsStack(cfg, r, c);
    UnpackConditions.EntryLands(SpecOf(cfg, r, c), Ground(cfg, r, c).tree, r.blob(c.diff), k);
  }

  /** The annotated directory, or the root. */
  function Prefix(cfg: Config, c: ChainId): Path {
    match cfg.baseDirectory(c)
    case None => []
    case Some(d) => d
  }

  /** If its stream does not name the root, the volume's root belongs to the configured owner. */
  lemma RootOwned(cfg: Config, r: Rules, c: ChainId)
    requires Follows(cfg, r) && Stack(cfg, r, c).Unpacked?
    requires forall k | 0 <= k < |r.blob(c.diff)| :: Prefix(cfg, c) + r.blob(c.diff)[k].name != []
    ensures Denote(cfg, c).Some? && [] in Denote(cfg, c).value
    ensures cfg.ownerUID != 0 || cfg.ownerGID != 0 ==>
      Denote(cfg, c).value[[]].attrs.uid == cfg.ownerUID && Denote(cfg, c).value[[]].attrs.gid == cfg.ownerGID
  {
    DenotesItsStack(cfg, r, c);
    GroundRoot(cfg, r, c);
    RootAsBefore(SpecOf(cfg, r, c), Ground(cfg, r, c).tree, r.blob(c.diff));
  }

  lemma RootAsBefore(spec: UnpackSpec, lower: Tree, headers: seq<Header>)
    requires [] in lower && UnpackLayer(spec, lower, headers).Unpacked?
    requires forall k | 0 <= k < |headers| :: spec.baseDirectory + headers[k].name != []
    ensures [] in UnpackLayer(spec, lower, headers).tree && UnpackLayer(spec, lower, headers).tree[[]] == lower[[]]
  {
    var es := ClassifyAll(spec, headers);
    LayerSpec.Settled(lower, es, []);
    RootUntouched(spec, headers, es, |es|);
    assert es[..|es|] == es;
    WhiteoutsNeverRoot(spec, headers);
  }

  lemma GroundRoot(cfg: Config, r: Rules, c: ChainId)
    requires Follows(cfg, r) && Ground(cfg, r, c).Unpacked? && !Stack(cfg, r, c).Unmodelled?
    ensures [] in Ground(cfg, r, c).tree
    ensures cfg.ownerUID != 0 || cfg.ownerGID != 0 ==>
      Ground(cfg, r, c).tree[[]].attrs.uid == cfg.ownerUID && Ground(cfg, r, c).tree[[]].attrs.gid == cfg.ownerGID
  {
    var t := Under(cfg, r, c).tree;
    if c.Node? {
      DenotesItsStack(cfg, r, c.parent);
    }
    ChownRootGives(cfg, t);
    if cfg.baseDirectory(c).Some? {
      BaseDirectory.EnsureAddsOnlyAncestors(cfg.baseDirectory(c).value, ChownRoot(cfg, t), LookedUp(c, t));
    }
  }

  lemma {:induction false} RootUntouched(spec: UnpackSpec, headers: seq<Header>, es: seq<Action>, n: nat)
    requires es == ClassifyAll(spec, headers) && n <= |es|
    requires forall k | 0 <= k < |headers| :: spec.baseDirectory + headers[k].name != []
    ensures LayerSpec.Standing(es[..n], []) == []
    decreases n
  {
    if n > 0 {
      RootUntouched(spec, headers, es, n - 1);
      assert es[..n][..n - 1] == es[..n - 1];
      assert es[n - 1].Put? ==> es[n - 1].path == spec.baseDirectory + headers[n - 1].name;
    }
    assert n == |es| ==> es[..n] == es;
  }

  lemma WhiteoutsNeverRoot(spec: UnpackSpec, headers: seq<Header>)
    ensures !LayerSpec.Erased(ClassifyAll(spec, headers), [])
  {
    var es := ClassifyAll(spec, headers);
    forall k | 0 <= k < |es| ensures !LayerSpec.Erases(es[k], []) {
      assert es[k] == Classify(spec, headers[k]);
    }
  }

  // ----- the base-directory annotation, which the chain ID does not cover

  /** The same annotation on every prefix of the chain. */
  predicate SameAnnotations(cfg: Config, other: Config, c: ChainId) {
    cfg.baseDirectory(c) == other.baseDirectory(c) && (c.Node? ==> SameAnnotations(cfg, other, c.parent))
  }

  lemma {:induction false} SameAnnotationsSameStack(cfg: Config, other: Config, r: Rules, c: ChainId)
    requires SameAnnotations(cfg, other, c)
    requires other.ownerUID == cfg.ownerUID && other.ownerGID == cfg.ownerGID && other.newVolume == cfg.newVolume
    ensures Stack(other, r, c) == Stack(cfg, r, c)
  {
    if c.Node? {
      SameAnnotationsSameStack(cfg, other, r, c.parent);
    }
    assert Under(other, r, c) == Under(cfg, r, c);
    assert Ground(other, r, c) == Ground(cfg, r, c);
    assert SpecOf(other, r, c) == SpecOf(cfg, r, c);
  }

  /** Two users of the store who annotate every prefix of a chain alike mean the same volume by it. */
  lemma SameAnnotationsSameContents(cfg: Config, other: Config, r: Rules, c: ChainId)
    requires Follows(cfg, r) && Follows(other, r) && !Stack(cfg, r, c).Unmodelled?
    requires SameAnnotations(cfg, other, c)
    requires other.ownerUID == cfg.ownerUID && other.ownerGID == cfg.ownerGID && other.newVolume == cfg.newVolume
    ensures Denote(other, c) == Denote(cfg, c) && other.size(c) == cfg.size(c)
  {
    SameAnnotationsSameStack(cfg, other, r, c);
    DenotesItsStack(cfg, r, c);
    DenotesItsStack(other, r, c);
    assert FollowsAt(cfg, r, c) && FollowsAt(other, r, c);
    assert SpecOf(other, r, c) == SpecOf(cfg, r, c);
  }

  /** One entry unpacked into a directory that is there. */
  lemma OneEntry(spec: UnpackSpec, t: Tree, h: Header, node: Node)
    requires |h.name| == 1 && !AnyContains(h.name, WHITEOUT) && !AnyContains(h.name, OPAQUE)
    requires |spec.baseDirectory| <= 1 && IsDir(t, []) && IsDir(t, spec.baseDirectory) && spec.baseDirectory + h.name !in t
    requires Ordinary(spec, h) == Put(spec.baseDirectory + h.name, node) && !node.Symlink?
    ensures UnpackLayer(spec, t, [h]).Unpacked? && UnpackLayer(spec, t, [h]).tree == t[spec.baseDirectory + h.name := node]
  {
    var p := spec.baseDirectory + h.name;
    var es := ClassifyAll(spec, [h]);
    assert es == [Put(p, node)] && es[..0] == [];
    assert ApplyAll(t, es[..0]) == Unpacked(t, 0);
    assert Parent(p) == spec.baseDirectory;
    assert !CrossesSymlink(t, p) by {
      forall k: nat | k < |p| ensures IsDir(t, p[..k]) {
        assert p[..k] == if k == 0 then [] else spec.baseDirectory;
      }
    }
    assert ApplyAll(t, es) == Apply(t, es[0]);
  }

  lemma NoMarkers(name: string)
    requires |name| == 4 && name[0] != '.'
    ensures !AnyContains([name], WHITEOUT) && !AnyContains([name], OPAQUE)
  {
  }

  /** One chain of two layers, the second annotated by one user and not by the other: two volumes, both
      well made, one with the file at the top and one with the file in the annotated directory. */
  lemma AnnotationChangesContents(cfg: Config, other: Config, r: Rules, p: string, d: string, dir: Header, file: Header)
    requires Follows(cfg, r) && Follows(other, r)
    requires dir.name == ["base"] && dir.kind == Directory && r.blob(p) == [dir]
    requires file.name == ["file"] && file.kind == Regular("data") && r.blob(d) == [file]
    requires cfg.baseDirectory(Base(p)).None? && other.baseDirectory(Base(p)).None?
    requires cfg.baseDirectory(Node(Base(p), d)) == None && other.baseDirectory(Node(Base(p), d)) == Some(["base"])
    ensures
      var c := Node(Base(p), d);
      && Denote(cfg, c).Some? && ["file"] in Denote(cfg, c).value && ["base", "file"] !in Denote(cfg, c).value
      && Denote(other, c).Some? && ["file"] !in Denote(other, c).value && ["base", "file"] in Denote(other, c).value
  {
    PlainSecond(cfg, r, p, d, dir, file);
    AnnotatedSecond(other, r, p, d, dir, file);
    DenotesItsStack(cfg, r, Node(Base(p), d));
    DenotesItsStack(other, r, Node(Base(p), d));
  }

  lemma PlainSecond(cfg: Config, r: Rules, p: string, d: string, dir: Header, file: Header)
    requires dir.name == ["base"] && dir.kind == Directory && r.blob(p) == [dir]
    requires file.name == ["file"] && file.kind == Regular("data") && r.blob(d) == [file]
    requires cfg.baseDirectory(Base(p)).None? && cfg.baseDirectory(Node(Base(p), d)).None?
    ensures
      var o := Stack(cfg, r, Node(Base(p), d));
      o.Unpacked? && ["file"] in o.tree && ["base", "file"] !in o.tree
  {
    var c := Node(Base(p), d);
    FirstStack(cfg, r, p, dir);
    NoMarkers("file");
    var t := ChownRoot(cfg, Stack(cfg, r, Base(p)).tree);
    var spec := SpecOf(cfg, r, c);
    assert Ground(cfg, r, c) == Unpacked(t, 0);
    assert [] + file.name == ["file"];
    OneEntry(spec, t, file, File("data", AttrsOf(spec, file)));
  }

  lemma AlreadyThere(name: string, child: Tree, parent: Tree)
    requires IsDir(child, []) && IsDir(child, [name])
    ensures BaseDirectory.Ensure([name], child, parent) == BaseDirectory.Ready(child)
  {
    assert Parent([name]) == [];
    assert BaseDirectory.Ensure([], child, parent) == BaseDirectory.Ready(child);
    assert !CrossesSymlink(child, [name]) by { assert forall k: nat | k < 1 :: [name][..k] == []; }
  }

  lemma AnnotatedGround(cfg: Config, r: Rules, p: string, d: string, dir: Header) returns (t: Tree)
    requires dir.name == ["base"] && dir.kind == Directory && r.blob(p) == [dir]
    requires cfg.baseDirectory(Base(p)).None? && cfg.baseDirectory(Node(Base(p), d)) == Some(["base"])
    ensures Ground(cfg, r, Node(Base(p), d)) == Unpacked(t, 0)
    ensures t.Keys == {[], ["base"]} && IsDir(t, []) && IsDir(t, ["base"])
  {
    FirstStack(cfg, r, p, dir);
    var parent := Stack(cfg, r, Base(p)).tree;
    t := ChownRoot(cfg, parent);
    AlreadyThere("base", t, parent);
  }

  lemma AnnotatedSecond(cfg: Config, r: Rules, p: string, d: string, dir: Header, file: Header)
    requires dir.name == ["base"] && dir.kind == Directory && r.blob(p) == [dir]
    requires file.name == ["file"] && file.kind == Regular("data") && r.blob(d) == [file]
    requires cfg.baseDirectory(Base(p)).None? && cfg.baseDirectory(Node(Base(p), d)) == Some(["base"])
    ensures
      var o := Stack(cfg, r, Node(Base(p), d));
      o.Unpacked? && ["file"] !in o.tree && ["base", "file"] in o.tree
  {
    var c := Node(Base(p), d);
    NoMarkers("file");
    var t := AnnotatedGround(cfg, r, p, d, dir);
    var spec := SpecOf(cfg, r, c);
    assert ["base"] + file.name == ["base", "file"];
    OneEntry(spec, t, file, File("data", AttrsOf(spec, file)));
  }

  /** The first of the two layers: a root and the directory in it. */
  lemma FirstStack(cfg: Config, r: Rules, p: string, dir: Header)
    requires dir.name == ["base"] && dir.kind == Directory && r.blob(p) == [dir]
    requires cfg.baseDirectory(Base(p)).None?
    ensures Stack(cfg, r, Base(p)).Unpacked?
    ensures Stack(cfg, r, Base(p)).tree.Keys == {[], ["base"]}
    ensures IsDir(Stack(cfg, r, Base(p)).tree, []) && IsDir(Stack(cfg, r, Base(p)).tree, ["base"])
  {
    var t := ChownRoot(cfg, EmptyVolume(cfg));
    var spec := SpecOf(cfg, r, Base(p));
    NoMarkers("base");
    assert Ground(cfg, r, Base(p)) == Unpacked(t, 0);
    assert [] + dir.name == ["base"];
    OneEntry(spec, t, dir, Dir(AttrsOf(spec, dir)));
  }
}
