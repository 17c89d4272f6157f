/** fetcher/layer_fetcher: layer infos and chain IDs. */
module ChainIds {

  /** A chain ID names a whole prefix of layers: the free form of what the source computes with SHA-256. */
  datatype ChainId = Base(diff: string) | Node(parent: ChainId, diff: string)

  function Depth(c: ChainId): (d: nat)
    ensures d >= 1
  {
    match c
    case Base(_) => 1
    case Node(p, _) => Depth(p) + 1
  }

  function ChainOf(diffs: seq<string>): ChainId
    requires diffs != []
  {
    var last := diffs[|diffs| - 1];
    if |diffs| == 1 then Base(last) else Node(ChainOf(diffs[..|diffs| - 1]), last)
  }

  /** The chain IDs of one image, base first. */
  predicate IsChain(cs: seq<ChainId>) {
    && cs != []
    && forall j | 0 <= j < |cs| ::
         Depth(cs[j]) == j + 1 && (j > 0 ==> cs[j].Node? && cs[j].parent == cs[j - 1])
  }

  // ----- the strings

  /** strings.Split(digest, ":")[1] */
  function SecondField(s: string): string
    requires ':' in s
  {
    if s[0] == ':' then UpToColon(s[1..]) else SecondField(s[1..])
  }

  function UpToColon(s: string): string {
    if s == [] || s[0] == ':' then [] else [s[0]] + UpToColon(s[1..])
  }

  function HexOf(diffID: string): string
    requires diffID == "" || ':' in diffID
  {
    if diffID != "" then SecondField(diffID) else diffID
  }

  /** A digest as it is written: the algorithm, a colon, the hexadecimal digits. */
  predicate Digest(d: string, alg: string, hex: string) {
    ':' !in alg && ':' !in hex && d == alg + ":" + hex
  }

  lemma {:induction false} NoColon(s: string)
    requires ':' !in s
    ensures UpToColon(s) == s
  {
    if s != [] {
      NoColon(s[1..]);
    }
  }

  /** Of a digest the digits are taken, whatever the algorithm. */
  lemma {:induction false} HexOfDigest(d: string, alg: string, hex: string)
    requires Digest(d, alg, hex)
    ensures HexOf(d) == hex
    decreases |alg|
  {
    assert ':' in d by { assert d[|alg|] == ':'; }
    if alg == [] {
      assert d[1..] == hex;
      NoColon(hex);
    } else {
      assert d[0] == alg[0] && d[1..] == alg[1..] + ":" + hex;
      HexOfDigest(d[1..], alg[1..], hex);
    }
  }

  function ChainID(hash: string -> string, diffID: string, parentChainID: string): string
    requires diffID == "" || ':' in diffID
  {
    var diff := HexOf(diffID);
    if parentChainID != "" then hash(parentChainID + " " + diff) else diff
  }

  function Render(hash: string -> string, c: ChainId): string {
    match c
    case Base(d) => d
    case Node(p, d) => hash(Render(hash, p) + " " + d)
  }

  datatype ManifestLayer = ManifestLayer(digest: string, size: int, baseDirectory: string)

  datatype LayerInfo = LayerInfo(blobID: string, size: int, chainID: string, diffID: string, parentChainID: string, baseDirectory: string)

  /** SHA-256 idealised over the diff IDs in use: injective, no spaces, never a diff ID, never empty. */
  ghost predicate GoodHash(hash: string -> string, diffs: set<string>) {
    && (forall x, y :: Collide(hash, x, y) ==> x == y)
    && (forall x :: Plain(hash, diffs, x))
    && (forall d | d in diffs :: ' ' !in d && d != "")
  }

  predicate Collide(hash: string -> string, x: string, y: string) {
    hash(x) == hash(y)
  }

  predicate Plain(hash: string -> string, diffs: set<string>, x: string) {
    ' ' !in hash(x) && hash(x) != "" && hash(x) !in diffs
  }

  predicate Over(c: ChainId, diffs: set<string>) {
    c.diff in diffs && (c.Node? ==> Over(c.parent, diffs))
  }

  lemma ChainOver(ds: seq<string>, diffs: set<string>)
    requires ds != [] && forall d | d in ds :: d in diffs
    ensures Over(ChainOf(ds), diffs)
    decreases |ds|
  {
  }

  /** The chain ID the specification gives to the first `i` layers; there is none before the first. */
  function PrefixID(hash: string -> string, hexes: seq<string>, i: nat): string
    requires i <= |hexes|
  {
    if i == 0 then "" else Render(hash, ChainOf(hexes[..i]))
  }

  function LayerInfoAt(hash: string -> string, layer: ManifestLayer, hexes: seq<string>, i: nat): LayerInfo
    requires i < |hexes|
  {
    LayerInfo(layer.digest, layer.size, PrefixID(hash, hexes, i + 1), hexes[i], PrefixID(hash, hexes, i), layer.baseDirectory)
  }

  /** The chain ID of each prefix comes from that of the prefix before and the digest of one more layer. */
  lemma ChainIDExtendsPrefix(hash: string -> string, diffIDs: seq<string>, i: nat)
    requires i < |diffIDs|
    requires forall d | d in diffIDs :: d == "" || ':' in d
    requires GoodHash(hash, set d | d in diffIDs :: HexOf(d))
    ensures ChainID(hash, diffIDs[i], PrefixID(hash, Hexes(diffIDs), i)) == PrefixID(hash, Hexes(diffIDs), i + 1)
    ensures forall alg, hex | Digest(diffIDs[i], alg, hex) ::
      PrefixID(hash, Hexes(diffIDs), i + 1) == if i == 0 then hex else hash(PrefixID(hash, Hexes(diffIDs), i) + " " + hex)
  {
    forall alg, hex | Digest(diffIDs[i], alg, hex) ensures HexOf(diffIDs[i]) == hex {
      HexOfDigest(diffIDs[i], alg, hex);
    }
    var hexes := Hexes(diffIDs);
    var diffs := set d | d in diffIDs :: HexOf(d);
    assert hexes[..i + 1][..i] == hexes[..i];
    if i > 0 {
      forall d | d in hexes[..i] ensures d in diffs {
        var k :| 0 <= k < i && hexes[k] == d;
        assert diffIDs[k] in diffIDs;
      }
      ChainOver(hexes[..i], diffs);
      RenderGood(hash, diffs, ChainOf(hexes[..i]));
    }
  }

  /** An info describes its layer. The first has its diff ID as chain ID and no parent; every other has its
      predecessor as parent, and for chain ID the hash of the parent's and its own diff ID. */
  ghost predicate LinkedAt(hash: string -> string, layer: ManifestLayer, infos: seq<LayerInfo>, i: nat)
    requires i < |infos|
  {
    var info := infos[i];
    && info.blobID == layer.digest && info.size == layer.size && info.baseDirectory == layer.baseDirectory
    && (i == 0 ==> info.parentChainID == "" && info.chainID == info.diffID)
    && (i > 0 ==> info.parentChainID == infos[i - 1].chainID)
    && (i > 0 ==> info.chainID == hash(infos[i - 1].chainID + " " + info.diffID))
  }

  ghost predicate Linked(hash: string -> string, layers: seq<ManifestLayer>, infos: seq<LayerInfo>) {
    |infos| == |layers| && LinkedSoFar(hash, layers, infos)
  }

  ghost predicate LinkedSoFar(hash: string -> string, layers: seq<ManifestLayer>, infos: seq<LayerInfo>) {
    |infos| <= |layers| && forall i | 0 <= i < |infos| :: LinkedAt(hash, layers[i], infos, i)
  }

  /** The infos carry the digits of the digests, which are all of one algorithm. */
  ghost predicate Carry(infos: seq<LayerInfo>, alg: string, diffIDs: seq<string>) {
    && |infos| <= |diffIDs|
    && forall i | 0 <= i < |infos| :: Digest(diffIDs[i], alg, infos[i].diffID)
  }

  /** The specification's infos, as a predicate on a list of them. */
  ghost predicate Specified(hash: string -> string, layers: seq<ManifestLayer>, hexes: seq<string>, infos: seq<LayerInfo>)
    requires |layers| <= |hexes|
  {
    |infos| <= |layers| && forall i | 0 <= i < |infos| :: infos[i] == LayerInfoAt(hash, layers[i], hexes, i)
  }

  /** The chain ID of the last layer so far. */
  function LastID(infos: seq<LayerInfo>): string {
    if infos == [] then "" else infos[|infos| - 1].chainID
  }

  lemma LinkedExtends(hash: string -> string, diffIDs: seq<string>, layers: seq<ManifestLayer>, infos: seq<LayerInfo>, info: LayerInfo)
    requires |infos| < |layers| <= |diffIDs|
    requires forall d | d in diffIDs :: d == "" || ':' in d
    requires GoodHash(hash, set d | d in diffIDs :: HexOf(d))
    requires LinkedSoFar(hash, layers, infos) && (infos != [] ==> LastID(infos) != "")
    requires var layer, diffID := layers[|infos|], diffIDs[|infos|];
      info == LayerInfo(layer.digest, layer.size, ChainID(hash, diffID, LastID(infos)), HexOf(diffID), LastID(infos), layer.baseDirectory)
    ensures LinkedSoFar(hash, layers, infos + [info]) && info.chainID != ""
  {
    var n, more, diffs := |infos|, infos + [info], set d | d in diffIDs :: HexOf(d);
    forall i | 0 <= i < |more| ensures LinkedAt(hash, layers[i], more, i) {
      if i < n {
        assert LinkedAt(hash, layers[i], infos, i);
        assert more[i] == infos[i] && (i > 0 ==> more[i - 1] == infos[i - 1]);
      } else {
        assert n > 0 ==> more[n - 1] == infos[n - 1];
      }
    }
    assert diffIDs[n] in diffIDs;
    assert HexOf(diffIDs[n]) in diffs;
    assert Plain(hash, diffs, LastID(infos) + " " + info.diffID);
  }

  /** createLayerInfos, with the digests given as diffIDs: each layer gets the chain ID of the prefix it
      ends, and as parent the chain ID of its predecessor. */
  method CreateLayerInfos(hash: string -> string, layers: seq<ManifestLayer>, diffIDs: seq<string>)
      returns (layerInfos: seq<LayerInfo>)
    requires |layers| <= |diffIDs|
    requires forall d | d in diffIDs :: d == "" || ':' in d
    requires GoodHash(hash, set d | d in diffIDs :: HexOf(d))
    ensures |layerInfos| == |layers|
    ensures Specified(hash, layers, Hexes(diffIDs), layerInfos)
    ensures Linked(hash, layers, layerInfos)
    ensures forall i, alg, hex | 0 <= i < |layers| && Digest(diffIDs[i], alg, hex) :: layerInfos[i].diffID == hex
  {
    layerInfos := [];
    var parentChainID := "";
    for i := 0 to |layers|
      invariant |layerInfos| == i && LinkedSoFar(hash, layers, layerInfos)
      invariant forall j | 0 <= j < i :: layerInfos[j].diffID == HexOf(diffIDs[j])
      invariant parentChainID == LastID(layerInfos) && (i > 0 ==> parentChainID != "")
    {
      if i == 0 {
        parentChainID := "";
      }
      var diffID := diffIDs[i];
      var chainID := ChainID(hash, diffID, parentChainID);
      var layerInfo := LayerInfo(layers[i].digest, layers[i].size, chainID, HexOf(diffID), parentChainID, layers[i].baseDirectory);
      LinkedExtends(hash, diffIDs, layers, layerInfos, layerInfo);
      layerInfos := layerInfos + [layerInfo];
      parentChainID := chainID;
    }
    InfosSpecified(hash, layers, diffIDs, layerInfos);
    InfosCarryDigits(diffIDs, layerInfos);
  }

  lemma InfosCarryDigits(diffIDs: seq<string>, infos: seq<LayerInfo>)
    requires |infos| <= |diffIDs|
    requires forall d | d in diffIDs :: d == "" || ':' in d
    requires forall i | 0 <= i < |infos| :: infos[i].diffID == HexOf(diffIDs[i])
    ensures forall i, alg, hex | 0 <= i < |infos| && Digest(diffIDs[i], alg, hex) :: infos[i].diffID == hex
  {
    forall i, alg, hex | 0 <= i < |infos| && Digest(diffIDs[i], alg, hex) ensures infos[i].diffID == hex {
      HexOfDigest(diffIDs[i], alg, hex);
    }
  }

  lemma InfosSpecified(hash: string -> string, layers: seq<ManifestLayer>, diffIDs: seq<string>, infos: seq<LayerInfo>)
    requires |layers| <= |diffIDs| && Linked(hash, layers, infos)
    requires forall d | d in diffIDs :: d == "" || ':' in d
    requires forall i | 0 <= i < |infos| :: infos[i].diffID == HexOf(diffIDs[i])
    ensures Specified(hash, layers, Hexes(diffIDs), infos)
  {
    var hexes := Hexes(diffIDs);
    forall i | 0 <= i < |infos| ensures infos[i] == LayerInfoAt(hash, layers[i], hexes, i) {
      assert LinkedAt(hash, layers[i], infos, i);
      LinkedRenders(hash, layers, infos, hexes, i);
      if i > 0 {
        LinkedRenders(hash, layers, infos, hexes, i - 1);
      }
    }
  }

  function Hexes(diffIDs: seq<string>): (hexes: seq<string>)
    requires forall d | d in diffIDs :: d == "" || ':' in d
    ensures |hexes| == |diffIDs|
    ensures forall i | 0 <= i < |diffIDs| :: hexes[i] == HexOf(diffIDs[i])
  {
    seq(|diffIDs|, i requires 0 <= i < |diffIDs| => HexOf(diffIDs[i]))
  }

  lemma RenderGood(hash: string -> string, diffs: set<string>, c: ChainId)
    requires GoodHash(hash, diffs) && Over(c, diffs)
    ensures Render(hash, c) != "" && ' ' !in Render(hash, c)
  {
    if c.Node? {
      assert Plain(hash, diffs, Render(hash, c.parent) + " " + c.diff);
    }
  }

  lemma {:induction false} SplitAtSpace(a: string, b: string, c: string, d: string)
    requires a + " " + b == c + " " + d
    requires ' ' !in a && ' ' !in c
    ensures a == c && b == d
  {
    var s := a + " " + b;
    assert s[|a|] == ' ' && forall k | 0 <= k < |a| :: s[k] == a[k] && a[k] in a;
    assert s == c + " " + d;
    assert s[|c|] == ' ' && forall k | 0 <= k < |c| :: s[k] == c[k] && c[k] in c;
    assert a == s[..|a|] == s[..|c|] == c;
    assert b == s[|a| + 1..] == d;
  }

  /** Two chain IDs print alike only when they are the same chain. */
  lemma {:induction false} RenderInjective(hash: string -> string, diffs: set<string>, c: ChainId, d: ChainId)
    requires GoodHash(hash, diffs) && Over(c, diffs) && Over(d, diffs)
    requires Render(hash, c) == Render(hash, d)
    ensures c == d
  {
    if c.Node? {
      assert Plain(hash, diffs, Render(hash, c.parent) + " " + c.diff);
    }
    if d.Node? {
      assert Plain(hash, diffs, Render(hash, d.parent) + " " + d.diff);
    }
    if c.Node? && d.Node? {
      assert Collide(hash, Render(hash, c.parent) + " " + c.diff, Render(hash, d.parent) + " " + d.diff);
      RenderGood(hash, diffs, c.parent);
      RenderGood(hash, diffs, d.parent);
      SplitAtSpace(Render(hash, c.parent), c.diff, Render(hash, d.parent), d.diff);
      RenderInjective(hash, diffs, c.parent, d.parent);
    }
  }

  lemma {:induction false} ChainOfInjective(x: seq<string>, y: seq<string>)
    requires x != [] && y != []
    ensures ChainOf(x) == ChainOf(y) ==> x == y
    decreases |x|
  {
    if ChainOf(x) == ChainOf(y) {
      var xi, yi := x[..|x| - 1], y[..|y| - 1];
      assert x == xi + [x[|x| - 1]] && y == yi + [y[|y| - 1]];
      if |x| > 1 && |y| > 1 {
        ChainOfInjective(xi, yi);
      }
    }
  }

  /** Across any two images, chain IDs agree exactly when the diff-ID prefixes they stand for agree. */
  lemma ChainIdsIdentifyPrefixes(hash: string -> string, diffs: set<string>, x: seq<string>, y: seq<string>, i: nat, j: nat)
    requires GoodHash(hash, diffs)
    requires (forall d | d in x :: d in diffs) && (forall d | d in y :: d in diffs)
    requires i < |x| && j < |y|
    ensures Render(hash, ChainOf(x[..i + 1])) == Render(hash, ChainOf(y[..j + 1])) <==> x[..i + 1] == y[..j + 1]
  {
    ChainOver(x[..i + 1], diffs);
    ChainOver(y[..j + 1], diffs);
    if Render(hash, ChainOf(x[..i + 1])) == Render(hash, ChainOf(y[..j + 1])) {
      RenderInjective(hash, diffs, ChainOf(x[..i + 1]), ChainOf(y[..j + 1]));
      ChainOfInjective(x[..i + 1], y[..j + 1]);
    }
  }

  lemma {:induction false} LinkedRenders(hash: string -> string, layers: seq<ManifestLayer>, infos: seq<LayerInfo>,
      hexes: seq<string>, i: nat)
    requires Linked(hash, layers, infos)
    requires |hexes| >= |infos| && forall k | 0 <= k < |infos| :: hexes[k] == infos[k].diffID
    requires i < |infos|
    ensures infos[i].chainID == Render(hash, ChainOf(hexes[..i + 1]))
  {
    assert hexes[..i + 1][..i] == hexes[..i];
    assert LinkedAt(hash, layers[i], infos, i);
    if i > 0 {
      LinkedRenders(hash, layers, infos, hexes, i - 1);
    }
  }

  function DiffIDs(infos: seq<LayerInfo>): (hexes: seq<string>)
    ensures |hexes| == |infos| && forall i | 0 <= i < |infos| :: hexes[i] == infos[i].diffID
  {
    seq(|infos|, i requires 0 <= i < |infos| => infos[i].diffID)
  }

  /** Digests of one algorithm agree as their digits do. */
  lemma DigestsAgree(d: string, e: string, alg: string, x: string, y: string)
    requires Digest(d, alg, x) && Digest(e, alg, y)
    ensures d == e <==> x == y
  {
    HexOfDigest(d, alg, x);
    HexOfDigest(e, alg, y);
  }

  lemma PrefixesAgree(alg: string, x: seq<LayerInfo>, xDiffIDs: seq<string>, y: seq<LayerInfo>, yDiffIDs: seq<string>, n: nat)
    requires Carry(x, alg, xDiffIDs) && Carry(y, alg, yDiffIDs) && n <= |x| && n <= |y|
    ensures xDiffIDs[..n] == yDiffIDs[..n] <==> DiffIDs(x)[..n] == DiffIDs(y)[..n]
  {
    forall k | 0 <= k < n ensures xDiffIDs[k] == yDiffIDs[k] <==> x[k].diffID == y[k].diffID {
      DigestsAgree(xDiffIDs[k], yDiffIDs[k], alg, x[k].diffID, y[k].diffID);
    }
    AgreeTo(xDiffIDs, yDiffIDs, n);
    AgreeTo(DiffIDs(x), DiffIDs(y), n);
  }

  lemma AgreeTo(x: seq<string>, y: seq<string>, n: nat)
    requires n <= |x| && n <= |y|
    ensures x[..n] == y[..n] <==> forall k | 0 <= k < n :: x[k] == y[k]
  {
    if x[..n] == y[..n] {
      forall k | 0 <= k < n ensures x[k] == y[k] {
        assert x[..n][k] == y[..n][k];
      }
    }
  }

  /** Across the layer infos of any two images whose digests are of one algorithm: two chain IDs are equal
      exactly when the digests up to them are. */
  lemma ChainIdsIdentifyDigests(hash: string -> string, diffs: set<string>, alg: string,
      xs: seq<ManifestLayer>, x: seq<LayerInfo>, xDiffIDs: seq<string>, i: nat,
      ys: seq<ManifestLayer>, y: seq<LayerInfo>, yDiffIDs: seq<string>, j: nat)
    requires Linked(hash, xs, x) && Carry(x, alg, xDiffIDs) && i < |x|
    requires Linked(hash, ys, y) && Carry(y, alg, yDiffIDs) && j < |y|
    requires GoodHash(hash, diffs)
    requires (forall d | d in DiffIDs(x) :: d in diffs) && (forall d | d in DiffIDs(y) :: d in diffs)
    ensures x[i].chainID == y[j].chainID <==> xDiffIDs[..i + 1] == yDiffIDs[..j + 1]
  {
    LinkedRenders(hash, xs, x, DiffIDs(x), i);
    LinkedRenders(hash, ys, y, DiffIDs(y), j);
    ChainIdsIdentifyPrefixes(hash, diffs, DiffIDs(x), DiffIDs(y), i, j);
    if i == j {
      PrefixesAgree(alg, x, xDiffIDs, y, yDiffIDs, i + 1);
    } else {
      assert |DiffIDs(x)[..i + 1]| != |DiffIDs(y)[..j + 1]| && |xDiffIDs[..i + 1]| != |yDiffIDs[..j + 1]|;
    }
  }

  /** The chain IDs of one image, as a chain. */
  function Chain(diffs: seq<string>): (cs: seq<ChainId>)
    ensures |cs| == |diffs|
    ensures forall i | 0 <= i < |diffs| :: cs[i] == ChainOf(diffs[..i + 1])
  {
    seq(|diffs|, i requires 0 <= i < |diffs| => ChainOf(diffs[..i + 1]))
  }

  lemma {:induction false} DepthOfChain(diffs: seq<string>)
    requires diffs != []
    ensures Depth(ChainOf(diffs)) == |diffs|
    decreases |diffs|
  {
    if |diffs| > 1 {
      DepthOfChain(diffs[..|diffs| - 1]);
    }
  }

  /** Every non-empty layer list gives a chain: each ID has its predecessor as parent, so no ID repeats. */
  lemma ImagesAreChains(diffs: seq<string>)
    requires diffs != []
    ensures IsChain(Chain(diffs))
    ensures forall i, j | 0 <= i < j < |diffs| :: Chain(diffs)[i] != Chain(diffs)[j]
  {
    var cs := Chain(diffs);
    forall i | 0 <= i < |diffs|
      ensures Depth(cs[i]) == i + 1 && (i > 0 ==> cs[i].Node? && cs[i].parent == cs[i - 1])
    {
      DepthOfChain(diffs[..i + 1]);
      assert diffs[..i + 1][..i] == diffs[..i];
    }
  }
}
