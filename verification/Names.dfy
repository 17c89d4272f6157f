/** Volume names: the abstract names the protocol works on, and the strings they stand for. */
module Names {
  import opened Strings
  import opened ChainIds

  /** A finished volume, or one still being filled by whoever drew the stamp. */
  datatype VolumeId = Final(chain: ChainId) | Temp(chain: ChainId, stamp: nat)

  datatype VolName = Live(id: VolumeId) | Gc(id: VolumeId)

  const GC := "gc."

  predicate HexDigits(s: string) {
    s != "" && forall c | c in s :: '0' <= c <= '9' || 'a' <= c <= 'f'
  }

  function IdString(hash: string -> string, stamps: nat -> string, id: VolumeId): string {
    match id
    case Final(c) => Render(hash, c)
    case Temp(c, n) => Render(hash, c) + "-incomplete-" + stamps(n)
  }

  function NameString(hash: string -> string, stamps: nat -> string, v: VolName): string {
    match v
    case Live(id) => IdString(hash, stamps, id)
    case Gc(id) => GC + IdString(hash, stamps, id)
  }

  ghost predicate HexHash(hash: string -> string, diffs: set<string>) {
    && GoodHash(hash, diffs)
    && (forall x :: HexDigits(hash(x)))
    && (forall d | d in diffs :: HexDigits(d))
  }

  lemma RenderHex(hash: string -> string, diffs: set<string>, c: ChainId)
    requires HexHash(hash, diffs) && Over(c, diffs)
    ensures HexDigits(Render(hash, c))
  {
  }

  lemma IdStartsWithHex(hash: string -> string, stamps: nat -> string, diffs: set<string>, id: VolumeId)
    requires HexHash(hash, diffs) && Over(id.chain, diffs)
    ensures IdString(hash, stamps, id) != "" && IdString(hash, stamps, id)[0] != 'g'
  {
    RenderHex(hash, diffs, id.chain);
    assert Render(hash, id.chain)[0] in Render(hash, id.chain);
  }

  /** The prefix test of the collector separates condemned volumes from all others. */
  lemma GcPrefixSeparates(hash: string -> string, stamps: nat -> string, diffs: set<string>, v: VolName)
    requires HexHash(hash, diffs) && Over(v.id.chain, diffs)
    ensures HasPrefix(NameString(hash, stamps, v), "gc.") <==> v.Gc?
  {
    IdStartsWithHex(hash, stamps, diffs, v.id);
  }

  lemma HexPartUnique(a: string, x: string, b: string, y: string)
    requires HexDigits(a) && HexDigits(b)
    requires x == "" || x[0] == '-'
    requires y == "" || y[0] == '-'
    requires a + x == b + y
    ensures a == b && x == y
  {
    var s := a + x;
    assert forall k | 0 <= k < |a| :: s[k] == a[k] && a[k] in a;
    assert s == b + y && forall k | 0 <= k < |b| :: s[k] == b[k] && b[k] in b;
    assert |a| < |s| ==> s[|a|] == '-';
    assert |b| < |s| ==> s[|b|] == '-';
    assert a == s[..|a|] && b == s[..|b|];
    assert x == s[|a|..] && y == s[|b|..];
  }

  /** Different volumes never share a name on disk. */
  lemma NamesDistinct(hash: string -> string, stamps: nat -> string, diffs: set<string>, v: VolName, w: VolName)
    requires HexHash(hash, diffs) && Over(v.id.chain, diffs) && Over(w.id.chain, diffs)
    requires forall m, n :: stamps(m) == stamps(n) ==> m == n
    requires NameString(hash, stamps, v) == NameString(hash, stamps, w)
    ensures v == w
  {
    assert v.Gc? == w.Gc? by {
      GcPrefixSeparates(hash, stamps, diffs, v);
      GcPrefixSeparates(hash, stamps, diffs, w);
    }
    var s, t := IdString(hash, stamps, v.id), IdString(hash, stamps, w.id);
    assert s == t by {
      if v.Gc? {
        assert s == (GC + s)[|GC|..] && t == (GC + t)[|GC|..];
      }
    }
    IdsDistinct(hash, stamps, diffs, v.id, w.id);
  }

  function Suffix(stamps: nat -> string, id: VolumeId): string {
    if id.Final? then "" else "-incomplete-" + stamps(id.stamp)
  }

  lemma IdsDistinct(hash: string -> string, stamps: nat -> string, diffs: set<string>, i: VolumeId, j: VolumeId)
    requires HexHash(hash, diffs) && Over(i.chain, diffs) && Over(j.chain, diffs)
    requires forall m, n :: stamps(m) == stamps(n) ==> m == n
    requires IdString(hash, stamps, i) == IdString(hash, stamps, j)
    ensures i == j
  {
    var a, b := Render(hash, i.chain), Render(hash, j.chain);
    var x, y := Suffix(stamps, i), Suffix(stamps, j);
    assert a == b && x == y by {
      RenderHex(hash, diffs, i.chain);
      RenderHex(hash, diffs, j.chain);
      assert IdString(hash, stamps, i) == a + x && IdString(hash, stamps, j) == b + y;
      HexPartUnique(a, x, b, y);
    }
    assert i.chain == j.chain by {
      RenderInjective(hash, diffs, i.chain, j.chain);
    }
    if i.Temp? && j.Temp? {
      assert stamps(i.stamp) == x[|"-incomplete-"|..] == y[|"-incomplete-"|..] == stamps(j.stamp);
    }
  }

  /** VolumeMetaFilePath, below the metadata directory. */
  function MetaName(id: string): string {
    "volume-" + ReplaceFirst(id, GC, "")
  }

  /** A marked volume keeps its metadata file exactly when its own name is free of the marker. */
  lemma MetaSharedIff(id: string)
    ensures MetaName("gc." + id) == "volume-" + id
    ensures MetaName("gc." + id) == MetaName(id) <==> !Contains(id, "gc.")
  {
  }

  /** MarkUnused computes the new path by replacing the first occurrence of the ID in the whole path. */
  function MarkedPath(dir: string, id: string): string {
    ReplaceFirst(dir + "/" + id, id, GC + id)
  }

  /** The rename lands beside the volume exactly when the ID does not occur earlier in the path. */
  lemma MarkedPathLandsIff(dir: string, id: string)
    requires id != ""
    ensures MarkedPath(dir, id) == dir + "/" + "gc." + id
       <==> forall k: nat | k <= |dir| :: !OccursAt(dir + "/" + id, id, k)
  {
    var d := dir + "/";
    var s := d + id;
    assert dir + "/" + id == s;
    assert OccursAt(s, id, |d|);
    var p := Index(s, id);
    assert p <= |d|;
    ReplaceFirstAt(s, id, GC + id, p);
    assert dir + "/" + GC + id == d + GC + id;
    if p < |d| {
      assert OccursAt(s, id, p) && p <= |dir|;
      EarlierMark(dir, id, p);
    } else {
      assert s[..p] == d && s[p + |id|..] == "";
    }
  }

  lemma EarlierMark(dir: string, id: string, p: nat)
    requires p <= |dir| && OccursAt(dir + "/" + id, id, p)
    ensures (dir + "/" + id)[..p] + (GC + id) + (dir + "/" + id)[p + |id|..] != dir + "/" + GC + id
  {
    var d := dir + "/";
    var s := d + id;
    assert s == dir + "/" + id;
    var r := s[..p] + (GC + id) + s[p + |id|..];
    var want := d + GC + id;
    assert s[p..] == id + s[p + |id|..];
    assert r == s[..p] + GC + s[p..];
    assert r[|d| + 2] == s[|d| - 1] == '/';
    assert want[|d| + 2] == '.';
  }

  /** finalizeVolume's own replacement, whose temporary name is the longer one and has no slash, lands beside
      the temporary volume exactly when that name does not occur earlier in the path. */
  lemma FinalPathLandsIff(dir: string, temp: string, chainID: string)
    requires '/' !in temp && |chainID| < |temp|
    ensures ReplaceFirst(dir + "/" + temp, temp, chainID) == dir + "/" + chainID
       <==> forall k: nat | k <= |dir| :: !OccursAt(dir + "/" + temp, temp, k)
  {
    var s := dir + "/" + temp;
    assert OccursAt(s, temp, |dir| + 1);
    var p := Index(s, temp);
    ReplaceFirstAt(s, temp, chainID, p);
    if p == |dir| + 1 {
      assert s[..p] == dir + "/" && s[p + |temp|..] == "";
    } else {
      EarlierOccurrenceStays(dir, temp, chainID, p);
    }
  }

  /** An earlier occurrence ends before the last slash, so the temporary name stays at the end of the path. */
  lemma EarlierOccurrenceStays(dir: string, temp: string, chainID: string, p: nat)
    requires '/' !in temp && |chainID| < |temp| && p <= |dir| && OccursAt(dir + "/" + temp, temp, p)
    ensures (dir + "/" + temp)[..p] + chainID + (dir + "/" + temp)[p + |temp|..] != dir + "/" + chainID
  {
    var s, want := dir + "/" + temp, dir + "/" + chainID;
    forall k | p <= k < p + |temp| ensures s[k] != '/' {
      assert s[k] == temp[k - p] && temp[k - p] in temp;
    }
    assert s[|dir|] == '/';
    var r := s[..p] + chainID + s[p + |temp|..];
    assert |r| == |want|;
    assert want[|dir|] == '/';
    assert r[|dir|] == s[|dir| + |temp| - |chainID|] == temp[|temp| - |chainID| - 1];
    assert temp[|temp| - |chainID| - 1] in temp;
  }
}
