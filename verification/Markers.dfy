/** Reading whiteout markers anywhere in a name, against the specification's reading of base names. */
module Markers {
  import opened Strings
  import opened Trees
  import opened Layers
  import LayerSpec

  predicate Clean(p: Path) {
    forall k | 0 <= k < |p| :: p[k] != "" && p[k] != "." && p[k] != ".."
  }

  lemma MarkerInOpaque(s: string)
    requires Contains(s, OPAQUE)
    ensures Contains(s, WHITEOUT)
  {
    var k: nat :| k <= |s| && OccursAt(s, OPAQUE, k);
    assert s[k..k + 4] == s[k..k + |OPAQUE|][..4] == WHITEOUT;
    assert OccursAt(s, WHITEOUT, k);
  }

  lemma {:induction false} DropNothing(p: Path)
    requires Clean(p)
    ensures DropEmpty(p) == p
    decreases |p|
  {
    if p != [] {
      DropNothing(p[1..]);
    }
  }

  lemma {:induction false} StripLast(dir: Path, base: string)
    requires !AnyContains(dir, WHITEOUT) && HasPrefix(base, WHITEOUT)
    ensures StripMarker(dir + [base]) == dir + [base[|WHITEOUT|..]]
    decreases |dir|
  {
    var p := dir + [base];
    if dir == [] {
      assert OccursAt(base, WHITEOUT, 0);
      ReplaceFirstAt(base, WHITEOUT, "", 0);
      assert base[..0] + "" + base[0 + |WHITEOUT|..] == base[|WHITEOUT|..];
    } else {
      assert !Contains(dir[0], WHITEOUT);
      assert p[1..] == dir[1..] + [base];
      StripLast(dir[1..], base);
    }
  }

  /** Stripping a marker out of a directory leaves the base name as it was. */
  lemma {:induction false} StripKeepsBase(dir: Path, base: string)
    requires AnyContains(dir, WHITEOUT)
    ensures StripMarker(dir + [base]) != [] && StripMarker(dir + [base])[|StripMarker(dir + [base])| - 1] == base
    decreases |dir|
  {
    var p := dir + [base];
    assert p[1..] == dir[1..] + [base];
    if !Contains(p[0], WHITEOUT) {
      assert AnyContains(dir[1..], WHITEOUT) by {
        var k :| 0 <= k < |dir| && Contains(dir[k], WHITEOUT);
        assert dir[1..][k - 1] == dir[k];
      }
      StripKeepsBase(dir[1..], base);
    }
  }

  lemma {:induction false} DropEmptyKeepsBase(p: Path)
    requires p != [] && p[|p| - 1] != ""
    ensures DropEmpty(p) != [] && DropEmpty(p)[|DropEmpty(p)| - 1] == p[|p| - 1]
    decreases |p|
  {
    if |p| > 1 {
      DropEmptyKeepsBase(p[1..]);
    }
  }

  /** The entry's name and base directory are made of proper names, and so is what a whiteout leaves. */
  predicate Proper(spec: UnpackSpec, h: Header) {
    h.name != [] ==>
      var base := h.name[|h.name| - 1];
      && Clean(h.name) && Clean(spec.baseDirectory)
      && (HasPrefix(base, WHITEOUT) ==> Clean([base[|WHITEOUT|..]]))
  }

  /** No marker at all; or the opaque base name; or a leading marker in a base name that holds no opaque
      marker, with none in the directories above it, the base directory included. */
  predicate ReadAlike(spec: UnpackSpec, h: Header) {
    h.name != [] ==>
      var base := h.name[|h.name| - 1];
      || !AnyContains(h.name, WHITEOUT)
      || base == OPAQUE
      || (HasPrefix(base, WHITEOUT) && !AnyContains(h.name, OPAQUE) && !AnyContains(spec.baseDirectory + Parent(h.name), WHITEOUT))
  }

  /** Exactly when the code reads a name as the specification does. */
  lemma ClassifyAgreesIff(spec: UnpackSpec, h: Header)
    requires Proper(spec, h)
    ensures Classify(spec, h) == OciAction(spec, h) <==> ReadAlike(spec, h)
  {
    if h.name == [] { return; }
    var base := h.name[|h.name| - 1];
    var dir := spec.baseDirectory + Parent(h.name);
    var path := spec.baseDirectory + h.name;
    assert path == dir + [base] && Parent(path) == dir;
    if HasPrefix(base, WHITEOUT) {
      assert OccursAt(base, WHITEOUT, 0);
    }
    if base == OPAQUE {
      assert OccursAt(base, OPAQUE, 0);
      assert Contains(base, OPAQUE);
    } else if AnyContains(h.name, OPAQUE) {
      var k :| 0 <= k < |h.name| && Contains(h.name[k], OPAQUE);
      MarkerInOpaque(h.name[k]);
    } else if AnyContains(h.name, WHITEOUT) && HasPrefix(base, WHITEOUT) {
      assert Clean(dir) by {
        assert forall k | 0 <= k < |Parent(h.name)| :: Parent(h.name)[k] == h.name[k];
      }
      StrippedIff(dir, base);
    }
  }

  /** Stripping finds the whiteout's target exactly when no directory above it holds a marker. */
  lemma StrippedIff(dir: Path, base: string)
    requires Clean(dir) && base != "" && HasPrefix(base, WHITEOUT) && Clean([base[|WHITEOUT|..]])
    ensures DropEmpty(StripMarker(dir + [base])) == dir + [base[|WHITEOUT|..]] <==> !AnyContains(dir, WHITEOUT)
    ensures !AnyContains(dir, WHITEOUT) ==> Clean(dir + [base[|WHITEOUT|..]])
  {
    if AnyContains(dir, WHITEOUT) {
      StripKeepsBase(dir, base);
      DropEmptyKeepsBase(StripMarker(dir + [base]));
      assert base != base[|WHITEOUT|..];
    } else {
      StripLast(dir, base);
      assert [base[|WHITEOUT|..]][0] == base[|WHITEOUT|..];
      DropNothing(dir + [base[|WHITEOUT|..]]);
    }
  }

  /** The path as one string, each component after a slash. */
  function Joined(p: Path): string {
    if p == [] then "" else "/" + p[0] + Joined(p[1..])
  }

  /** A marker without a slash in the joined path is in one of the components. */
  lemma {:induction false} JoinedContains(p: Path, sub: string)
    requires sub != "" && '/' !in sub
    ensures Contains(Joined(p), sub) <==> AnyContains(p, sub)
    decreases |p|
  {
    if p == [] {
      assert !OccursAt("", sub, 0);
    } else {
      JoinedContains(p[1..], sub);
      var rest := Joined(p[1..]);
      HeadOrTail(p[0], rest, sub);
      if AnyContains(p, sub) && !Contains(p[0], sub) {
        var k :| 0 <= k < |p| && Contains(p[k], sub);
        assert p[1..][k - 1] == p[k];
      }
      if AnyContains(p[1..], sub) {
        var k :| 0 <= k < |p[1..]| && Contains(p[1..][k], sub);
        assert p[k + 1] == p[1..][k];
      }
    }
  }

  lemma HeadOrTail(head: string, rest: string, sub: string)
    requires sub != "" && '/' !in sub && (rest == "" || rest[0] == '/')
    ensures Contains("/" + head + rest, sub) <==> Contains(head, sub) || Contains(rest, sub)
  {
    var s := "/" + head + rest;
    if Contains(head, sub) {
      var k: nat :| k <= |head| && OccursAt(head, sub, k);
      assert s[k + 1..k + 1 + |sub|] == head[k..k + |sub|];
      assert OccursAt(s, sub, k + 1);
    }
    if Contains(rest, sub) {
      var k: nat :| k <= |rest| && OccursAt(rest, sub, k);
      assert s[1 + |head| + k..1 + |head| + k + |sub|] == rest[k..k + |sub|];
      assert OccursAt(s, sub, 1 + |head| + k);
    }
    if Contains(s, sub) {
      var k: nat :| k <= |s| && OccursAt(s, sub, k);
      NotAcross(head, rest, sub, k);
    }
  }

  /** An occurrence lies within the head or within the rest. */
  lemma NotAcross(head: string, rest: string, sub: string, k: nat)
    requires sub != "" && '/' !in sub && (rest == "" || rest[0] == '/')
    requires OccursAt("/" + head + rest, sub, k)
    ensures (k >= 1 && OccursAt(head, sub, k - 1)) || (k > |head| && OccursAt(rest, sub, k - 1 - |head|))
  {
    var s := "/" + head + rest;
    forall i | k <= i < k + |sub| ensures s[i] != '/' {
      assert s[i] == sub[i - k] && sub[i - k] in sub;
    }
    assert s[k] != '/' && s[0] == '/';
    if k <= |head| {
      assert rest != "" ==> s[1 + |head|] == '/';
      assert k + |sub| <= 1 + |head|;
      assert head[k - 1..k - 1 + |sub|] == s[k..k + |sub|];
    } else {
      assert rest[k - 1 - |head|..k - 1 - |head| + |sub|] == s[k..k + |sub|];
    }
  }

  /** Stripping a marker component by component is strings.Replace on the joined path. */
  lemma {:induction false} StripIsReplace(p: Path)
    ensures Joined(StripMarker(p)) == ReplaceFirst(Joined(p), WHITEOUT, "")
    decreases |p|
  {
    if p != [] {
      var rest := Joined(p[1..]);
      HeadOrTail(p[0], rest, WHITEOUT);
      StripIsReplace(p[1..]);
      if Contains(p[0], WHITEOUT) {
        StripsHead(p[0], rest);
      } else {
        StripsRest(p[0], rest);
      }
    }
  }

  lemma StripsHead(head: string, rest: string)
    requires Contains(head, WHITEOUT) && (rest == "" || rest[0] == '/')
    ensures ReplaceFirst("/" + head + rest, WHITEOUT, "") == "/" + ReplaceFirst(head, WHITEOUT, "") + rest
  {
    var s, k := "/" + head + rest, Index(head, WHITEOUT);
    assert s[k + 1..k + 1 + |WHITEOUT|] == head[k..k + |WHITEOUT|];
    forall j: nat | j < k + 1 ensures !OccursAt(s, WHITEOUT, j) {
      if OccursAt(s, WHITEOUT, j) {
        NotAcross(head, rest, WHITEOUT, j);
      }
    }
    ReplaceFirstAt(s, WHITEOUT, "", k + 1);
    CutOut(head, rest, k, |WHITEOUT|);
  }

  lemma CutOut(head: string, rest: string, k: nat, n: nat)
    requires k + n <= |head|
    ensures
      var s := "/" + head + rest;
      s[..k + 1] + "" + s[k + 1 + n..] == "/" + (head[..k] + "" + head[k + n..]) + rest
  {
    var s := "/" + head + rest;
    assert s[..k + 1] == "/" + head[..k];
    assert s[k + 1 + n..] == head[k + n..] + rest;
  }

  lemma StripsRest(head: string, rest: string)
    requires !Contains(head, WHITEOUT) && (rest == "" || rest[0] == '/')
    ensures ReplaceFirst("/" + head + rest, WHITEOUT, "") == "/" + head + ReplaceFirst(rest, WHITEOUT, "")
  {
    var s := "/" + head + rest;
    HeadOrTail(head, rest, WHITEOUT);
    if Contains(rest, WHITEOUT) {
      var k := Index(rest, WHITEOUT);
      assert s[1 + |head| + k..1 + |head| + k + |WHITEOUT|] == rest[k..k + |WHITEOUT|];
      forall j: nat | j < 1 + |head| + k ensures !OccursAt(s, WHITEOUT, j) {
        if OccursAt(s, WHITEOUT, j) {
          NotAcross(head, rest, WHITEOUT, j);
        }
      }
      ReplaceFirstAt(s, WHITEOUT, "", 1 + |head| + k);
      assert s[..1 + |head| + k] == "/" + head + rest[..k];
      assert s[1 + |head| + k + |WHITEOUT|..] == rest[k + |WHITEOUT|..];
    }
  }

  /** The layer as the specification reads it. */
  function OciAll(spec: UnpackSpec, headers: seq<Header>): (actions: seq<Action>)
    ensures |actions| == |headers|
    ensures forall k | 0 <= k < |headers| :: actions[k] == OciAction(spec, headers[k])
  {
    seq(|headers|, k requires 0 <= k < |headers| => OciAction(spec, headers[k]))
  }

  /** Layer application refines the specification: a layer whose names the code reads alike, and that
      unpacks, leaves the lower tree minus what the layer whites out, overridden by its entries, exactly
      when no marker comes too late and no directory has the last word over something else. */
  lemma UnpackRefinesOci(spec: UnpackSpec, lower: Tree, headers: seq<Header>)
    requires forall h | h in headers :: Proper(spec, h) && ReadAlike(spec, h)
    requires UnpackLayer(spec, lower, headers).Unpacked?
    ensures
      var es := OciAll(spec, headers);
      LayerSpec.IsOverlay(UnpackLayer(spec, lower, headers).tree, lower, es) <==>
        LayerSpec.NoLateMarker(es) && LayerSpec.NoSwap(lower, es)
  {
    assert OciAll(spec, headers) == ClassifyAll(spec, headers) by {
      forall k | 0 <= k < |headers| ensures OciAction(spec, headers[k]) == Classify(spec, headers[k]) {
        ClassifyAgreesIff(spec, headers[k]);
      }
    }
    LayerSpec.UnpackIsOverlayIff(lower, ClassifyAll(spec, headers));
  }
}
