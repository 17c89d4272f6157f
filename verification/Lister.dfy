/** Listing the subvolumes of an image in the order in which they can be deleted, and deleting them:
    store/filesystems/btrfs/drax/lister/btrfs.go and DestroyImage of the btrfs driver. */
module Lister {
  import opened Options
  import opened Strings
  import opened StringOrder

  /** The subvolume `q` is nested somewhere inside `p`. */
  predicate Inside(p: string, q: string) {
    p + "/" <= q
  }

  /** Splitting a path at its slashes gives its components back. */
  lemma {:induction false} PathComponents(path: seq<string>)
    requires forall c | c in path :: '/' !in c
    ensures Split(PathString(path), '/') == [""] + path
    decreases |path|
  {
    if path != [] {
      var up, last := path[..|path| - 1], path[|path| - 1];
      PathComponents(up);
      SplitParts(PathString(up), '/', last);
      assert path == up + [last];
    }
  }

  // ----- the listing

  /** The fields of a line. */
  function Fields(line: string): seq<string> {
    Split(TrimSpace(line), ' ')
  }

  /** Every line has its nine fields. */
  predicate Regular(lines: seq<string>) {
    forall i | 0 <= i < |lines| :: |Fields(lines[i])| == 9
  }

  function PathAt(mountPoint: string, line: string): string
    requires |Fields(line)| == 9
  {
    mountPoint + "/" + TrimSpace(Fields(line)[8])
  }

  /** A path at whose ends there is no white space. */
  predicate Tidy(rel: string) {
    rel != "" && !IsSpace(rel[0]) && !IsSpace(rel[|rel| - 1])
  }

  /** The words, each followed by a blank, and then the rest. */
  function Spaced(words: seq<string>, rest: string): string {
    if words == [] then rest else words[0] + " " + Spaced(words[1..], rest)
  }

  function LineWords(id: string, generation: string, parent: string): seq<string> {
    ["ID", id, "gen", generation, "top", "level", parent, "path"]
  }

  /** What btrfs prints of a subvolume, as in `ID 256 gen 11 top level 5 path images/x/rootfs`: its path,
      relative to the mount point, comes last. */
  function LineOf(id: string, generation: string, parent: string, rel: string): string {
    Spaced(LineWords(id, generation, parent), rel)
  }

  /** The line says that there is a subvolume at `rel`; a last line may lack its newline. */
  ghost predicate Says(line: string, rel: string) {
    exists id, generation, parent |
      ' ' !in id && ' ' !in generation && ' ' !in parent ::
      line == LineOf(id, generation, parent, rel) || line == LineOf(id, generation, parent, rel) + "\n"
  }

  /** `btrfs subvolume list` for subvolumes at these paths, relative to the mount point. */
  ghost predicate ListingOf(lines: seq<string>, rels: seq<string>) {
    |lines| == |rels| && forall i | 0 <= i < |rels| :: Tidy(rels[i]) && Says(lines[i], rels[i])
  }

  lemma {:induction false} SpacedEnds(words: seq<string>, rel: string)
    requires rel != ""
    ensures Spaced(words, rel) != "" && Spaced(words, rel)[|Spaced(words, rel)| - 1] == rel[|rel| - 1]
  {
    if words != [] {
      SpacedEnds(words[1..], rel);
    }
  }

  lemma LineTidy(id: string, generation: string, parent: string, rel: string)
    requires Tidy(rel)
    ensures Tidy(LineOf(id, generation, parent, rel))
  {
    var words := LineWords(id, generation, parent);
    SpacedEnds(words, rel);
    assert LineOf(id, generation, parent, rel) == words[0] + " " + Spaced(words[1..], rel);
    assert words[0][0] == 'I';
  }

  lemma TrimTidy(s: string)
    requires Tidy(s)
    ensures TrimSpace(s) == s && TrimSpace(s + "\n") == s
  {
    var t := s + "\n";
    assert t[0] == s[0] && t[|t| - 1] == '\n' && t[..|t| - 1] == s;
  }

  lemma {:induction false} SpacedSplits(words: seq<string>, rest: string)
    requires forall word | word in words :: ' ' !in word
    ensures Split(Spaced(words, rest), ' ') == words + Split(rest, ' ')
  {
    if words != [] {
      SpacedSplits(words[1..], rest);
      SplitWord(words[0], ' ', Spaced(words[1..], rest));
    }
  }

  /** A line has its nine fields exactly when the path in it has no blank, and then the path is read back. */
  lemma LineReads(line: string, rel: string, mountPoint: string)
    requires Tidy(rel) && Says(line, rel)
    ensures |Fields(line)| == 9 <==> ' ' !in rel
    ensures ' ' !in rel ==> PathAt(mountPoint, line) == mountPoint + "/" + rel
  {
    var id, generation, parent :| ' ' !in id && ' ' !in generation && ' ' !in parent &&
      (line == LineOf(id, generation, parent, rel) || line == LineOf(id, generation, parent, rel) + "\n");
    var s := LineOf(id, generation, parent, rel);
    LineTidy(id, generation, parent, rel);
    TrimTidy(s);
    SpacedSplits(LineWords(id, generation, parent), rel);
    SplitOnce(rel, ' ');
    TrimTidy(rel);
  }

  /** The listed subvolumes that have the image path as a bare string prefix, in the order of the lines. */
  function Selected(lines: seq<string>, mountPoint: string, path: string): seq<string>
    requires Regular(lines)
  {
    if lines == [] then []
    else
      var v := PathAt(mountPoint, lines[|lines| - 1]);
      Selected(lines[..|lines| - 1], mountPoint, path) + if HasPrefix(v, path) then [v] else []
  }

  /** extractPaths: a line that does not have nine fields is an error. */
  method ExtractPaths(lines: seq<string>, mountPoint: string, path: string) returns (r: Option<seq<string>>)
    ensures r.Some? <==> Regular(lines)
    ensures r.Some? ==> r.value == Selected(lines, mountPoint, path)
  {
    var subvolumes := [];
    for k := 0 to |lines|
      invariant Regular(lines[..k])
      invariant subvolumes == Selected(lines[..k], mountPoint, path)
    {
      var fields := Split(TrimSpace(lines[k]), ' ');
      if |fields| != 9 {
        return None;
      }
      var v := mountPoint + "/" + TrimSpace(fields[8]);
      if HasPrefix(v, path) {
        subvolumes := subvolumes + [v];
      }
      assert lines[..k + 1][..k] == lines[..k];
    }
    assert lines[..|lines|] == lines;
    return Some(subvolumes);
  }

  /** What the selection holds. */
  lemma {:induction false} SelectedIff(lines: seq<string>, mountPoint: string, path: string, v: string)
    requires Regular(lines)
    ensures v in Selected(lines, mountPoint, path) <==>
      HasPrefix(v, path) && exists i | 0 <= i < |lines| :: PathAt(mountPoint, lines[i]) == v
    decreases |lines|
  {
    if lines != [] {
      var init, last := lines[..|lines| - 1], PathAt(mountPoint, lines[|lines| - 1]);
      SelectedIff(init, mountPoint, path, v);
      if i :| 0 <= i < |init| && PathAt(mountPoint, init[i]) == v {
        assert PathAt(mountPoint, lines[i]) == v;
      }
      if i :| 0 <= i < |lines| && PathAt(mountPoint, lines[i]) == v && v != last {
        assert PathAt(mountPoint, init[i]) == v;
      }
      assert v == last ==> PathAt(mountPoint, lines[|lines| - 1]) == v;
    }
  }

  /** Of a listing, the lister selects the paths with the prefix; it fails when a path in it has a blank. */
  lemma ListingSelects(lines: seq<string>, rels: seq<string>, mountPoint: string, path: string)
    requires ListingOf(lines, rels)
    ensures Regular(lines) <==> forall rel | rel in rels :: ' ' !in rel
    ensures Regular(lines) ==> forall v :: v in Selected(lines, mountPoint, path) <==>
      HasPrefix(v, path) && exists rel | rel in rels :: v == mountPoint + "/" + rel
  {
    forall i | 0 <= i < |rels|
      ensures |Fields(lines[i])| == 9 <==> ' ' !in rels[i]
      ensures ' ' !in rels[i] ==> PathAt(mountPoint, lines[i]) == mountPoint + "/" + rels[i]
    {
      LineReads(lines[i], rels[i], mountPoint);
    }
    if Regular(lines) {
      forall v ensures v in Selected(lines, mountPoint, path) <==> HasPrefix(v, path) && exists rel | rel in rels :: v == mountPoint + "/" + rel {
        SelectedIff(lines, mountPoint, path, v);
        if rel :| rel in rels && v == mountPoint + "/" + rel {
          var i :| 0 <= i < |rels| && rels[i] == rel;
          assert PathAt(mountPoint, lines[i]) == v;
        }
      }
    }
  }

  predicate Distinct(vs: seq<string>) {
    forall i, j | 0 <= i < j < |vs| :: vs[i] != vs[j]
  }

  /** A listing without repetitions gives a selection without repetitions. */
  lemma {:induction false} SelectedDistinct(lines: seq<string>, mountPoint: string, path: string)
    requires Regular(lines)
    requires forall i, j | 0 <= i < j < |lines| :: PathAt(mountPoint, lines[i]) != PathAt(mountPoint, lines[j])
    ensures Distinct(Selected(lines, mountPoint, path))
    decreases |lines|
  {
    if lines != [] {
      var init, last := lines[..|lines| - 1], PathAt(mountPoint, lines[|lines| - 1]);
      SelectedDistinct(init, mountPoint, path);
      SelectedIff(init, mountPoint, path, last);
      forall i | 0 <= i < |init| ensures PathAt(mountPoint, init[i]) != last {
        assert init[i] == lines[i];
      }
    }
  }

  /** So does a listing of distinct paths. */
  lemma ListingDistinct(lines: seq<string>, rels: seq<string>, mountPoint: string, path: string)
    requires ListingOf(lines, rels) && Distinct(rels) && Regular(lines)
    ensures Distinct(Selected(lines, mountPoint, path))
  {
    forall i, j | 0 <= i < j < |lines| ensures PathAt(mountPoint, lines[i]) != PathAt(mountPoint, lines[j]) {
      LineReads(lines[i], rels[i], mountPoint);
      LineReads(lines[j], rels[j], mountPoint);
      assert (mountPoint + "/" + rels[i])[|mountPoint| + 1..] == rels[i];
      assert (mountPoint + "/" + rels[j])[|mountPoint| + 1..] == rels[j];
    }
    SelectedDistinct(lines, mountPoint, path);
  }

  lemma DistinctOnce(vs: seq<string>, v: string)
    requires Distinct(vs)
    ensures multiset(vs)[v] <= 1
  {
    if k :| 0 <= k < |vs| && vs[k] == v {
      assert vs == vs[..k] + [v] + vs[k + 1..];
      assert v !in vs[..k] && v !in vs[k + 1..];
    }
  }

  lemma RepeatedTwice(vs: seq<string>, i: nat, j: nat)
    requires i < j < |vs| && vs[i] == vs[j]
    ensures multiset(vs)[vs[i]] >= 2
  {
    assert vs == vs[..i] + [vs[i]] + vs[i + 1..j] + [vs[j]] + vs[j + 1..];
  }

  /** Sorting does not repeat. */
  lemma DistinctKept(vs: seq<string>, ws: seq<string>)
    requires multiset(vs) == multiset(ws) && Distinct(ws)
    ensures Distinct(vs)
  {
    forall i, j | 0 <= i < j < |vs| ensures vs[i] != vs[j] {
      DistinctOnce(ws, vs[i]);
      if vs[i] == vs[j] {
        RepeatedTwice(vs, i, j);
      }
    }
  }

  lemma SortedSame(vs: seq<string>, ws: seq<string>)
    requires multiset(vs) == multiset(ws)
    ensures forall v :: v in vs <==> v in ws
  {
    assert forall v :: v in vs <==> v in multiset(vs);
    assert forall v :: v in ws <==> v in multiset(ws);
  }

  /** Downwards in the byte-wise order. */
  ghost predicate Descending(vs: seq<string>) {
    forall i, j | 0 <= i < j < |vs| :: AtMost(vs[j], vs[i])
  }

  /** sort.Sort(sort.Reverse(...)) */
  method SortDescending(vs: seq<string>) returns (r: seq<string>)
    ensures Descending(r) && multiset(r) == multiset(vs)
  {
    var up := SortStrings(vs);
    r := [];
    for i := 0 to |up|
      invariant |r| == i && forall j | 0 <= j < i :: r[j] == up[i - 1 - j]
    {
      r := [up[i]] + r;
    }
    BackwardsSame(up, r);
  }

  lemma {:induction false} BackwardsSame(up: seq<string>, r: seq<string>)
    requires |r| == |up| && forall j | 0 <= j < |up| :: r[j] == up[|up| - 1 - j]
    ensures multiset(r) == multiset(up)
    decreases |up|
  {
    if up != [] {
      var n := |up| - 1;
      assert forall j | 0 <= j < n :: r[1..][j] == up[..n][n - 1 - j];
      BackwardsSame(up[..n], r[1..]);
      assert r == [up[n]] + r[1..] && up == up[..n] + [up[n]];
    }
  }

  method List(mounts: string, lines: seq<string>, path: seq<string>) returns (r: Option<seq<string>>)
    ensures r.Some? <==> Nearest(mounts, path).Some? && Regular(lines)
    ensures r.Some? ==>
      var mountPoint := PathString(path[..Nearest(mounts, path).value]);
      Descending(r.value) && multiset(r.value) == multiset(Selected(lines, mountPoint, PathString(path)))
  {
    var k := FindMountPoint(mounts, path);
    if k.None? {
      return None;
    }
    var extracted := ExtractPaths(lines, PathString(path[..k.value]), PathString(path));
    if extracted.None? {
      return None;
    }
    var sorted := SortDescending(extracted.value);
    return Some(sorted);
  }

  /** In that order, whatever is nested in a subvolume comes before it. */
  lemma NestedFirst(vs: seq<string>, i: nat, j: nat)
    requires Descending(vs) && i < |vs| && j < |vs|
    requires Inside(vs[i], vs[j])
    ensures j < i
  {
    assert vs[i] <= vs[i] + "/" <= vs[j] && vs[i] != vs[j];
    PrefixFirst(vs[i], vs[j]);
  }

  lemma NestedListedBefore(vs: seq<string>, i: nat, q: string)
    requires Descending(vs) && i < |vs|
    ensures Inside(vs[i], q) && q in vs ==> q in vs[..i]
  {
    if Inside(vs[i], q) && q in vs {
      var j :| 0 <= j < |vs| && vs[j] == q;
      NestedFirst(vs, i, j);
      assert vs[..i][j] == q;
    }
  }

  /** The bare-prefix filter selects exactly the image and what is inside it when no other listed path
      extends the image path without a slash. */
  lemma PrefixMeansInsideIff(subvolumes: set<string>, path: string)
    ensures (forall v | v in subvolumes :: HasPrefix(v, path) <==> v == path || Inside(path, v))
       <==> forall v | v in subvolumes && |v| > |path| && HasPrefix(v, path) :: v[|path|] == '/'
  {
  }

  datatype Deleted = Gone | NotFound | NotEmpty

  /** The subvolumes of a btrfs filesystem. */
  class Subvolumes {
    var paths: set<string>

    /** btrfs refuses to delete a subvolume that contains another. */
    method Destroy(p: string) returns (r: Deleted)
      modifies this
      ensures r.Gone? <==> p in old(paths) && forall q | q in old(paths) :: !Inside(p, q)
      ensures r.NotFound? <==> p !in old(paths)
      ensures paths == if r.Gone? then old(paths) - {p} else old(paths)
    {
      if p !in paths {
        return NotFound;
      }
      if exists q | q in paths :: Inside(p, q) {
        return NotEmpty;
      }
      paths := paths - {p};
      return Gone;
    }

    /** The paths, all of them there and with whatever is nested in them, in the lister's order. */
    ghost predicate Deletable(vs: seq<string>)
      reads this
    {
      && Descending(vs) && Distinct(vs)
      && (forall v | v in vs :: v in paths)
      && (forall v, q | v in vs && q in paths && Inside(v, q) :: q in vs)
    }

    /** DestroyImage's loop removes nothing it is not given; given a deletable list it never meets a subvolume
        that still contains one, and removes them all. */
    method DestroyAll(vs: seq<string>) returns (ok: bool)
      modifies this
      ensures paths <= old(paths) && old(paths) - paths <= set v | v in vs
      ensures ok ==> paths == old(paths) - set v | v in vs
      ensures old(Deletable(vs)) ==> ok
    {
      ok := true;
      for i := 0 to |vs|
        invariant paths == old(paths) - set v | v in vs[..i]
      {
        assert vs[..i + 1] == vs[..i] + [vs[i]];
        assert old(Deletable(vs)) ==> vs[i] in paths && forall q | q in paths :: !Inside(vs[i], q) by {
          if old(Deletable(vs)) {
            assert vs[i] !in vs[..i];
            forall q | q in paths ensures !Inside(vs[i], q) {
              NestedListedBefore(vs, i, q);
            }
          }
        }
        var r := Destroy(vs[i]);
        if !r.Gone? {
          return false;
        }
      }
      assert vs[..|vs|] == vs;
    }

    /** The mount point is found, and the lines are those of this filesystem's subvolumes, which are at `rels`
        relative to the mount point. */
    ghost predicate Located(mounts: string, lines: seq<string>, rels: seq<string>, image: seq<string>)
      reads this
    {
      && Nearest(mounts, image).Some? && ListingOf(lines, rels) && Distinct(rels)
      && (forall v :: v in paths <==> exists rel | rel in rels :: v == PathString(image[..Nearest(mounts, image).value]) + "/" + rel)
    }

    /** The snapshot goes alone if nothing is nested in it. Otherwise, if the mount point is found and the lines
        are the listing, everything that has the image path as a prefix goes, unless some subvolume anywhere
        has a blank in its path, when nothing does; and in no case anything else. */
    method DestroyImage(mounts: string, lines: seq<string>, image: seq<string>, snapshot: string, ghost rels: seq<string>)
        returns (ok: bool)
      requires snapshot == PathString(image) + "/rootfs" || snapshot == PathString(image) + "/snapshot"
      modifies this
      ensures var nested := exists q | q in old(paths) :: Inside(snapshot, q);
        && (!nested ==> (ok <==> snapshot in old(paths)) && paths == old(paths) - {snapshot})
        && (nested && snapshot in old(paths) && old(Located(mounts, lines, rels, image)) ==>
              && (ok <==> forall rel | rel in rels :: ' ' !in rel)
              && paths == if ok then set v | v in old(paths) && !HasPrefix(v, PathString(image)) else old(paths))
        && (snapshot !in old(paths) ==> !ok && paths == old(paths))
        && paths <= old(paths) && forall v | v in old(paths) && v !in paths :: HasPrefix(v, PathString(image))
    {
      var r := Destroy(snapshot);
      assert HasPrefix(snapshot, PathString(image));
      if !r.NotEmpty? {
        return r.Gone?;
      }
      var listing := List(mounts, lines, image);
      if Located(mounts, lines, rels, image) {
        ListingSelects(lines, rels, PathString(image[..Nearest(mounts, image).value]), PathString(image));
      }
      if listing.None? {
        return false;
      }
      SelectionHasPrefix(mounts, lines, image, listing.value);
      if Located(mounts, lines, rels, image) {
        ListingDeletable(mounts, lines, rels, image, listing.value);
      }
      ghost var before := paths;
      ok := DestroyAll(listing.value);
      forall v | v in before && v !in paths ensures HasPrefix(v, PathString(image)) {
        assert v in before - paths;
      }
    }

    /** Whatever the lines, the lister gives paths with the prefix only. */
    static lemma SelectionHasPrefix(mounts: string, lines: seq<string>, image: seq<string>, listing: seq<string>)
      requires Nearest(mounts, image).Some? && Regular(lines)
      requires multiset(listing) == multiset(Selected(lines, PathString(image[..Nearest(mounts, image).value]), PathString(image)))
      ensures forall v | v in listing :: HasPrefix(v, PathString(image))
    {
      var mountPoint := PathString(image[..Nearest(mounts, image).value]);
      SortedSame(listing, Selected(lines, mountPoint, PathString(image)));
      forall v | v in listing ensures HasPrefix(v, PathString(image)) {
        SelectedIff(lines, mountPoint, PathString(image), v);
      }
    }

    lemma ListingMembers(mounts: string, lines: seq<string>, rels: seq<string>, image: seq<string>, listing: seq<string>)
      requires Located(mounts, lines, rels, image) && Regular(lines)
      requires multiset(listing) == multiset(Selected(lines, PathString(image[..Nearest(mounts, image).value]), PathString(image)))
      ensures Distinct(listing)
      ensures forall v :: v in listing <==> v in paths && HasPrefix(v, PathString(image))
    {
      var mountPoint, path := PathString(image[..Nearest(mounts, image).value]), PathString(image);
      var selected := Selected(lines, mountPoint, path);
      SortedSame(listing, selected);
      ListingDistinct(lines, rels, mountPoint, path);
      DistinctKept(listing, selected);
      ListingSelects(lines, rels, mountPoint, path);
    }

    lemma ListingDeletable(mounts: string, lines: seq<string>, rels: seq<string>, image: seq<string>, listing: seq<string>)
      requires Located(mounts, lines, rels, image) && Regular(lines) && Descending(listing)
      requires multiset(listing) == multiset(Selected(lines, PathString(image[..Nearest(mounts, image).value]), PathString(image)))
      ensures Deletable(listing)
      ensures forall v :: v in listing <==> v in paths && HasPrefix(v, PathString(image))
    {
      ListingMembers(mounts, lines, rels, image, listing);
      forall v, q | v in listing && q in paths && Inside(v, q) ensures q in listing {
        assert PathString(image) <= v <= v + "/" <= q;
      }
    }
  }

  /** Destroying an image leaves the subvolumes of the others alone, whatever is nested in it, exactly when
      none of them extends its path without a slash. */
  lemma OthersSparedIff(before: set<string>, imagePath: string, after: set<string>)
    requires after == set v | v in before && !HasPrefix(v, imagePath)
    ensures (forall v | v in before && v != imagePath && !Inside(imagePath, v) :: v in after)
       <==> forall v | v in before && |v| > |imagePath| && HasPrefix(v, imagePath) :: v[|imagePath|] == '/'
  {
  }

  /** The nearest ancestor of the path, itself included, whose text occurs in the mount table; the root is
      never tried. Paths are given by their components. */
  function Nearest(mounts: string, path: seq<string>): (k: Option<nat>)
    ensures k.Some? ==> 0 < k.value <= |path| && Contains(mounts, PathString(path[..k.value]))
    ensures forall j | 0 < j <= |path| && (k.None? || j > k.value) :: !Contains(mounts, PathString(path[..j]))
  {
    if path == [] then None
    else if Contains(mounts, PathString(path)) then assert path[..|path|] == path; Some(|path|)
    else
      assert path[..|path|] == path;
      var up := path[..|path| - 1];
      assert forall j | 0 <= j <= |up| :: up[..j] == path[..j];
      Nearest(mounts, up)
  }

  /** findMountPoint */
  method FindMountPoint(mounts: string, path: seq<string>) returns (k: Option<nat>)
    ensures k == Nearest(mounts, path)
  {
    var n := |path|;
    assert path[..n] == path;
    while n > 0
      invariant 0 <= n <= |path|
      invariant Nearest(mounts, path) == Nearest(mounts, path[..n])
    {
      if Contains(mounts, PathString(path[..n])) {
        return Some(n);
      }
      assert path[..n][..n - 1] == path[..n - 1];
      n := n - 1;
    }
    return None;
  }

  /** `depth` components lead to the nearest mount point above the path, 0 meaning the root. */
  ghost predicate IsMountPoint(points: set<seq<string>>, path: seq<string>, depth: nat) {
    && depth <= |path| && (depth > 0 ==> path[..depth] in points)
    && forall j | depth < j <= |path| :: path[..j] !in points
  }

  /** The search by text finds the mount point exactly when no ancestor between it and the path happens to
      occur in the table's text; a path on the root filesystem it can only miss. */
  lemma MountPointFoundIff(mounts: string, points: set<seq<string>>, path: seq<string>, depth: nat)
    requires IsMountPoint(points, path, depth)
    requires forall p | p in points :: Contains(mounts, PathString(p))
    ensures Nearest(mounts, path) == (if depth > 0 then Some(depth) else None)
       <==> forall j | depth < j <= |path| :: !Contains(mounts, PathString(path[..j]))
  {
    if forall j | depth < j <= |path| :: !Contains(mounts, PathString(path[..j])) {
      assert depth > 0 ==> Contains(mounts, PathString(path[..depth]));
    }
  }

  function PathString(path: seq<string>): string {
    if path == [] then "" else PathString(path[..|path| - 1]) + "/" + path[|path| - 1]
  }
}
