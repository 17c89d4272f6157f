/** base_image_puller/unpacker: the in-place unpack loop. */
module Unpacker {
  import opened Trees
  import opened Layers
  import LayerSpec

  datatype Status = Done(bytes: nat) | Err | Outside

  /** The status reports the outcome, and on success the tree has become the outcome's. */
  ghost predicate Reports(outcome: Outcome, status: Status, tree: Tree) {
    match outcome
    case Unpacked(t, n) => status == Done(n) && tree == t
    case Failed => status == Err
    case Unmodelled => status == Outside
  }

  class TarUnpacker {
    const spec: UnpackSpec
    var tree: Tree

    constructor (spec: UnpackSpec, target: Tree)
      ensures this.spec == spec && tree == target
    {
      this.spec, tree := spec, target;
    }

    method RemoveAll(p: Path)
      modifies this
      ensures tree == Prune(old(tree), p)
    {
      tree := Prune(tree, p);
    }

    method RemoveWhiteout(target: Path) returns (r: Status)
      modifies this
      ensures Reports(Apply(old(tree), Whiteout(target)), r, tree)
    {
      if CrossesSymlink(tree, target) {
        return Outside;
      }
      if target == [] {
        return Err;
      }
      RemoveAll(target);
      return Done(0);
    }

    /** Removes what the directory listing names, one child at a time. */
    method CleanWhiteoutDir(dir: Path) returns (r: Status)
      requires WellFormed(tree)
      modifies this
      ensures Reports(Apply(old(tree), Opaque(dir)), r, tree)
    {
      if CrossesSymlink(tree, dir) || (dir in tree && tree[dir].Symlink?) {
        return Outside;
      }
      if !IsDir(tree, dir) {
        return Err;
      }
      var contents := set q | q in tree && |q| == |dir| + 1 && dir < q :: q[|dir|];
      ghost var before := tree;
      AllListed(before, dir, contents);
      while contents != {}
        invariant tree == Remaining(before, dir, contents)
        decreases |contents|
      {
        var name :| name in contents;
        PruneChild(before, dir, contents, name);
        RemoveAll(dir + [name]);
        contents := contents - {name};
      }
      assert tree == Hollow(before, dir);
      return Done(0);
    }

    /** `t` once the children of `dir` outside `contents` are gone. */
    static ghost function Remaining(t: Tree, dir: Path, contents: set<string>): Tree {
      map q | q in t && (dir < q ==> q[|dir|] in contents) :: t[q]
    }

    static lemma PruneChild(t: Tree, dir: Path, contents: set<string>, name: string)
      requires name in contents
      ensures Prune(Remaining(t, dir, contents), dir + [name]) == Remaining(t, dir, contents - {name})
    {
    }

    static lemma AllListed(t: Tree, dir: Path, contents: set<string>)
      requires WellFormed(t)
      requires contents == set q | q in t && |q| == |dir| + 1 && dir < q :: q[|dir|]
      ensures t == Remaining(t, dir, contents)
    {
      forall q | q in t && dir < q ensures q[|dir|] in contents {
        ChildListed(t, dir, q);
      }
    }

    static lemma ChildListed(t: Tree, dir: Path, q: Path)
      requires WellFormed(t) && q in t && dir < q
      ensures q[..|dir| + 1] in t && dir < q[..|dir| + 1] && q[..|dir| + 1][|dir|] == q[|dir|]
    {
      if |dir| + 1 < |q| {
        AncestorsAreDirs(t, q, |dir| + 1);
      } else {
        assert q[..|dir| + 1] == q;
      }
    }

    method CreateDirectory(p: Path, attrs: Attrs) returns (r: Status)
      modifies this
      ensures Reports(Apply(old(tree), Put(p, Dir(attrs))), r, tree)
    {
      if CrossesSymlink(tree, p) || (p in tree && tree[p].Symlink?) {
        return Outside;
      }
      if p !in tree {
        if p == [] || !IsDir(tree, Parent(p)) {
          return Err;
        }
        tree := tree[p := Dir(attrs)];
      }
      tree := tree[p := WithAttrs(tree[p], attrs)];
      return Done(0);
    }

    method CreateSymlink(p: Path, target: string, attrs: Attrs) returns (r: Status)
      requires WellFormed(tree)
      modifies this
      ensures Reports(Apply(old(tree), Put(p, Symlink(target, attrs))), r, tree)
    {
      if CrossesSymlink(tree, p) {
        return Outside;
      }
      ghost var before := tree;
      if p in tree {
        if p == [] || HasChildren(tree, p) {
          return Err;
        }
        assert IsDir(tree, Parent(p)) && Parent(p) != p;
        tree := tree - {p};
      }
      if p == [] || !IsDir(tree, Parent(p)) {
        return Err;
      }
      tree := tree[p := Symlink(target, attrs)];
      return Done(0);
    }

    method CreateRegularFile(p: Path, data: string, attrs: Attrs) returns (r: Status)
      modifies this
      ensures Reports(Apply(old(tree), Put(p, File(data, attrs))), r, tree)
    {
      if CrossesSymlink(tree, p) || (p in tree && tree[p].Symlink?) {
        return Outside;
      }
      if p in tree {
        if tree[p].Dir? {
          return Err;
        }
        tree := tree[p := File("", tree[p].attrs)];
      } else {
        if p == [] || !IsDir(tree, Parent(p)) {
          return Err;
        }
        tree := tree[p := File("", attrs)];
      }
      tree := tree[p := File(data, attrs)];
      return Done(|data|);
    }

    method HandleEntry(p: Path, h: Header) returns (r: Status)
      requires WellFormed(tree)
      requires p == spec.baseDirectory + h.name
      modifies this
      ensures Reports(Apply(old(tree), Ordinary(spec, h)), r, tree)
    {
      match h.kind {
        case Device => r := Done(0);
        case OtherKind => r := Done(0);
        case HardLink(_) => r := Outside;
        case SymbolicLink(target) => r := CreateSymlink(p, target, AttrsOf(spec, h));
        case Directory => r := CreateDirectory(p, AttrsOf(spec, h));
        case Regular(data) => r := CreateRegularFile(p, data, AttrsOf(spec, h));
      }
    }

    /** The body of the unpack loop. */
    method UnpackEntry(h: Header) returns (r: Status)
      requires WellFormed(tree)
      modifies this
      ensures Reports(Apply(old(tree), Classify(spec, h)), r, tree)
    {
      var p := spec.baseDirectory + h.name;
      if AnyContains(h.name, OPAQUE) {
        r := CleanWhiteoutDir(Parent(p));
      } else if AnyContains(h.name, WHITEOUT) {
        var target := DropEmpty(StripMarker(p));
        if target == [] || "." in target || ".." in target {
          r := Outside;
        } else {
          r := RemoveWhiteout(target);
        }
      } else {
        r := HandleEntry(p, h);
      }
    }

    method Unpack(headers: seq<Header>) returns (r: Status)
      requires WellFormed(tree)
      modifies this
      ensures Reports(UnpackLayer(spec, old(tree), headers), r, tree)
    {
      var total: nat := 0;
      ghost var before := tree;
      ghost var actions := ClassifyAll(spec, headers);
      for i := 0 to |headers|
        invariant ApplyAll(before, actions[..i]) == Unpacked(tree, total)
        invariant WellFormed(tree)
      {
        var h := headers[i];
        assert actions[..i + 1][..i] == actions[..i] && actions[..i + 1][i] == Classify(spec, h);
        ghost var t := tree;
        r := UnpackEntry(h);
        if !r.Done? {
          StopsAt(before, actions, i);
          return;
        }
        LayerSpec.ApplyWellFormed(t, Classify(spec, h));
        total := total + r.bytes;
      }
      assert actions[..|headers|] == actions;
      return Done(total);
    }

    /** An entry that fails decides the outcome of the whole stream. */
    static lemma {:induction false} StopsAt(t: Tree, actions: seq<Action>, i: nat)
      requires i < |actions| && !ApplyAll(t, actions[..i + 1]).Unpacked?
      ensures ApplyAll(t, actions) == ApplyAll(t, actions[..i + 1])
      decreases |actions|
    {
      if i + 1 == |actions| {
        assert actions[..i + 1] == actions;
      } else {
        var init := actions[..|actions| - 1];
        assert init[..i + 1] == actions[..i + 1];
        StopsAt(t, init, i);
      }
    }
  }
}
