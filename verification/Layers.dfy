/** What one tar entry asks for, and what it does to a tree. */
module Layers {
  import opened Strings
  import opened Trees
  import opened IdMappings

  const WHITEOUT := ".wh."
  const OPAQUE := ".wh..wh..opq"

  datatype Kind =
    | Device
    | HardLink(linkName: Path)
    | SymbolicLink(linkTarget: string)
    | Directory
    | Regular(data: string)
    | OtherKind

  /** A tar header with its data; `name` is the cleaned path inside the archive. */
  datatype Header = Header(name: Path, kind: Kind, mode: int, uid: int, gid: int)

  datatype UnpackSpec = UnpackSpec(baseDirectory: Path, uidMappings: seq<Mapping>, gidMappings: seq<Mapping>)

  /** `Beyond` stands for a whiteout whose stripped path is empty or has dot components; neither it nor a hard
      link is given a meaning. */
  datatype Action =
    | Opaque(dir: Path)
    | Whiteout(target: Path)
    | Put(path: Path, node: Node)
    | Ignore
    | Link(path: Path, linkName: Path)
    | Beyond

  predicate AnyContains(p: Path, sub: string) {
    exists k | 0 <= k < |p| :: Contains(p[k], sub)
  }

  /** strings.Replace(path, ".wh.", "", 1); components cannot straddle the marker, which has no slash. */
  function StripMarker(p: Path): Path {
    if p == [] then []
    else if Contains(p[0], WHITEOUT) then [ReplaceFirst(p[0], WHITEOUT, "")] + p[1..]
    else [p[0]] + StripMarker(p[1..])
  }

  /** The kernel skips the empty components left by stripping. */
  function DropEmpty(p: Path): Path {
    if p == [] then [] else (if p[0] == "" then [] else [p[0]]) + DropEmpty(p[1..])
  }

  function AttrsOf(spec: UnpackSpec, h: Header): Attrs {
    Attrs(h.mode, TranslateID(h.uid, spec.uidMappings), TranslateID(h.gid, spec.gidMappings))
  }

  function Ordinary(spec: UnpackSpec, h: Header): Action {
    var path := spec.baseDirectory + h.name;
    match h.kind
    case Device => Ignore
    case OtherKind => Ignore
    case HardLink(linkName) => Link(path, linkName)
    case SymbolicLink(target) => Put(path, Symlink(target, AttrsOf(spec, h)))
    case Directory => Put(path, Dir(AttrsOf(spec, h)))
    case Regular(data) => Put(path, File(data, AttrsOf(spec, h)))
  }

  /** How the unpack loop reads one header. */
  function Classify(spec: UnpackSpec, h: Header): Action {
    var path := spec.baseDirectory + h.name;
    if AnyContains(h.name, OPAQUE) then
      Opaque(Parent(path))
    else if AnyContains(h.name, WHITEOUT) then
      var target := DropEmpty(StripMarker(path));
      if target == [] || "." in target || ".." in target then Beyond else Whiteout(target)
    else
      Ordinary(spec, h)
  }

  /** How the image specification reads it: only the base name matters, and only a leading marker. */
  function OciAction(spec: UnpackSpec, h: Header): Action {
    if h.name == [] then Ordinary(spec, h) else
    var dir, base := spec.baseDirectory + Parent(h.name), h.name[|h.name| - 1];
    if base == OPAQUE then Opaque(dir)
    else if HasPrefix(base, WHITEOUT) then Whiteout(dir + [base[|WHITEOUT|..]])
    else Ordinary(spec, h)
  }

  datatype Outcome = Unpacked(tree: Tree, bytes: nat) | Failed | Unmodelled

  function WithAttrs(n: Node, attrs: Attrs): Node {
    n.(attrs := attrs)
  }

  function Apply(t: Tree, a: Action): Outcome {
    match a
    case Ignore => Unpacked(t, 0)
    case Beyond => Unmodelled
    case Link(_, _) => Unmodelled
    case Opaque(dir) =>
      if CrossesSymlink(t, dir) || (dir in t && t[dir].Symlink?) then Unmodelled
      else if IsDir(t, dir) then Unpacked(Hollow(t, dir), 0) else Failed
    case Whiteout(target) =>
      if CrossesSymlink(t, target) then Unmodelled
      else if target == [] then Failed
      else Unpacked(Prune(t, target), 0)
    case Put(p, node) =>
      if CrossesSymlink(t, p) then Unmodelled
      else match node
      case Dir(attrs) => ApplyDirectory(t, p, attrs)
      case File(data, attrs) => ApplyFile(t, p, data, attrs)
      case Symlink(target, attrs) => ApplySymlink(t, p, target, attrs)
  }

  function ApplyDirectory(t: Tree, p: Path, attrs: Attrs): Outcome {
    if p in t then
      if t[p].Symlink? then Unmodelled else Unpacked(t[p := WithAttrs(t[p], attrs)], 0)
    else if p != [] && IsDir(t, Parent(p)) then Unpacked(t[p := Dir(attrs)], 0)
    else Failed
  }

  function ApplyFile(t: Tree, p: Path, data: string, attrs: Attrs): Outcome {
    if p in t then
      if t[p].Symlink? then Unmodelled
      else if t[p].Dir? then Failed
      else Unpacked(t[p := File(data, attrs)], |data|)
    else if p != [] && IsDir(t, Parent(p)) then Unpacked(t[p := File(data, attrs)], |data|)
    else Failed
  }

  function ApplySymlink(t: Tree, p: Path, target: string, attrs: Attrs): Outcome {
    if p == [] || (p in t && HasChildren(t, p)) || !IsDir(t, Parent(p)) then Failed
    else Unpacked(t[p := Symlink(target, attrs)], 0)
  }

  function ApplyAll(t: Tree, actions: seq<Action>): Outcome {
    if actions == [] then Unpacked(t, 0)
    else
      match ApplyAll(t, actions[..|actions| - 1])
      case Failed => Failed
      case Unmodelled => Unmodelled
      case Unpacked(t', n) =>
        match Apply(t', actions[|actions| - 1])
        case Failed => Failed
        case Unmodelled => Unmodelled
        case Unpacked(t'', m) => Unpacked(t'', n + m)
  }

  function ClassifyAll(spec: UnpackSpec, headers: seq<Header>): (actions: seq<Action>)
    ensures |actions| == |headers|
    ensures forall k | 0 <= k < |headers| :: actions[k] == Classify(spec, headers[k])
  {
    seq(|headers|, k requires 0 <= k < |headers| => Classify(spec, headers[k]))
  }

  /** The whole of one layer applied to a tree. */
  function UnpackLayer(spec: UnpackSpec, t: Tree, headers: seq<Header>): Outcome {
    ApplyAll(t, ClassifyAll(spec, headers))
  }
}
