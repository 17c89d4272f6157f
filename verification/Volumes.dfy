/** What the volume driver does to the volumes directory and to the metadata directory. */
module Volumes {
  import opened Options
  import opened Trees
  import opened Names
  import opened Contents

  type Vols = map<VolName, Tree>

  /** A metadata file holds a size, unless its writer was interrupted. */
  datatype Meta = Size(bytes: nat) | Garbled

  /** Metadata paths drop the `gc.` prefix, so a volume and its condemned form share one. */
  type Metas = map<VolumeId, Meta>

  /** MoveVolume: an existing target makes the rename fail with EEXIST, which is swallowed. */
  function Moved(vols: Vols, src: VolName, dst: VolName): Option<Vols> {
    if dst in vols then Some(vols)
    else if src in vols then Some((vols - {src})[dst := vols[src]])
    else None
  }

  /** The parent's tree for a snapshot, or an empty volume for a first layer. */
  function Source(cfg: Config, vols: Vols, parent: Option<VolName>): Option<Tree> {
    match parent
    case None => Some(EmptyVolume(cfg))
    case Some(v) => if v in vols then Some(vols[v]) else None
  }

  predicate Holds(vols: Vols, v: VolName, content: Option<Tree>) {
    v in vols && content == Some(vols[v])
  }
}
