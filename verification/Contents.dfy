/** What a cached volume should contain: the layers its chain ID names, applied one after another. */
module Contents {
  import opened Options
  import opened Trees
  import opened ChainIds

  /** What every process sharing the store agrees on. `prepare` is the base-directory step of a layer, given
      the volume so far and the one below; `unpack` is the unpacker, which puller and protocol only call;
      either may be any function of the layer and the trees. `size` is the byte count it reports. */
  datatype Config = Config(
    baseDirectory: ChainId -> Option<Path>,
    prepare: (ChainId, Tree, Tree) -> Option<Tree>,
    unpack: (ChainId, Tree) -> Option<Tree>,
    size: ChainId -> nat,
    ownerUID: int,
    ownerGID: int,
    newVolume: Attrs)

  function EmptyVolume(cfg: Config): (t: Tree)
    ensures WellFormed(t)
  {
    map[[] := Dir(cfg.newVolume)]
  }

  /** os.Chown on the volume itself, skipped when the owner is root. */
  function ChownRoot(cfg: Config, t: Tree): (r: Tree)
    ensures WellFormed(t) ==> WellFormed(r)
  {
    if (cfg.ownerUID != 0 || cfg.ownerGID != 0) && [] in t then
      t[[] := t[[]].(attrs := t[[]].attrs.(uid := cfg.ownerUID, gid := cfg.ownerGID))]
    else t
  }

  /** `r` is `t` with its root given to the configured owner, unless that is root; nothing else differs. */
  predicate GivenToOwner(cfg: Config, t: Tree, r: Tree) {
    && r.Keys == t.Keys
    && (forall p | p in t && p != [] :: r[p] == t[p])
    && ([] in t ==>
          && (cfg.ownerUID == 0 && cfg.ownerGID == 0 ==> r[[]] == t[[]])
          && (cfg.ownerUID != 0 || cfg.ownerGID != 0 ==> r[[]].attrs.uid == cfg.ownerUID && r[[]].attrs.gid == cfg.ownerGID)
          && r[[]].attrs.mode == t[[]].attrs.mode && (t[[]].Dir? ==> r[[]].Dir?))
  }

  lemma ChownRootGives(cfg: Config, t: Tree)
    ensures GivenToOwner(cfg, t, ChownRoot(cfg, t))
  {
  }

  function Prepare(cfg: Config, c: ChainId, t: Tree, parent: Tree): Option<Tree> {
    if cfg.baseDirectory(c).None? then Some(t) else cfg.prepare(c, t, parent)
  }

  /** The volume the layer starts from: empty, or the parent's. */
  function Start(cfg: Config, c: ChainId): Option<Tree>
    decreases c, 0
  {
    match c
    case Base(_) => Some(EmptyVolume(cfg))
    case Node(p, _) => Denote(cfg, p)
  }

  /** The tree a base-directory lookup reads; a first layer has no parent volume to look in. */
  function Below(cfg: Config, c: ChainId): Option<Tree>
    decreases c, 0
  {
    match c
    case Base(_) => Some(map[])
    case Node(p, _) => Denote(cfg, p)
  }

  function Prepared(cfg: Config, c: ChainId): Option<Tree>
    decreases c, 1
  {
    match (Start(cfg, c), Below(cfg, c))
    case (Some(t), Some(parent)) => Prepare(cfg, c, ChownRoot(cfg, t), parent)
    case _ => None
  }

  /** Sequential application of every layer of the chain, from the empty tree. */
  function Denote(cfg: Config, c: ChainId): Option<Tree>
    decreases c, 2
  {
    match Prepared(cfg, c)
    case None => None
    case Some(t) => cfg.unpack(c, t)
  }
}
