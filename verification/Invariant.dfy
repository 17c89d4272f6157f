/** What every reachable state of the protocol satisfies, and what each process relies on the others for. */
module Invariant {
  import opened Options
  import opened ChainIds
  import opened Names
  import opened Contents
  import opened Volumes
  import opened Protocol

  // ----- locks

  predicate FitsOk(s: State) {
    forall p | p in s.procs :: Fits(s.procs[p])
  }

  /** The global lock is with whoever is at a program point under it, and its two modes exclude each other. */
  ghost predicate GlobalOk(s: State) {
    && (forall p :: p in s.flocks.shared <==> p in s.procs && InShared(s.procs[p].pc))
    && (forall p | p in s.procs && InExclusive(s.procs[p].pc) :: s.flocks.exclusive == Some(p))
    && (s.flocks.exclusive.Some? ==>
          && s.flocks.exclusive.value in s.procs
          && InExclusive(s.procs[s.flocks.exclusive.value].pc)
          && s.flocks.shared == {})
  }

  ghost predicate Holder(s: State, c: ChainId, p: Pid) {
    p in s.procs && HoldsLayer(s.procs[p], c)
  }

  /** The layer locks are with the processes whose program points say so, and with no one else. */
  ghost predicate LayersOk(s: State) {
    && (forall c | c in s.flocks.layers :: Holder(s, c, s.flocks.layers[c]))
    && (forall p, c | Holder(s, c, p) :: c in s.flocks.layers && s.flocks.layers[c] == p)
  }

  ghost predicate LocksOk(s: State) {
    FitsOk(s) && GlobalOk(s) && LayersOk(s)
  }

  /** One Create or Delete per image ID at a time. */
  ghost predicate IdsInFlight(s: State) {
    forall p, q, id | p in s.procs && q in s.procs && s.procs[p].job.Names(id) && s.procs[q].job.Names(id) :: p == q
  }

  // ----- the store

  predicate FinalOk(cfg: Config, trusted: LayerSet, s: State, c: ChainId) {
    Live(Final(c)) in s.vols ==>
      && Denote(cfg, c) == Some(s.vols[Live(Final(c))])
      && (c in trusted && Final(c) in s.metas ==> s.metas[Final(c)] == Size(cfg.size(c)))
  }

  /** Every volume under a chain ID holds what that chain denotes, and metadata beside it is right. */
  ghost predicate CacheOk(cfg: Config, trusted: LayerSet, s: State) {
    forall c :: FinalOk(cfg, trusted, s, c)
  }

  /** A registered image: directory, snapshot, record and top volume are all there and agree. */
  predicate ImageOk(cfg: Config, trusted: LayerSet, s: State, id: ImageId, cs: seq<ChainId>)
    requires cs != []
  {
    var top := cs[|cs| - 1];
    && id in s.images && s.images[id].root.Some? && s.images[id].root == Denote(cfg, top)
    && id in s.records && s.records[id] == Complete(cs)
    && (top in trusted ==> Live(Final(top)) in s.vols)
  }

  ghost predicate CommittedOk(cfg: Config, trusted: LayerSet, s: State) {
    forall id | id in s.committed :: IsChain(s.committed[id]) && ImageOk(cfg, trusted, s, id, s.committed[id])
  }

  // ----- one process at its program point

  /** From this layer up, the process knows the final names to be absent, and keeps them so by its locks. */
  function ClaimedFrom(i: nat, work: LayerPC): nat {
    if work.Probe? || work.LockLayer? || work.Reprobe? || work.UnlockLayer? || work.Unwind? then i + 1 else i
  }

  predicate ClaimOk(trusted: LayerSet, vols: Vols, cs: seq<ChainId>, k: nat) {
    forall j | k <= j < |cs| && cs[j] in trusted :: Live(Final(cs[j])) !in vols
  }

  /** The layer below is there to snapshot from. */
  predicate ParentOk(trusted: LayerSet, vols: Vols, cs: seq<ChainId>, i: nat, work: LayerPC)
    requires i < |cs|
  {
    (work.Download? || work.CreateTemp? || work.ChownTemp? || work.BaseDir?) && i > 0 && cs[i - 1] in trusted ==> Live(Final(cs[i - 1])) in vols
  }

  /** The temporary volume is exactly as far as the program point says. */
  predicate TempOk(cfg: Config, vols: Vols, metas: Metas, c: ChainId, work: LayerPC) {
    match work
    case ChownTemp(n) => Holds(vols, Live(Temp(c, n)), Start(cfg, c))
    case BaseDir(n) => Start(cfg, c).Some? && Holds(vols, Live(Temp(c, n)), Some(ChownRoot(cfg, Start(cfg, c).value)))
    case UnpackTemp(n) => Holds(vols, Live(Temp(c, n)), Prepared(cfg, c))
    case HandleOpaque(n, bytes) => Holds(vols, Live(Temp(c, n)), Denote(cfg, c)) && bytes == cfg.size(c)
    case WriteMeta(n, bytes) => Holds(vols, Live(Temp(c, n)), Denote(cfg, c)) && bytes == cfg.size(c)
    case Finalize(n) =>
      Holds(vols, Live(Temp(c, n)), Denote(cfg, c)) && (Final(c) in metas ==> metas[Final(c)] == Size(cfg.size(c)))
    case UnlockLayer => Live(Final(c)) in vols
    case _ => true
  }

  predicate LayerOk(cfg: Config, trusted: LayerSet, s: State, cs: seq<ChainId>, i: nat, work: LayerPC)
    requires i < |cs|
  {
    ClaimOk(trusted, s.vols, cs, ClaimedFrom(i, work)) && ParentOk(trusted, s.vols, cs, i, work) && TempOk(cfg, s.vols, s.metas, cs[i], work)
  }

  /** After Pull, the top volume is there; after the snapshot, the image holds what the chain denotes. */
  predicate ImagingOk(cfg: Config, trusted: LayerSet, s: State, id: ImageId, top: ChainId, pc: ImagePC) {
    && (!pc.DropImage? && top in trusted ==> Live(Final(top)) in s.vols)
    && (pc.FinishImage? || pc.OpenRecord? || pc.WriteRecord? ==>
          id in s.images && s.images[id].root.Some? && s.images[id].root == Denote(cfg, top))
  }

  /** The image has a complete record, and none of its volumes is among `ids`. */
  predicate Spared(s: State, image: ImageId, ids: set<VolumeId>) {
    && image in s.records && s.records[image].Complete?
    && Finals(s.records[image].chain) !! ids
  }

  ghost predicate CleaningOk(s: State, preserved: seq<ChainId>, pc: CleanPC) {
    match pc
    case ReadRecords(orphans, ids) => forall image | image in s.images && image !in ids :: Spared(s, image, orphans)
    case Mark(todo) =>
      && (todo != {} ==> forall image | image in s.images :: Spared(s, image, todo))
      && Finals(preserved) !! todo
    case _ => true
  }

  ghost predicate ProcOk(cfg: Config, trusted: LayerSet, s: State, proc: Proc) {
    && Fits(proc)
    // the image being made or deleted is not a registered one
    && (!proc.job.Clean? && !proc.pc.CheckId? && !proc.pc.UnlockShared? ==> proc.job.id !in s.committed)
    && match proc.pc
       case Cleaning(pc) => CleaningOk(s, proc.job.Preserved(), pc)
       case Layer(i, work) => LayerOk(cfg, trusted, s, proc.job.chain, i, work)
       case Imaging(pc) => ImagingOk(cfg, trusted, s, proc.job.id, proc.job.chain[|proc.job.chain| - 1], pc)
       case Deleting(pc) => pc.Deregister? ==> proc.job.id !in s.images
       case _ => true
  }

  ghost predicate Inv(cfg: Config, trusted: LayerSet, s: State) {
    && LocksOk(s) && IdsInFlight(s) && CacheOk(cfg, trusted, s) && CommittedOk(cfg, trusted, s)
    && forall p | p in s.procs :: ProcOk(cfg, trusted, s, s.procs[p])
  }

  // ----- rely: what a step of the others leaves alone

  predicate SameId(s: State, s': State, id: ImageId) {
    && (id in s.images <==> id in s'.images) && (id in s.images ==> s.images[id] == s'.images[id])
    && (id in s.records <==> id in s'.records) && (id in s.records ==> s.records[id] == s'.records[id])
    && (id in s.committed <==> id in s'.committed)
  }

  /** Under the shared lock, finished volumes stay. */
  ghost predicate FinalsStay(trusted: LayerSet, s: State, s': State) {
    forall c | c in trusted && Live(Final(c)) in s.vols :: Live(Final(c)) in s'.vols && s'.vols[Live(Final(c))] == s.vols[Live(Final(c))]
  }

  predicate SameLayer(s: State, s': State, c: ChainId) {
    && (Live(Final(c)) in s'.vols <==> Live(Final(c)) in s.vols)
    && (Final(c) in s'.metas ==> Final(c) in s.metas && s'.metas[Final(c)] == s.metas[Final(c)])
  }

  ghost predicate SameTemps(s: State, s': State, c: ChainId) {
    forall n :: var t := Live(Temp(c, n)); t in s.vols ==> t in s'.vols && s'.vols[t] == s.vols[t]
  }

  /** Under the exclusive lock, no image appears and no image loses or changes its record. */
  ghost predicate RecordsStay(s: State, s': State) {
    forall id | id in s'.images ::
      && id in s.images
      && (id in s.records <==> id in s'.records)
      && (id in s.records ==> s.records[id] == s'.records[id])
  }

  ghost predicate Rely(trusted: LayerSet, s: State, s': State, proc: Proc) {
    && (InShared(proc.pc) ==> FinalsStay(trusted, s, s'))
    && (forall c | HoldsLayer(proc, c) :: SameLayer(s, s', c) && SameTemps(s, s', c))
    && (InExclusive(proc.pc) ==> RecordsStay(s, s'))
    && (!proc.job.Clean? ==> SameId(s, s', proc.job.id))
  }

  /** The layers a process has locked are as it left them. */
  lemma StableLayer(cfg: Config, trusted: LayerSet, s: State, s': State, proc: Proc)
    requires Fits(proc) && proc.job.Create? && proc.pc.Layer? && Rely(trusted, s, s', proc)
    requires LayerOk(cfg, trusted, s, proc.job.chain, proc.pc.i, proc.pc.work)
    ensures LayerOk(cfg, trusted, s', proc.job.chain, proc.pc.i, proc.pc.work)
  {
    var cs := proc.job.chain;
    forall j | HeldFrom(proc) <= j < |cs| ensures HoldsLayer(proc, cs[j]) {
      assert Depth(cs[j]) == j + 1;
    }
    assert ClaimedFrom(proc.pc.i, proc.pc.work) >= HeldFrom(proc);
    if HeldFrom(proc) == proc.pc.i {
      assert SameTemps(s, s', cs[proc.pc.i]) && SameLayer(s, s', cs[proc.pc.i]);
    }
  }

  lemma StableClean(s: State, s': State, preserved: seq<ChainId>, pc: CleanPC)
    requires CleaningOk(s, preserved, pc) && (InExclusive(Cleaning(pc)) ==> RecordsStay(s, s'))
    ensures CleaningOk(s', preserved, pc)
  {
  }

  /** A process whose lock-protected world is left alone stays where it was. */
  lemma Stable(cfg: Config, trusted: LayerSet, s: State, s': State, proc: Proc)
    requires ProcOk(cfg, trusted, s, proc) && Rely(trusted, s, s', proc)
    ensures ProcOk(cfg, trusted, s', proc)
  {
    match proc.pc {
      case Layer(_, _) => StableLayer(cfg, trusted, s, s', proc);
      case Cleaning(pc) => StableClean(s, s', proc.job.Preserved(), pc);
      case _ =>
    }
  }
}
