/** When a finished volume has its metadata beside it. */
module Metadata {
  import opened Options
  import opened Trees
  import opened ChainIds
  import opened Names
  import opened Contents
  import opened Volumes
  import opened Protocol
  import opened Invariant
  import opened Effects
  import Safety

  /** The volumes a collector has listed and whose metadata files it has yet to remove. */
  function Pending(proc: Proc): set<VolumeId> {
    match proc.pc
    case Cleaning(Collect(todo, _)) => todo
    case Cleaning(CollectVolume(todo, _, _)) => todo
    case _ => {}
  }

  /** Some collector is still going to remove the metadata file that this volume shares. */
  ghost predicate Condemned(s: State, id: VolumeId) {
    Gc(id) in s.vols || exists p | p in s.procs :: id in Pending(s.procs[p])
  }

  predicate AboutToFinalize(proc: Proc, c: ChainId) {
    Fits(proc) && proc.pc.Layer? && proc.pc.work.Finalize? && proc.job.chain[proc.pc.i] == c
  }

  /** The volume is finished, or the next step of its builder finishes it. */
  ghost predicate Settled(s: State, c: ChainId) {
    Live(Final(c)) in s.vols || exists p | p in s.procs :: AboutToFinalize(s.procs[p], c)
  }

  ghost predicate MetaOkAt(s: State, c: ChainId) {
    Settled(s, c) ==> Final(c) in s.metas && !Condemned(s, Final(c))
  }

  /** The event writes the metadata of the layer anew. */
  predicate Rebuilds(s: State, e: Event, c: ChainId) {
    && e.Go? && e.p in s.procs && Fits(s.procs[e.p]) && s.procs[e.p].pc.Layer? && s.procs[e.p].pc.work.WriteMeta? && e.answer.ok
    && s.procs[e.p].job.chain[s.procs[e.p].pc.i] == c
  }

  /** The layer is not rebuilt while its condemned predecessor is still to be collected. */
  ghost predicate NoRebuild(s: State, e: Event, c: ChainId) {
    Rebuilds(s, e, c) ==> !Condemned(s, Final(c))
  }

  /** The only step of `p` leads to `pc`, or out. */
  predicate MovesOrEnds(s: State, s': State, p: Pid, pc: Option<PC>) {
    && p in s.procs
    && s'.procs == match pc case None => s.procs - {p} case Some(x) => s.procs[p := s.procs[p].(pc := x)]
  }

  /** A step that neither finishes a volume, nor condemns one, nor removes metadata. */
  ghost predicate Calm(s: State, s': State, p: Pid, pc: Option<PC>) {
    && MovesOrEnds(s, s', p, pc)
    && (pc.Some? ==> Pending(s.procs[p].(pc := pc.value)) <= Pending(s.procs[p]))
    && (pc.Some? && pc.value.Layer? ==> !pc.value.work.Finalize?)
    && s.metas.Keys <= s'.metas.Keys
    && (forall v: VolName | v in s'.vols && (v.Gc? || v.id.Final?) :: v in s.vols)
  }

  lemma CalmCondemned(s: State, s': State, p: Pid, pc: Option<PC>, id: VolumeId)
    requires Calm(s, s', p, pc)
    ensures Condemned(s', id) ==> Condemned(s, id)
  {
  }

  lemma CalmSettled(s: State, s': State, p: Pid, pc: Option<PC>, c: ChainId)
    requires Calm(s, s', p, pc) && Settled(s', c)
    ensures Settled(s, c)
  {
  }

  lemma CalmKeeps(s: State, s': State, p: Pid, pc: Option<PC>, c: ChainId)
    requires MetaOkAt(s, c) && Calm(s, s', p, pc)
    ensures MetaOkAt(s', c)
  {
    if Settled(s', c) {
      CalmSettled(s, s', p, pc, c);
      CalmCondemned(s, s', p, pc, Final(c));
    }
  }

  predicate AtLayer(s: State, p: Pid) {
    p in s.procs && Fits(s.procs[p]) && s.procs[p].pc.Layer?
  }

  lemma GateCalm(cfg: Config, s: State, p: Pid, a: Answer)
    requires AtLayer(s, p) && (s.procs[p].pc.work.Probe? || s.procs[p].pc.work.LockLayer?)
    ensures Calm(s, StepLayer(cfg, s, p, a), p, Some(StepLayer(cfg, s, p, a).procs[p].pc))
  {
  }

  lemma Gate2Calm(cfg: Config, s: State, p: Pid, a: Answer)
    requires AtLayer(s, p) && (s.procs[p].pc.work.Reprobe? || s.procs[p].pc.work.Download?)
    ensures Calm(s, StepLayer(cfg, s, p, a), p, Some(StepLayer(cfg, s, p, a).procs[p].pc))
  {
  }

  lemma TempCalm(s: State, p: Pid, c: ChainId, n: nat, t: Tree, pc: PC)
    requires p in s.procs && pc.Layer? && !pc.work.Finalize?
    ensures Calm(s, At(WithTemp(s, c, n, t), p, pc), p, Some(pc))
    ensures Calm(s, At(s, p, pc), p, Some(pc))
  {
  }

  lemma CreateTempCalm(cfg: Config, s: State, p: Pid, a: Answer)
    requires AtLayer(s, p) && s.procs[p].pc.work.CreateTemp?
    ensures exists pc :: Calm(s, StepLayer(cfg, s, p, a), p, Some(pc))
  {
    var i, cs := s.procs[p].pc.i, s.procs[p].job.chain;
    var source := Source(cfg, s.vols, ParentOf(cs, i));
    if source.Some? && a.ok {
      TempCalm(s, p, cs[i], a.stamp, source.value, Layer(i, ChownTemp(a.stamp)));
    } else {
      TempCalm(s, p, cs[i], a.stamp, a.junk, Layer(i, Unwind));
    }
  }

  lemma ChownTempCalm(cfg: Config, s: State, p: Pid, a: Answer)
    requires AtLayer(s, p) && (s.procs[p].pc.work.ChownTemp?)
    ensures Calm(s, StepLayer(cfg, s, p, a), p, Some(StepLayer(cfg, s, p, a).procs[p].pc))
  {
  }

  lemma BaseDirCalm(cfg: Config, s: State, p: Pid, a: Answer)
    requires AtLayer(s, p) && s.procs[p].pc.work.BaseDir?
    ensures exists pc :: Calm(s, StepLayer(cfg, s, p, a), p, Some(pc))
  {
    var i, n, cs := s.procs[p].pc.i, s.procs[p].pc.work.n, s.procs[p].job.chain;
    var parent := LookupTree(s.vols, ParentOf(cs, i));
    if cfg.baseDirectory(cs[i]).None? {
      TempCalm(s, p, cs[i], n, a.junk, Layer(i, UnpackTemp(n)));
    } else if parent.None? || Live(Temp(cs[i], n)) !in s.vols {
      TempCalm(s, p, cs[i], n, a.junk, Layer(i, Unwind));
    } else {
      var result := Prepare(cfg, cs[i], s.vols[Live(Temp(cs[i], n))], parent.value);
      if a.ok && result.Some? {
        TempCalm(s, p, cs[i], n, result.value, Layer(i, UnpackTemp(n)));
      } else {
        TempCalm(s, p, cs[i], n, a.junk, Layer(i, Unwind));
      }
    }
  }

  lemma UnpackTempCalm(cfg: Config, s: State, p: Pid, a: Answer)
    requires AtLayer(s, p) && s.procs[p].pc.work.UnpackTemp?
    ensures exists pc :: Calm(s, StepLayer(cfg, s, p, a), p, Some(pc))
  {
    var i, n, c := s.procs[p].pc.i, s.procs[p].pc.work.n, s.procs[p].job.chain[s.procs[p].pc.i];
    if Live(Temp(c, n)) !in s.vols {
      TempCalm(s, p, c, n, a.junk, Layer(i, DropMeta));
    } else {
      var result := cfg.unpack(c, s.vols[Live(Temp(c, n))]);
      if a.ok && result.Some? {
        TempCalm(s, p, c, n, result.value, Layer(i, HandleOpaque(n, cfg.size(c))));
      } else {
        TempCalm(s, p, c, n, a.junk, Layer(i, DropMeta));
      }
    }
  }

  lemma OpaqueCalm(cfg: Config, s: State, p: Pid, a: Answer)
    requires AtLayer(s, p) && (s.procs[p].pc.work.DropFinal? || s.procs[p].pc.work.HandleOpaque?)
    ensures Calm(s, StepLayer(cfg, s, p, a), p, Some(StepLayer(cfg, s, p, a).procs[p].pc))
  {
  }

  lemma UnlockCalm(cfg: Config, s: State, p: Pid, a: Answer)
    requires AtLayer(s, p) && (s.procs[p].pc.work.UnlockLayer? || s.procs[p].pc.work.Unwind?)
    ensures Calm(s, StepLayer(cfg, s, p, a), p, Some(StepLayer(cfg, s, p, a).procs[p].pc))
  {
  }

  lemma FailedCalm(cfg: Config, s: State, p: Pid, a: Answer)
    requires AtLayer(s, p) && (s.procs[p].pc.work.WriteMeta? || s.procs[p].pc.work.Finalize?) && !a.ok
    ensures Calm(s, StepLayer(cfg, s, p, a), p, Some(StepLayer(cfg, s, p, a).procs[p].pc))
  {
  }

  lemma LayerCalm(cfg: Config, s: State, p: Pid, a: Answer)
    requires AtLayer(s, p) && !s.procs[p].pc.work.DropMeta?
    requires (s.procs[p].pc.work.WriteMeta? || s.procs[p].pc.work.Finalize?) ==> !a.ok
    ensures exists pc :: Calm(s, StepLayer(cfg, s, p, a), p, pc)
  {
    var w := s.procs[p].pc.work;
    if w.Probe? || w.LockLayer? { GateCalm(cfg, s, p, a); }
    else if w.Reprobe? || w.Download? { Gate2Calm(cfg, s, p, a); }
    else if w.CreateTemp? { CreateTempCalm(cfg, s, p, a); }
    else if w.ChownTemp? { ChownTempCalm(cfg, s, p, a); }
    else if w.BaseDir? { BaseDirCalm(cfg, s, p, a); }
    else if w.UnpackTemp? { UnpackTempCalm(cfg, s, p, a); }
    else if w.DropFinal? || w.HandleOpaque? { OpaqueCalm(cfg, s, p, a); }
    else if w.UnlockLayer? || w.Unwind? { UnlockCalm(cfg, s, p, a); }
    else { FailedCalm(cfg, s, p, a); }
  }

  lemma MakeCalm(s: State, p: Pid, a: Answer)
    requires p in s.procs && Fits(s.procs[p]) && s.procs[p].pc.Imaging?
    requires s.procs[p].pc.image.MakeImageDir? || s.procs[p].pc.image.SnapshotImage? || s.procs[p].pc.image.FinishImage?
    ensures Calm(s, StepImage(s, p, a), p, Some(StepImage(s, p, a).procs[p].pc))
  {
  }

  lemma RecordCalm(s: State, p: Pid, a: Answer)
    requires p in s.procs && Fits(s.procs[p]) && s.procs[p].pc.Imaging?
    requires s.procs[p].pc.image.OpenRecord? || s.procs[p].pc.image.WriteRecord? || s.procs[p].pc.image.DropImage?
    ensures Calm(s, StepImage(s, p, a), p, Some(StepImage(s, p, a).procs[p].pc))
  {
  }

  lemma DeleteCalm(s: State, p: Pid, a: Answer) returns (pc: Option<PC>)
    requires p in s.procs && Fits(s.procs[p]) && s.procs[p].pc.Deleting?
    ensures Calm(s, StepDelete(s, p, a), p, pc)
  {
    match s.procs[p].pc.delete {
      case CheckImage => pc := if a.ok && s.procs[p].job.id in s.images then Some(Deleting(DestroyImage)) else None;
      case DestroyImage => pc := if a.ok then Some(Deleting(Deregister)) else None;
      case Deregister => pc := None;
    }
  }

  lemma EdgeCalm(s: State, p: Pid, a: Answer) returns (pc: Option<PC>)
    requires p in s.procs && Fits(s.procs[p])
    requires var pc := s.procs[p].pc; !pc.Layer? && !pc.Cleaning? && !pc.Imaging? && !pc.Deleting?
    ensures Calm(s, StepEdge(s, p, a), p, pc)
  {
    var job := s.procs[p].job;
    match s.procs[p].pc {
      case CheckId => pc := if a.ok && job.id !in s.images then Some(FetchInfo) else None;
      case FetchInfo => pc := if !a.ok then None else Some(if job.cleanFirst then Cleaning(Measure) else LockShared);
      case LockShared => pc := if a.ok then Some(CheckQuota) else None;
      case CheckQuota => pc := Some(if a.ok then Layer(|job.chain| - 1, Probe) else UnlockShared);
      case UnlockShared => pc := None;
    }
  }

  lemma AfterCalm(s: State, p: Pid, good: bool) returns (pc: Option<PC>)
    requires p in s.procs && s.procs[p].pc.Cleaning?
    ensures Calm(s, AfterClean(s, p, good), p, pc)
  {
    pc := if s.procs[p].job.Create? && good then Some(LockShared) else None;
  }

  lemma CleanCalm(s: State, p: Pid, a: Answer) returns (pc: Option<PC>)
    requires p in s.procs && s.procs[p].pc.Cleaning?
    requires var pc := s.procs[p].pc.clean;
      pc.Measure? || pc.LockExclusive? || pc.ListVolumes? || pc.ListImages? || pc.ReadRecords? || pc.UnlockExclusive?
    ensures Calm(s, StepClean(s, p, a), p, pc)
  {
    if (s.procs[p].pc.clean.Measure? && !(a.ok && !a.alt)) || (s.procs[p].pc.clean.LockExclusive? && !a.ok) {
      pc := AfterCalm(s, p, s.procs[p].pc.clean.Measure? && a.ok);
    } else {
      pc := Some(StepClean(s, p, a).procs[p].pc);
    }
  }

  // ----- the steps that are not calm

  /** A move of `p` alone, with no volume condemned or finished by it. */
  lemma MoveEffects(s: State, s': State, p: Pid, pc: PC, c: ChainId)
    requires p in s.procs && s'.procs == s.procs[p := s.procs[p].(pc := pc)]
    requires Pending(s'.procs[p]) <= Pending(s.procs[p])
    requires forall v: VolName | v in s'.vols && v.Gc? :: v in s.vols
    requires forall d | Live(Final(d)) in s'.vols && d != c :: Live(Final(d)) in s.vols
    requires forall d | AboutToFinalize(s'.procs[p], d) :: d == c
    ensures forall id | Condemned(s', id) :: Condemned(s, id)
    ensures forall d | Settled(s', d) && d != c :: Settled(s, d)
  {
  }

  lemma WriteMetaMeta(cfg: Config, s: State, p: Pid, a: Answer, c: ChainId)
    requires MetaOkAt(s, c) && AtLayer(s, p) && s.procs[p].pc.work.WriteMeta? && a.ok
    requires s.procs[p].job.chain[s.procs[p].pc.i] == c ==> !Condemned(s, Final(c))
    ensures MetaOkAt(StepLayer(cfg, s, p, a), c)
  {
    var i, d := s.procs[p].pc.i, s.procs[p].job.chain[s.procs[p].pc.i];
    var pc := Layer(i, Finalize(s.procs[p].pc.work.n));
    var s' := At(s.(metas := s.metas[Final(d) := Size(s.procs[p].pc.work.bytes)]), p, pc);
    assert s' == StepLayer(cfg, s, p, a);
    MoveEffects(s, s', p, pc, d);
  }

  lemma FinalizeMeta(cfg: Config, s: State, p: Pid, a: Answer, c: ChainId)
    requires MetaOkAt(s, c) && AtLayer(s, p) && s.procs[p].pc.work.Finalize? && a.ok
    ensures MetaOkAt(StepLayer(cfg, s, p, a), c)
  {
    var i, n, d := s.procs[p].pc.i, s.procs[p].pc.work.n, s.procs[p].job.chain[s.procs[p].pc.i];
    assert AboutToFinalize(s.procs[p], d);
    var moved := Moved(s.vols, Live(Temp(d, n)), Live(Final(d)));
    var pc := Layer(i, if moved.Some? then UnlockLayer else Unwind);
    var s' := At(if moved.Some? then s.(vols := moved.value) else s, p, pc);
    assert s' == StepLayer(cfg, s, p, a);
    MoveEffects(s, s', p, pc, d);
  }

  /** Nobody but the holder of a layer is about to finish it. */
  lemma NotSettledByOthers(cfg: Config, s: State, p: Pid, c: ChainId)
    requires Inv(cfg, iset{c}, s) && AtLayer(s, p) && c == s.procs[p].job.chain[s.procs[p].pc.i]
    requires s.procs[p].pc.work.DropMeta? || s.procs[p].pc.work.WriteMeta?
    ensures !Settled(s, c)
  {
    assert ProcOk(cfg, iset{c}, s, s.procs[p]);
    HoldsAt(s.procs[p], s.procs[p].pc.i);
    if q :| q in s.procs && AboutToFinalize(s.procs[q], c) {
      HoldsAt(s.procs[q], s.procs[q].pc.i);
      OneHolder(s, p, q, c);
    }
  }

  lemma DropMetaMeta(cfg: Config, s: State, p: Pid, a: Answer, c: ChainId)
    requires Inv(cfg, iset{c}, s) && MetaOkAt(s, c) && AtLayer(s, p) && s.procs[p].pc.work.DropMeta?
    ensures MetaOkAt(StepLayer(cfg, s, p, a), c)
  {
    var i, d := s.procs[p].pc.i, s.procs[p].job.chain[s.procs[p].pc.i];
    var pc := Layer(i, DropFinal);
    var s' := At(if a.ok then s.(metas := s.metas - {Final(d)}) else s, p, pc);
    assert s' == StepLayer(cfg, s, p, a);
    if d == c {
      NotSettledByOthers(cfg, s, p, c);
    }
    MoveEffects(s, s', p, pc, d);
    NotSettledAfter(s, s', p, d);
  }

  lemma NotSettledAfter(s: State, s': State, p: Pid, c: ChainId)
    requires p in s.procs && s'.vols == s.vols
    requires exists pc :: s'.procs == s.procs[p := s.procs[p].(pc := pc)] && !(pc.Layer? && pc.work.Finalize?)
    ensures Settled(s', c) ==> Settled(s, c)
  {
  }

  /** What is condemned after a step of `p` was condemned before, if neither `p` nor the volumes say otherwise. */
  lemma CondemnedBefore(s: State, s': State, p: Pid, id: VolumeId)
    requires forall q | q in s'.procs && q != p :: q in s.procs && s'.procs[q] == s.procs[q]
    requires p in s'.procs && id in Pending(s'.procs[p]) ==> Condemned(s, id)
    requires Gc(id) in s'.vols ==> Condemned(s, id)
    ensures Condemned(s', id) ==> Condemned(s, id)
  {
  }

  /** While a volume is being marked, nobody is about to finish one. */
  lemma MarkingAlone(s: State, p: Pid, c: ChainId)
    requires LocksOk(s) && p in s.procs && InExclusive(s.procs[p].pc)
    ensures forall q | q in s.procs :: !AboutToFinalize(s.procs[q], c)
  {
  }

  lemma MarkMeta(cfg: Config, s: State, p: Pid, a: Answer, todo: set<VolumeId>, c: ChainId)
    requires Inv(cfg, iset{c}, s) && MetaOkAt(s, c) && p in s.procs && s.procs[p].pc == Cleaning(Mark(todo))
    ensures MetaOkAt(StepClean(s, p, a), c)
  {
    var pc := Cleaning(if todo == {} then UnlockExclusive else Mark(todo - {a.volume}));
    if todo != {} && a.ok && Live(a.volume) in s.vols && Gc(a.volume) !in s.vols {
      var vols := (s.vols - {Live(a.volume)})[Gc(a.volume) := s.vols[Live(a.volume)]];
      var s' := At(s.(vols := vols), p, pc);
      assert s' == StepClean(s, p, a);
      MarkingAlone(s, p, a.volume.chain);
      RenameMeta(s, s', p, pc, a.volume, c);
    } else {
      assert StepClean(s, p, a) == At(s, p, pc);
      CalmKeeps(s, At(s, p, pc), p, Some(pc), c);
    }
  }

  /** Condemning a volume that nobody is about to finish. */
  lemma RenameMeta(s: State, s': State, p: Pid, pc: PC, id: VolumeId, c: ChainId)
    requires MetaOkAt(s, c) && p in s.procs && Live(id) in s.vols && pc.Cleaning? && Pending(s.procs[p].(pc := pc)) == {}
    requires s'.vols == (s.vols - {Live(id)})[Gc(id) := s.vols[Live(id)]]
    requires s'.procs == s.procs[p := s.procs[p].(pc := pc)] && s'.metas == s.metas
    requires forall q | q in s.procs :: !AboutToFinalize(s.procs[q], id.chain)
    ensures MetaOkAt(s', c)
  {
    if Settled(s', c) {
      assert Settled(s, c) && Final(c) != id by {
        if Live(Final(c)) !in s'.vols {
          var q :| q in s'.procs && AboutToFinalize(s'.procs[q], c);
          assert q in s.procs && AboutToFinalize(s.procs[q], c);
        }
      }
      CondemnedBefore(s, s', p, Final(c));
    }
  }

  lemma SettledBefore(s: State, s': State, p: Pid, pc: PC, c: ChainId)
    requires p in s.procs && s'.procs == s.procs[p := s.procs[p].(pc := pc)] && !pc.Layer?
    requires Live(Final(c)) in s'.vols ==> Live(Final(c)) in s.vols
    ensures Settled(s', c) ==> Settled(s, c)
  {
    if q :| q in s'.procs && AboutToFinalize(s'.procs[q], c) {
      assert q != p && q in s.procs && AboutToFinalize(s.procs[q], c);
    }
  }

  lemma ListCondemnedMeta(s: State, p: Pid, a: Answer, c: ChainId)
    requires MetaOkAt(s, c) && p in s.procs && s.procs[p].pc.Cleaning? && s.procs[p].pc.clean.ListCondemned? && a.ok
    ensures MetaOkAt(StepClean(s, p, a), c)
  {
    var listed := set v | v in s.vols && v.Gc? :: v.id;
    var s' := ToClean(s, p, Collect(listed, true));
    assert s' == StepClean(s, p, a);
    SettledBefore(s, s', p, Cleaning(Collect(listed, true)), c);
    CondemnedBefore(s, s', p, Final(c));
  }

  lemma CollectMeta(s: State, p: Pid, a: Answer, todo: set<VolumeId>, good: bool, c: ChainId)
    requires MetaOkAt(s, c) && p in s.procs && s.procs[p].pc == Cleaning(Collect(todo, good)) && todo != {} && a.volume in todo
    ensures MetaOkAt(StepClean(s, p, a), c)
  {
    var pc := Cleaning(CollectVolume(todo - {a.volume}, a.volume, good));
    var s' := At(if a.ok then s.(metas := s.metas - {a.volume}) else s, p, pc);
    assert s' == StepClean(s, p, a);
    assert Condemned(s, a.volume) by { assert a.volume in Pending(s.procs[p]); }
    MoveEffects(s, s', p, pc, a.volume.chain);
    SettledBefore(s, s', p, pc, c);
  }

  lemma CollectVolumeMeta(s: State, p: Pid, a: Answer, todo: set<VolumeId>, id: VolumeId, good: bool, c: ChainId)
    requires MetaOkAt(s, c) && p in s.procs && s.procs[p].pc == Cleaning(CollectVolume(todo, id, good))
    ensures MetaOkAt(StepClean(s, p, a), c)
  {
    var removed := a.ok && Gc(id) in s.vols;
    var pc := Cleaning(Collect(todo, good && removed));
    var s' := At(if removed then s.(vols := s.vols - {Gc(id)}) else s, p, pc);
    assert s' == StepClean(s, p, a);
    CalmKeeps(s, s', p, Some(pc), c);
  }

  lemma CleanMeta(cfg: Config, s: State, p: Pid, a: Answer, c: ChainId)
    requires Inv(cfg, iset{c}, s) && MetaOkAt(s, c) && Possible(s, Go(p, a)) && s.procs[p].pc.Cleaning?
    ensures MetaOkAt(StepClean(s, p, a), c)
  {
    match s.procs[p].pc.clean {
      case Mark(todo) => MarkMeta(cfg, s, p, a, todo, c);
      case ListCondemned =>
        if a.ok {
          ListCondemnedMeta(s, p, a, c);
        } else {
          var pc := AfterCalm(s, p, false);
          CalmKeeps(s, StepClean(s, p, a), p, pc, c);
        }
      case Collect(todo, good) =>
        if todo == {} {
          var pc := AfterCalm(s, p, good);
          CalmKeeps(s, StepClean(s, p, a), p, pc, c);
        } else {
          CollectMeta(s, p, a, todo, good, c);
        }
      case CollectVolume(todo, id, good) => CollectVolumeMeta(s, p, a, todo, id, good, c);
      case _ =>
        var pc := CleanCalm(s, p, a);
        CalmKeeps(s, StepClean(s, p, a), p, pc, c);
    }
  }

  lemma LayerMeta(cfg: Config, s: State, p: Pid, a: Answer, c: ChainId)
    requires Inv(cfg, iset{c}, s) && MetaOkAt(s, c) && Possible(s, Go(p, a)) && s.procs[p].pc.Layer? && NoRebuild(s, Go(p, a), c)
    ensures MetaOkAt(StepLayer(cfg, s, p, a), c)
  {
    var w := s.procs[p].pc.work;
    if w.DropMeta? {
      DropMetaMeta(cfg, s, p, a, c);
    } else if w.WriteMeta? && a.ok {
      WriteMetaMeta(cfg, s, p, a, c);
    } else if w.Finalize? && a.ok {
      FinalizeMeta(cfg, s, p, a, c);
    } else {
      LayerCalm(cfg, s, p, a);
      var pc :| Calm(s, StepLayer(cfg, s, p, a), p, pc);
      CalmKeeps(s, StepLayer(cfg, s, p, a), p, pc, c);
    }
  }

  lemma ImageMeta(s: State, p: Pid, a: Answer, c: ChainId)
    requires MetaOkAt(s, c) && p in s.procs && Fits(s.procs[p]) && s.procs[p].pc.Imaging?
    ensures MetaOkAt(StepImage(s, p, a), c)
  {
    var pc := s.procs[p].pc.image;
    if pc.MakeImageDir? || pc.SnapshotImage? || pc.FinishImage? {
      MakeCalm(s, p, a);
    } else {
      RecordCalm(s, p, a);
    }
    CalmKeeps(s, StepImage(s, p, a), p, Some(StepImage(s, p, a).procs[p].pc), c);
  }

  lemma RestMeta(cfg: Config, s: State, p: Pid, a: Answer, c: ChainId)
    requires MetaOkAt(s, c) && Possible(s, Go(p, a)) && !s.procs[p].pc.Layer? && !s.procs[p].pc.Cleaning?
    ensures MetaOkAt(Exec(cfg, s, p, a), c)
  {
    var pc := s.procs[p].pc;
    if pc.Imaging? {
      ImageMeta(s, p, a, c);
    } else if pc.Deleting? {
      var next := DeleteCalm(s, p, a);
      CalmKeeps(s, StepDelete(s, p, a), p, next, c);
    } else {
      var next := EdgeCalm(s, p, a);
      CalmKeeps(s, StepEdge(s, p, a), p, next, c);
    }
  }

  lemma EventMeta(cfg: Config, s: State, e: Event, s': State, c: ChainId)
    requires Inv(cfg, iset{c}, s) && MetaOkAt(s, c) && Step(cfg, s, e, s') && NoRebuild(s, e, c)
    ensures MetaOkAt(s', c)
  {
    match e {
      case Go(p, a) =>
        match s.procs[p].pc {
          case Layer(_, _) => LayerMeta(cfg, s, p, a, c);
          case Cleaning(_) => CleanMeta(cfg, s, p, a, c);
          case _ => RestMeta(cfg, s, p, a, c);
        }
      case Crash(p) => CalmKeeps(s, s', p, None, c);
      case Spawn(p, job) => SpawnMeta(s, p, job, c);
    }
  }

  lemma SpawnMeta(s: State, p: Pid, job: Job, c: ChainId)
    requires MetaOkAt(s, c) && p !in s.procs
    ensures MetaOkAt(Spawned(s, p, job), c)
  {
    var s' := Spawned(s, p, job);
    if Settled(s', c) {
      assert Settled(s, c) by {
        if q :| q in s'.procs && AboutToFinalize(s'.procs[q], c) {
          assert q != p && q in s.procs && AboutToFinalize(s.procs[q], c);
        }
      }
      CondemnedBefore(s, s', p, Final(c));
    }
  }

  /** In a run where a layer is not rebuilt between its mark and its collection, and no second check of it
      errs, its finished volume has metadata beside it, and the metadata gives the bytes of the layer's own regular files. */
  lemma {:induction false} MetadataAgrees(cfg: Config, states: seq<State>, events: seq<Event>, k: nat, c: ChainId)
    requires IsRun(cfg, states, events) && k < |states|
    requires forall i | 0 <= i < |events| :: NoRebuild(states[i], events[i], c)
    requires Safety.NeverErred(states, events, |events|, c)
    ensures MetaOkAt(states[k], c)
    ensures Live(Final(c)) in states[k].vols ==> Final(c) in states[k].metas && states[k].metas[Final(c)] == Size(cfg.size(c))
    decreases k
  {
    if k > 0 {
      MetadataAgrees(cfg, states, events, k - 1, c);
      MetaOkNext(cfg, states, events, k - 1, c);
    }
    if Live(Final(c)) in states[k].vols {
      assert Settled(states[k], c);
      MetadataRight(cfg, states, events, k, c);
    }
  }

  lemma MetaOkNext(cfg: Config, states: seq<State>, events: seq<Event>, k: nat, c: ChainId)
    requires IsRun(cfg, states, events) && k < |events| && MetaOkAt(states[k], c)
    requires NoRebuild(states[k], events[k], c) && Safety.NeverErred(states, events, |events|, c)
    ensures MetaOkAt(states[k + 1], c)
  {
    Safety.RunInv(cfg, iset{c}, states, events, k);
    assert StepAt(cfg, states, events, k);
    EventMeta(cfg, states[k], events[k], states[k + 1], c);
  }

  lemma MetadataRight(cfg: Config, states: seq<State>, events: seq<Event>, k: nat, c: ChainId)
    requires IsRun(cfg, states, events) && k < |states| && Safety.NeverErred(states, events, |events|, c)
    requires Live(Final(c)) in states[k].vols && Final(c) in states[k].metas
    ensures states[k].metas[Final(c)] == Size(cfg.size(c))
  {
    Safety.RunInv(cfg, iset{c}, states, events, k);
    assert FinalOk(cfg, iset{c}, states[k], c);
  }
}
