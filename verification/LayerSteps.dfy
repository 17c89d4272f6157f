/** buildLayer's steps keep the invariant. */
module LayerSteps {
  import opened Options
  import opened Trees
  import opened ChainIds
  import opened Names
  import opened Contents
  import opened Volumes
  import opened Protocol
  import opened Invariant
  import opened Effects

  /** Process `p` of image `cs` works on layer `i`. */
  ghost predicate Working(cfg: Config, trusted: LayerSet, s: State, p: Pid, cs: seq<ChainId>, i: nat, work: LayerPC) {
    Inv(cfg, trusted, s) && p in s.procs && s.procs[p].pc == Layer(i, work) && s.procs[p].job.Create? && s.procs[p].job.chain == cs
  }

  lemma WorkingFacts(cfg: Config, trusted: LayerSet, s: State, p: Pid, cs: seq<ChainId>, i: nat, work: LayerPC)
    requires Working(cfg, trusted, s, p, cs, i, work)
    ensures IsChain(cs) && i < |cs| && LayerOk(cfg, trusted, s, cs, i, work)
    ensures Fits(s.procs[p]) && s.procs[p].job.id !in s.committed
  {
  }

  lemma ClaimWeaken(trusted: LayerSet, vols: Vols, vols': Vols, cs: seq<ChainId>, k: nat, k': nat)
    requires ClaimOk(trusted, vols, cs, k) && k' >= k
    requires forall c | Live(Final(c)) in vols' :: Live(Final(c)) in vols
    ensures ClaimOk(trusted, vols', cs, k')
  {
  }

  /** Going on to other work on the same layer, with nothing new asked of the store. */
  lemma Onward(cfg: Config, trusted: LayerSet, s: State, p: Pid, cs: seq<ChainId>, i: nat, work: LayerPC, work': LayerPC)
    requires Working(cfg, trusted, s, p, cs, i, work) && i < |cs|
    requires (work.Probe? || work.LockLayer?) == (work'.Probe? || work'.LockLayer?)
    requires ClaimedFrom(i, work') >= ClaimedFrom(i, work)
    requires ParentOk(trusted, s.vols, cs, i, work') && TempOk(cfg, s.vols, s.metas, cs[i], work')
    ensures Kept(cfg, trusted, s, At(s, p, Layer(i, work')), p)
  {
    WorkingFacts(cfg, trusted, s, p, cs, i, work);
    ClaimWeaken(trusted, s.vols, s.vols, cs, ClaimedFrom(i, work), ClaimedFrom(i, work'));
    PlainMove(cfg, trusted, s, p, Layer(i, work'));
  }

  lemma ProbeStep(cfg: Config, trusted: LayerSet, s: State, p: Pid, a: Answer, cs: seq<ChainId>, i: nat)
    requires Working(cfg, trusted, s, p, cs, i, Probe) && i < |cs| && Fits(s.procs[p])
    ensures Kept(cfg, trusted, s, StepLayer(cfg, s, p, a), p)
  {
    if a.ok && Live(Final(cs[i])) in s.vols {
      WorkingFacts(cfg, trusted, s, p, cs, i, Probe);
      PlainMove(cfg, trusted, s, p, Resume(|cs|, i));
    } else {
      Onward(cfg, trusted, s, p, cs, i, Probe, LockLayer);
    }
  }

  lemma LockLayerStep(cfg: Config, trusted: LayerSet, s: State, p: Pid, a: Answer, cs: seq<ChainId>, i: nat)
    requires Working(cfg, trusted, s, p, cs, i, LockLayer) && i < |cs| && Fits(s.procs[p]) && Enabled(s, p, a)
    ensures Kept(cfg, trusted, s, StepLayer(cfg, s, p, a), p)
  {
    WorkingFacts(cfg, trusted, s, p, cs, i, LockLayer);
    if !a.ok {
      PlainMove(cfg, trusted, s, p, Above(|cs|, i));
    } else {
      var pc := Layer(i, Reprobe);
      var s' := StepLayer(cfg, s, p, a);
      assert LayersOk(s') by { TakesLayer(s, s', p, pc); }
      assert GlobalOk(s') by { MovesGlobal(s, s', p, pc); }
      LockMove(cfg, trusted, s, s', p, pc);
    }
  }

  lemma ReprobeStep(cfg: Config, trusted: LayerSet, s: State, p: Pid, a: Answer, cs: seq<ChainId>, i: nat)
    requires Working(cfg, trusted, s, p, cs, i, Reprobe) && i < |cs| && Fits(s.procs[p])
    requires cs[i] in trusted && Live(Final(cs[i])) in s.vols ==> a.ok
    ensures Kept(cfg, trusted, s, StepLayer(cfg, s, p, a), p)
  {
    if a.ok && Live(Final(cs[i])) in s.vols {
      Onward(cfg, trusted, s, p, cs, i, Reprobe, UnlockLayer);
    } else {
      Descends(cfg, trusted, s, p, cs, i, if i == 0 then Layer(0, Download) else Layer(i - 1, Probe));
    }
  }

  /** On to the layer below, or to this one if it is the first. */
  lemma Descends(cfg: Config, trusted: LayerSet, s: State, p: Pid, cs: seq<ChainId>, i: nat, pc: PC)
    requires Working(cfg, trusted, s, p, cs, i, Reprobe) && i < |cs|
    requires cs[i] in trusted ==> Live(Final(cs[i])) !in s.vols
    requires if i == 0 then pc == Layer(0, Download) else pc == Layer(i - 1, Probe)
    ensures Kept(cfg, trusted, s, At(s, p, pc), p)
  {
    WorkingFacts(cfg, trusted, s, p, cs, i, Reprobe);
    PlainMove(cfg, trusted, s, p, pc);
  }

  /** Filling a temporary volume of the locked layer. */
  lemma TempMove(cfg: Config, trusted: LayerSet, s: State, p: Pid, cs: seq<ChainId>, i: nat, work: LayerPC, n: nat, t: Tree, work': LayerPC)
    requires Working(cfg, trusted, s, p, cs, i, work) && i < |cs|
    requires !work.Probe? && !work.LockLayer? && !work'.Probe? && !work'.LockLayer?
    requires ClaimedFrom(i, work') >= ClaimedFrom(i, work)
    requires ParentOk(trusted, s.vols, cs, i, work')
    requires TempOk(cfg, WithTemp(s, cs[i], n, t).vols, s.metas, cs[i], work')
    ensures Kept(cfg, trusted, s, At(WithTemp(s, cs[i], n, t), p, Layer(i, work')), p)
  {
    var s' := At(WithTemp(s, cs[i], n, t), p, Layer(i, work'));
    WorkingFacts(cfg, trusted, s, p, cs, i, work);
    ClaimWeaken(trusted, s.vols, s'.vols, cs, ClaimedFrom(i, work), ClaimedFrom(i, work'));
    HoldsAt(s.procs[p], i);
    assert FinalOk(cfg, trusted, s', cs[i]) by { assert FinalOk(cfg, trusted, s, cs[i]); }
    TouchMove(cfg, trusted, s, s', p, Layer(i, work'), cs[i]);
  }

  /** What the driver snapshots, and what a base-directory lookup reads, is what the chain denotes. */
  lemma StartsFrom(cfg: Config, trusted: LayerSet, s: State, cs: seq<ChainId>, i: nat)
    requires CacheOk(cfg, trusted, s) && IsChain(cs) && i < |cs|
    requires i > 0 ==> Live(Final(cs[i - 1])) in s.vols
    ensures Source(cfg, s.vols, ParentOf(cs, i)) == Start(cfg, cs[i])
    ensures LookupTree(s.vols, ParentOf(cs, i)) == Below(cfg, cs[i])
    ensures Start(cfg, cs[i]).Some?
  {
    assert Depth(cs[i]) == i + 1;
    if i > 0 {
      assert FinalOk(cfg, trusted, s, cs[i - 1]);
      assert cs[i].parent == cs[i - 1];
    }
  }

  lemma TempCreated(cfg: Config, trusted: LayerSet, s: State, p: Pid, cs: seq<ChainId>, i: nat, n: nat)
    requires Working(cfg, trusted, s, p, cs, i, CreateTemp) && i < |cs| && Source(cfg, s.vols, ParentOf(cs, i)).Some?
    ensures Kept(cfg, trusted, s, At(WithTemp(s, cs[i], n, Source(cfg, s.vols, ParentOf(cs, i)).value), p, Layer(i, ChownTemp(n))), p)
  {
    WorkingFacts(cfg, trusted, s, p, cs, i, CreateTemp);
    StartsFrom(cfg, trusted, s, cs, i);
    TempMove(cfg, trusted, s, p, cs, i, CreateTemp, n, Start(cfg, cs[i]).value, ChownTemp(n));
  }

  lemma CreateTempStep(cfg: Config, trusted: LayerSet, s: State, p: Pid, a: Answer, cs: seq<ChainId>, i: nat)
    requires Working(cfg, trusted, s, p, cs, i, CreateTemp) && i < |cs| && Fits(s.procs[p])
    ensures Kept(cfg, trusted, s, StepLayer(cfg, s, p, a), p)
  {
    WorkingFacts(cfg, trusted, s, p, cs, i, CreateTemp);
    var source := Source(cfg, s.vols, ParentOf(cs, i));
    if source.Some? && a.ok {
      TempCreated(cfg, trusted, s, p, cs, i, a.stamp);
    } else if source.Some? && a.alt {
      TempMove(cfg, trusted, s, p, cs, i, CreateTemp, a.stamp, a.junk, Unwind);
    } else {
      Onward(cfg, trusted, s, p, cs, i, CreateTemp, Unwind);
    }
  }

  lemma ChownTempStep(cfg: Config, trusted: LayerSet, s: State, p: Pid, a: Answer, cs: seq<ChainId>, i: nat, n: nat)
    requires Working(cfg, trusted, s, p, cs, i, ChownTemp(n)) && i < |cs| && Fits(s.procs[p])
    ensures Kept(cfg, trusted, s, StepLayer(cfg, s, p, a), p)
  {
    WorkingFacts(cfg, trusted, s, p, cs, i, ChownTemp(n));
    if a.ok {
      TempMove(cfg, trusted, s, p, cs, i, ChownTemp(n), n, ChownRoot(cfg, s.vols[Live(Temp(cs[i], n))]), BaseDir(n));
    } else {
      Onward(cfg, trusted, s, p, cs, i, ChownTemp(n), Unwind);
    }
  }

  lemma BaseDirStep(cfg: Config, trusted: LayerSet, s: State, p: Pid, a: Answer, cs: seq<ChainId>, i: nat, n: nat)
    requires Working(cfg, trusted, s, p, cs, i, BaseDir(n)) && i < |cs| && Fits(s.procs[p])
    ensures Kept(cfg, trusted, s, StepLayer(cfg, s, p, a), p)
  {
    WorkingFacts(cfg, trusted, s, p, cs, i, BaseDir(n));
    if cfg.baseDirectory(cs[i]).None? {
      UnannotatedPrepared(cfg, cs, i);
      Onward(cfg, trusted, s, p, cs, i, BaseDir(n), UnpackTemp(n));
    } else if LookupTree(s.vols, ParentOf(cs, i)).None? {
      Onward(cfg, trusted, s, p, cs, i, BaseDir(n), Unwind);
    } else {
      StartsFrom(cfg, trusted, s, cs, i);
      var result := Prepare(cfg, cs[i], s.vols[Live(Temp(cs[i], n))], LookupTree(s.vols, ParentOf(cs, i)).value);
      assert result == Prepared(cfg, cs[i]);
      if a.ok && result.Some? {
        TempMove(cfg, trusted, s, p, cs, i, BaseDir(n), n, result.value, UnpackTemp(n));
      } else {
        TempMove(cfg, trusted, s, p, cs, i, BaseDir(n), n, a.junk, Unwind);
      }
    }
  }

  lemma UnannotatedPrepared(cfg: Config, cs: seq<ChainId>, i: nat)
    requires IsChain(cs) && i < |cs| && cfg.baseDirectory(cs[i]).None? && Start(cfg, cs[i]).Some?
    ensures Prepared(cfg, cs[i]) == Some(ChownRoot(cfg, Start(cfg, cs[i]).value))
  {
  }

  lemma UnpackTempStep(cfg: Config, trusted: LayerSet, s: State, p: Pid, a: Answer, cs: seq<ChainId>, i: nat, n: nat)
    requires Working(cfg, trusted, s, p, cs, i, UnpackTemp(n)) && i < |cs| && Fits(s.procs[p])
    ensures Kept(cfg, trusted, s, StepLayer(cfg, s, p, a), p)
  {
    WorkingFacts(cfg, trusted, s, p, cs, i, UnpackTemp(n));
    var result := cfg.unpack(cs[i], s.vols[Live(Temp(cs[i], n))]);
    assert result == Denote(cfg, cs[i]);
    if a.ok && result.Some? {
      TempMove(cfg, trusted, s, p, cs, i, UnpackTemp(n), n, result.value, HandleOpaque(n, cfg.size(cs[i])));
    } else {
      TempMove(cfg, trusted, s, p, cs, i, UnpackTemp(n), n, a.junk, DropMeta);
    }
  }

  /** A step on the metadata of a layer whose final volume is claimed absent. */
  lemma MetaMove(cfg: Config, trusted: LayerSet, s: State, p: Pid, cs: seq<ChainId>, i: nat, work: LayerPC, metas: Metas, work': LayerPC)
    requires Working(cfg, trusted, s, p, cs, i, work) && i < |cs|
    requires work.DropMeta? || work.WriteMeta?
    requires work'.DropFinal? || work'.Unwind? || work'.Finalize?
    requires forall id | id != Final(cs[i]) :: (id in metas <==> id in s.metas) && (id in s.metas ==> metas[id] == s.metas[id])
    requires TempOk(cfg, s.vols, metas, cs[i], work')
    ensures Kept(cfg, trusted, s, At(s.(metas := metas), p, Layer(i, work')), p)
  {
    var s' := At(s.(metas := metas), p, Layer(i, work'));
    WorkingFacts(cfg, trusted, s, p, cs, i, work);
    assert FinalOk(cfg, trusted, s, cs[i]);
    HoldsAt(s.procs[p], i);
    TouchMove(cfg, trusted, s, s', p, Layer(i, work'), cs[i]);
  }

  lemma WriteMetaStep(cfg: Config, trusted: LayerSet, s: State, p: Pid, a: Answer, cs: seq<ChainId>, i: nat, n: nat, bytes: nat)
    requires Working(cfg, trusted, s, p, cs, i, WriteMeta(n, bytes)) && i < |cs| && Fits(s.procs[p])
    ensures Kept(cfg, trusted, s, StepLayer(cfg, s, p, a), p)
  {
    WorkingFacts(cfg, trusted, s, p, cs, i, WriteMeta(n, bytes));
    if a.ok {
      MetaMove(cfg, trusted, s, p, cs, i, WriteMeta(n, bytes), s.metas[Final(cs[i]) := Size(bytes)], Finalize(n));
    } else if a.alt {
      MetaMove(cfg, trusted, s, p, cs, i, WriteMeta(n, bytes), s.metas[Final(cs[i]) := Garbled], Unwind);
    } else {
      Onward(cfg, trusted, s, p, cs, i, WriteMeta(n, bytes), Unwind);
    }
  }

  /** The failure branch destroys the final name, which is not there to be destroyed, unless the second check
      said so wrongly. */
  lemma DropFinalStep(cfg: Config, trusted: LayerSet, s: State, p: Pid, a: Answer, cs: seq<ChainId>, i: nat)
    requires Working(cfg, trusted, s, p, cs, i, DropFinal) && i < |cs| && Fits(s.procs[p])
    ensures Kept(cfg, trusted, s, StepLayer(cfg, s, p, a), p)
    ensures cs[i] in trusted ==> StepLayer(cfg, s, p, a).vols == s.vols
  {
    WorkingFacts(cfg, trusted, s, p, cs, i, DropFinal);
    if a.ok && Live(Final(cs[i])) in s.vols {
      VolumeDropped(cfg, trusted, s, p, cs, i);
    } else {
      NothingDropped(cfg, trusted, s, p, a, cs, i);
    }
  }

  lemma NothingDropped(cfg: Config, trusted: LayerSet, s: State, p: Pid, a: Answer, cs: seq<ChainId>, i: nat)
    requires Working(cfg, trusted, s, p, cs, i, DropFinal) && i < |cs| && Fits(s.procs[p])
    requires !a.ok || Live(Final(cs[i])) !in s.vols
    ensures StepLayer(cfg, s, p, a).vols == s.vols
    ensures Kept(cfg, trusted, s, StepLayer(cfg, s, p, a), p)
  {
    assert Live(Final(cs[i])) !in s.vols ==> s.vols - {Live(Final(cs[i]))} == s.vols;
    assert StepLayer(cfg, s, p, a) == At(s, p, Layer(i, Unwind));
    Onward(cfg, trusted, s, p, cs, i, DropFinal, Unwind);
  }

  /** Only an untrusted layer can lose its volume here. */
  lemma VolumeDropped(cfg: Config, trusted: LayerSet, s: State, p: Pid, cs: seq<ChainId>, i: nat)
    requires Working(cfg, trusted, s, p, cs, i, DropFinal) && i < |cs| && Live(Final(cs[i])) in s.vols
    ensures cs[i] !in trusted
    ensures Kept(cfg, trusted, s, At(s.(vols := s.vols - {Live(Final(cs[i]))}), p, Layer(i, Unwind)), p)
  {
    var s' := At(s.(vols := s.vols - {Live(Final(cs[i]))}), p, Layer(i, Unwind));
    WorkingFacts(cfg, trusted, s, p, cs, i, DropFinal);
    ClaimWeaken(trusted, s.vols, s'.vols, cs, i, i + 1);
    HoldsAt(s.procs[p], i);
    TouchMove(cfg, trusted, s, s', p, Layer(i, Unwind), cs[i]);
  }

  lemma RenameTouches(trusted: LayerSet, s: State, s': State, c: ChainId, n: nat)
    requires Live(Final(c)) !in s.vols && Live(Temp(c, n)) in s.vols
    requires s'.vols == (s.vols - {Live(Temp(c, n))})[Live(Final(c)) := s.vols[Live(Temp(c, n))]]
    requires s'.metas == s.metas && s'.images == s.images && s'.records == s.records && s'.committed == s.committed
    ensures Touches(trusted, s, s', c)
  {
  }

  /** The rename never finds its target taken, unless the second check said wrongly that it was free. */
  lemma FinalizeStep(cfg: Config, trusted: LayerSet, s: State, p: Pid, a: Answer, cs: seq<ChainId>, i: nat, n: nat)
    requires Working(cfg, trusted, s, p, cs, i, Finalize(n)) && i < |cs| && Fits(s.procs[p])
    ensures cs[i] in trusted ==> Live(Final(cs[i])) !in s.vols
    ensures Kept(cfg, trusted, s, StepLayer(cfg, s, p, a), p)
  {
    WorkingFacts(cfg, trusted, s, p, cs, i, Finalize(n));
    if a.ok && Live(Final(cs[i])) in s.vols {
      Onward(cfg, trusted, s, p, cs, i, Finalize(n), UnlockLayer);
    } else if a.ok {
      RenameKept(cfg, trusted, s, p, cs, i, n);
    } else {
      Onward(cfg, trusted, s, p, cs, i, Finalize(n), Unwind);
    }
  }

  lemma ClaimAbove(trusted: LayerSet, vols: Vols, vols': Vols, cs: seq<ChainId>, i: nat)
    requires IsChain(cs) && i < |cs| && ClaimOk(trusted, vols, cs, i)
    requires forall c | Live(Final(c)) in vols' && c != cs[i] :: Live(Final(c)) in vols
    ensures ClaimOk(trusted, vols', cs, i + 1)
  {
  }

  lemma RenameKept(cfg: Config, trusted: LayerSet, s: State, p: Pid, cs: seq<ChainId>, i: nat, n: nat)
    requires Working(cfg, trusted, s, p, cs, i, Finalize(n)) && i < |cs| && Live(Temp(cs[i], n)) in s.vols
    requires Live(Final(cs[i])) !in s.vols
    ensures
      var vols := (s.vols - {Live(Temp(cs[i], n))})[Live(Final(cs[i])) := s.vols[Live(Temp(cs[i], n))]];
      Kept(cfg, trusted, s, At(s.(vols := vols), p, Layer(i, UnlockLayer)), p)
  {
    WorkingFacts(cfg, trusted, s, p, cs, i, Finalize(n));
    var c := cs[i];
    var vols := (s.vols - {Live(Temp(c, n))})[Live(Final(c)) := s.vols[Live(Temp(c, n))]];
    var s' := At(s.(vols := vols), p, Layer(i, UnlockLayer));
    ClaimAbove(trusted, s.vols, vols, cs, i);
    assert HoldsLayer(s.procs[p], c) by { HoldsAt(s.procs[p], i); }
    RenameTouches(trusted, s, s', c, n);
    TouchMove(cfg, trusted, s, s', p, Layer(i, UnlockLayer), c);
  }

  /** The layer's lock is dropped, on success or on failure. */
  lemma UnlockStep(cfg: Config, trusted: LayerSet, s: State, p: Pid, cs: seq<ChainId>, i: nat, work: LayerPC, pc: PC)
    requires Working(cfg, trusted, s, p, cs, i, work) && i < |cs|
    requires (work.UnlockLayer? && pc == Resume(|cs|, i)) || (work.Unwind? && pc == Above(|cs|, i))
    ensures Kept(cfg, trusted, s, At(s.(flocks := s.flocks.(layers := s.flocks.layers - {cs[i]})), p, pc), p)
  {
    WorkingFacts(cfg, trusted, s, p, cs, i, work);
    var s' := At(s.(flocks := s.flocks.(layers := s.flocks.layers - {cs[i]})), p, pc);
    assert LayersOk(s') by { DropsLayer(s, s', p, pc); }
    assert GlobalOk(s') by { MovesGlobal(s, s', p, pc); }
    LockMove(cfg, trusted, s, s', p, pc);
  }

  lemma GateKept(cfg: Config, trusted: LayerSet, s: State, p: Pid, a: Answer, cs: seq<ChainId>, i: nat, work: LayerPC)
    requires Working(cfg, trusted, s, p, cs, i, work) && i < |cs| && Fits(s.procs[p]) && Enabled(s, p, a)
    requires work.Probe? || work.LockLayer? || work.Reprobe? || work.UnlockLayer? || work.Unwind?
    requires work.Reprobe? && cs[i] in trusted && Live(Final(cs[i])) in s.vols ==> a.ok
    ensures Kept(cfg, trusted, s, StepLayer(cfg, s, p, a), p)
  {
    match work {
      case Probe => ProbeStep(cfg, trusted, s, p, a, cs, i);
      case LockLayer => LockLayerStep(cfg, trusted, s, p, a, cs, i);
      case Reprobe => ReprobeStep(cfg, trusted, s, p, a, cs, i);
      case UnlockLayer => UnlockStep(cfg, trusted, s, p, cs, i, work, Resume(|cs|, i));
      case Unwind => UnlockStep(cfg, trusted, s, p, cs, i, work, Above(|cs|, i));
    }
  }

  lemma BuildKept(cfg: Config, trusted: LayerSet, s: State, p: Pid, a: Answer, cs: seq<ChainId>, i: nat, work: LayerPC)
    requires Working(cfg, trusted, s, p, cs, i, work) && i < |cs| && Fits(s.procs[p])
    requires work.Download? || work.CreateTemp? || work.ChownTemp? || work.BaseDir? || work.UnpackTemp?
    ensures Kept(cfg, trusted, s, StepLayer(cfg, s, p, a), p)
  {
    WorkingFacts(cfg, trusted, s, p, cs, i, work);
    match work {
      case Download => Onward(cfg, trusted, s, p, cs, i, work, if a.ok then CreateTemp else Unwind);
      case CreateTemp => CreateTempStep(cfg, trusted, s, p, a, cs, i);
      case ChownTemp(n) => ChownTempStep(cfg, trusted, s, p, a, cs, i, n);
      case BaseDir(n) => BaseDirStep(cfg, trusted, s, p, a, cs, i, n);
      case UnpackTemp(n) => UnpackTempStep(cfg, trusted, s, p, a, cs, i, n);
    }
  }

  lemma CloseKept(cfg: Config, trusted: LayerSet, s: State, p: Pid, a: Answer, cs: seq<ChainId>, i: nat, work: LayerPC)
    requires Working(cfg, trusted, s, p, cs, i, work) && i < |cs| && Fits(s.procs[p])
    requires work.DropMeta? || work.DropFinal? || work.HandleOpaque? || work.WriteMeta? || work.Finalize?
    ensures Kept(cfg, trusted, s, StepLayer(cfg, s, p, a), p)
  {
    WorkingFacts(cfg, trusted, s, p, cs, i, work);
    match work {
      case DropMeta => MetaMove(cfg, trusted, s, p, cs, i, work, if a.ok then s.metas - {Final(cs[i])} else s.metas, DropFinal);
      case DropFinal => DropFinalStep(cfg, trusted, s, p, a, cs, i);
      case HandleOpaque(n, bytes) => Onward(cfg, trusted, s, p, cs, i, work, if a.ok then WriteMeta(n, bytes) else Unwind);
      case WriteMeta(n, bytes) => WriteMetaStep(cfg, trusted, s, p, a, cs, i, n, bytes);
      case Finalize(n) => FinalizeStep(cfg, trusted, s, p, a, cs, i, n);
    }
  }

  lemma LayerKept(cfg: Config, trusted: LayerSet, s: State, p: Pid, a: Answer)
    requires Inv(cfg, trusted, s) && Possible(s, Go(p, a)) && Sound(trusted, s, Go(p, a)) && s.procs[p].pc.Layer?
    ensures Kept(cfg, trusted, s, StepLayer(cfg, s, p, a), p)
  {
    var i, work, cs := s.procs[p].pc.i, s.procs[p].pc.work, s.procs[p].job.chain;
    assert cs[i] in trusted ==> !Errs(s, Go(p, a), cs[i]);
    if work.Probe? || work.LockLayer? || work.Reprobe? || work.UnlockLayer? || work.Unwind? {
      GateKept(cfg, trusted, s, p, a, cs, i, work);
    } else if work.Download? || work.CreateTemp? || work.ChownTemp? || work.BaseDir? || work.UnpackTemp? {
      BuildKept(cfg, trusted, s, p, a, cs, i, work);
    } else {
      CloseKept(cfg, trusted, s, p, a, cs, i, work);
    }
  }
}
