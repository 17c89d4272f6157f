/** A step of buildLayer whose call succeeds takes no failure branch. */
module LayerProgress {
  import opened Names
  import opened Contents
  import opened Volumes
  import opened Protocol
  import opened Invariant
  import LayerSteps

  /** Not on the way out after a failure. */
  predicate Good(pc: PC) {
    (pc.Layer? && !pc.work.DropMeta? && !pc.work.DropFinal? && !pc.work.Unwind?) || pc == Imaging(MakeImageDir)
  }

  predicate EndsGood(s: State, p: Pid) {
    p in s.procs && Good(s.procs[p].pc)
  }

  /** What a layer's work finds in the store, from the invariant alone. */
  ghost predicate InLayer(cfg: Config, s: State, p: Pid, a: Answer, i: nat, work: LayerPC) {
    && p in s.procs && Fits(s.procs[p]) && s.procs[p].job.Create? && s.procs[p].pc == Layer(i, work)
    && a.ok && Good(s.procs[p].pc)
    && TempOk(cfg, s.vols, s.metas, s.procs[p].job.chain[i], work)
  }

  lemma GateGood(cfg: Config, s: State, p: Pid, a: Answer, i: nat, work: LayerPC)
    requires InLayer(cfg, s, p, a, i, work)
    requires work.Probe? || work.LockLayer? || work.Reprobe? || work.UnlockLayer?
    ensures EndsGood(StepLayer(cfg, s, p, a), p)
  {
  }

  lemma WriteGood(cfg: Config, s: State, p: Pid, a: Answer, i: nat, work: LayerPC)
    requires InLayer(cfg, s, p, a, i, work)
    requires work.Download? || work.HandleOpaque? || work.WriteMeta?
    ensures EndsGood(StepLayer(cfg, s, p, a), p)
  {
  }

  lemma FinalizeGood(cfg: Config, s: State, p: Pid, a: Answer, i: nat, n: nat)
    requires InLayer(cfg, s, p, a, i, Finalize(n))
    ensures EndsGood(StepLayer(cfg, s, p, a), p)
  {
  }

  lemma CreateTempGood(cfg: Config, s: State, p: Pid, a: Answer, i: nat)
    requires InLayer(cfg, s, p, a, i, CreateTemp)
    requires Source(cfg, s.vols, ParentOf(s.procs[p].job.chain, i)).Some?
    ensures EndsGood(StepLayer(cfg, s, p, a), p)
  {
  }

  lemma ChownTempGood(cfg: Config, s: State, p: Pid, a: Answer, i: nat, n: nat)
    requires InLayer(cfg, s, p, a, i, ChownTemp(n))
    ensures EndsGood(StepLayer(cfg, s, p, a), p)
  {
  }

  lemma BaseDirGood(cfg: Config, s: State, p: Pid, a: Answer, i: nat, n: nat)
    requires InLayer(cfg, s, p, a, i, BaseDir(n))
    requires var c := s.procs[p].job.chain[i];
      Prepared(cfg, c).Some? && LookupTree(s.vols, ParentOf(s.procs[p].job.chain, i)) == Below(cfg, c)
    ensures EndsGood(StepLayer(cfg, s, p, a), p)
  {
    var cs := s.procs[p].job.chain;
    var parent := LookupTree(s.vols, ParentOf(cs, i));
    assert parent.Some? && Prepare(cfg, cs[i], s.vols[Live(Temp(cs[i], n))], parent.value) == Prepared(cfg, cs[i]);
  }

  lemma UnpackTempGood(cfg: Config, s: State, p: Pid, a: Answer, i: nat, n: nat)
    requires InLayer(cfg, s, p, a, i, UnpackTemp(n)) && Denote(cfg, s.procs[p].job.chain[i]).Some?
    ensures EndsGood(StepLayer(cfg, s, p, a), p)
  {
  }

  /** So it is in any state the invariant allows, if the layer can be applied and the one below is trusted. */
  lemma StaysGood(cfg: Config, trusted: LayerSet, s: State, p: Pid, a: Answer)
    requires Inv(cfg, trusted, s) && Possible(s, Go(p, a)) && a.ok && s.procs[p].pc.Layer? && Good(s.procs[p].pc)
    requires var i, cs := s.procs[p].pc.i, s.procs[p].job.chain;
      Denote(cfg, cs[i]).Some? && (i > 0 ==> cs[i - 1] in trusted)
    ensures EndsGood(StepLayer(cfg, s, p, a), p)
  {
    var i, work, cs := s.procs[p].pc.i, s.procs[p].pc.work, s.procs[p].job.chain;
    assert ProcOk(cfg, trusted, s, s.procs[p]);
    assert InLayer(cfg, s, p, a, i, work);
    assert Prepared(cfg, cs[i]).Some?;
    if work.CreateTemp? || work.BaseDir? {
      LayerSteps.StartsFrom(cfg, trusted, s, cs, i);
    }
    match work {
      case CreateTemp => CreateTempGood(cfg, s, p, a, i);
      case ChownTemp(n) => ChownTempGood(cfg, s, p, a, i, n);
      case BaseDir(n) => BaseDirGood(cfg, s, p, a, i, n);
      case UnpackTemp(n) => UnpackTempGood(cfg, s, p, a, i, n);
      case Finalize(n) => FinalizeGood(cfg, s, p, a, i, n);
      case Download => WriteGood(cfg, s, p, a, i, work);
      case HandleOpaque(_, _) => WriteGood(cfg, s, p, a, i, work);
      case WriteMeta(_, _) => WriteGood(cfg, s, p, a, i, work);
      case _ => GateGood(cfg, s, p, a, i, work);
    }
  }
}
