/** The protocol's pull, run by itself, does to the volumes and metadata what the puller's methods do. */
module SoloPull {
  import opened Options
  import opened Trees
  import opened ChainIds
  import opened Names
  import opened Contents
  import opened Volumes
  import opened Protocol
  import opened Invariant
  import opened Puller
  import LayerSteps
  import Safety
  import SoloClean

  /** The final volumes of `cs` are new, and nothing else is. */
  ghost predicate Grown(s: State, cs: seq<ChainId>, vols: Vols) {
    && (forall v :: v in vols <==> v in s.vols || (v.Live? && v.id.Final? && v.id.chain in cs))
    && (forall v | v in s.vols && v in vols :: vols[v] == s.vols[v])
  }

  ghost predicate Recorded(cfg: Config, s: State, cs: seq<ChainId>, metas: Metas) {
    && (forall id :: id in metas <==> id in s.metas || (id.Final? && id.chain in cs))
    && (forall c | c in cs && Final(c) in metas :: metas[Final(c)] == Size(cfg.size(c)))
    && (forall id | id in s.metas && id in metas && !(id.Final? && id.chain in cs) :: metas[id] == s.metas[id])
  }

  predicate AbsentFrom(s: State, cs: seq<ChainId>, k: nat) {
    forall j | k <= j < |cs| :: Live(Final(cs[j])) !in s.vols
  }

  /** With a temporary volume set aside. */
  ghost predicate GrownBut(s: State, cs: seq<ChainId>, vols: Vols, temp: VolName) {
    temp in vols && temp !in s.vols && Grown(s, cs, vols - {temp})
  }

  /** The layers below are done, and this one's temporary volume is being filled. */
  ghost predicate Filling(cfg: Config, s: State, cs: seq<ChainId>, m: State, i: nat, n: nat)
    requires i < |cs|
  {
    && AbsentFrom(s, cs, i) && GrownBut(s, Missing(s.vols, cs, i - 1), m.vols, Live(Temp(cs[i], n)))
    && Recorded(cfg, s, Missing(s.vols, cs, i - 1), m.metas)
  }

  /** How far a pull begun in `s` has come. */
  ghost predicate PulledTo(cfg: Config, s: State, cs: seq<ChainId>, m: State, i: nat, work: LayerPC)
    requires i < |cs|
  {
    var below := Missing(s.vols, cs, i - 1);
    match work
    case Probe => m.vols == s.vols && m.metas == s.metas && AbsentFrom(s, cs, i + 1)
    case LockLayer => m.vols == s.vols && m.metas == s.metas && AbsentFrom(s, cs, i)
    case Reprobe => m.vols == s.vols && m.metas == s.metas && AbsentFrom(s, cs, i)
    case Download => AbsentFrom(s, cs, i) && Grown(s, below, m.vols) && Recorded(cfg, s, below, m.metas)
    case CreateTemp => AbsentFrom(s, cs, i) && Grown(s, below, m.vols) && Recorded(cfg, s, below, m.metas)
    case ChownTemp(n) => Filling(cfg, s, cs, m, i, n)
    case BaseDir(n) => Filling(cfg, s, cs, m, i, n)
    case UnpackTemp(n) => Filling(cfg, s, cs, m, i, n)
    case HandleOpaque(n, _) => Filling(cfg, s, cs, m, i, n)
    case WriteMeta(n, _) => Filling(cfg, s, cs, m, i, n)
    case Finalize(n) =>
      AbsentFrom(s, cs, i) && GrownBut(s, below, m.vols, Live(Temp(cs[i], n))) && Recorded(cfg, s, below + [cs[i]], m.metas)
    case UnlockLayer => AbsentFrom(s, cs, i) && Grown(s, below + [cs[i]], m.vols) && Recorded(cfg, s, below + [cs[i]], m.metas)
    case _ => false
  }

  ghost predicate Pulled(cfg: Config, s: State, cs: seq<ChainId>, m: State) {
    cs != [] && var all := Missing(s.vols, cs, |cs| - 1); Grown(s, all, m.vols) && Recorded(cfg, s, all, m.metas)
  }

  ghost predicate Pulling(cfg: Config, s: State, job: Job, m: State, p: Pid) {
    && p in m.procs && m.procs[p].job == job && job.Create? && IsChain(job.chain)
    && match m.procs[p].pc
       case Layer(i, work) => i < |job.chain| && PulledTo(cfg, s, job.chain, m, i, work)
       case Imaging(MakeImageDir) => Pulled(cfg, s, job.chain, m)
       case _ => false
  }

  /** `p` is at this work in state `m`, which is `s` as far as the pull has come. */
  ghost predicate Reached(cfg: Config, s: State, job: Job, m: State, p: Pid, i: nat, work: LayerPC) {
    && p in m.procs && Fits(m.procs[p]) && m.procs[p] == Proc(job, Layer(i, work)) && job.Create? && IsChain(job.chain)
    && i < |job.chain| && PulledTo(cfg, s, job.chain, m, i, work)
    && TempOk(cfg, m.vols, m.metas, job.chain[i], work)
  }

  lemma NothingNew(cfg: Config, s: State)
    ensures Grown(s, [], s.vols) && Recorded(cfg, s, [], s.metas)
  {
  }

  lemma AbsentMissing(s: State, cs: seq<ChainId>, i: nat)
    requires i < |cs| && AbsentFrom(s, cs, i)
    ensures Missing(s.vols, cs, i) == Missing(s.vols, cs, i - 1) + [cs[i]]
  {
    assert Live(Final(cs[i])) !in s.vols;
  }

  lemma ResumePulls(cfg: Config, s: State, job: Job, m: State, m': State, p: Pid, i: nat)
    requires p in m.procs && m.procs[p].job == job && job.Create? && IsChain(job.chain) && i < |job.chain|
    requires AbsentFrom(s, job.chain, i + 1)
    requires Grown(s, Missing(s.vols, job.chain, i), m.vols) && Recorded(cfg, s, Missing(s.vols, job.chain, i), m.metas)
    requires m'.vols == m.vols && m'.metas == m.metas && m'.procs == m.procs[p := Proc(job, Resume(|job.chain|, i))]
    ensures Pulling(cfg, s, job, m', p)
  {
    assert i + 1 < |job.chain| ==> Missing(s.vols, job.chain, i + 1 - 1) == Missing(s.vols, job.chain, i);
  }

  lemma ProbePulls(cfg: Config, s: State, job: Job, m: State, p: Pid, a: Answer, i: nat)
    requires Reached(cfg, s, job, m, p, i, Probe) && a.ok
    ensures Pulling(cfg, s, job, StepLayer(cfg, m, p, a), p)
  {
    if Live(Final(job.chain[i])) in m.vols {
      assert Missing(s.vols, job.chain, i) == [];
      NothingNew(cfg, s);
      ResumePulls(cfg, s, job, m, StepLayer(cfg, m, p, a), p, i);
    } else {
      assert StepLayer(cfg, m, p, a) == At(m, p, Layer(i, LockLayer));
    }
  }

  lemma LockPulls(cfg: Config, s: State, job: Job, m: State, p: Pid, a: Answer, i: nat)
    requires Reached(cfg, s, job, m, p, i, LockLayer) && a.ok
    ensures Pulling(cfg, s, job, StepLayer(cfg, m, p, a), p)
  {
  }

  lemma ReprobePulls(cfg: Config, s: State, job: Job, m: State, p: Pid, a: Answer, i: nat)
    requires Reached(cfg, s, job, m, p, i, Reprobe) && a.ok
    ensures Pulling(cfg, s, job, StepLayer(cfg, m, p, a), p)
  {
    assert Live(Final(job.chain[i])) !in m.vols;
    var pc := if i == 0 then Layer(0, Download) else Layer(i - 1, Probe);
    assert StepLayer(cfg, m, p, a) == At(m, p, pc);
    if i == 0 {
      NothingNew(cfg, s);
      assert PulledTo(cfg, s, job.chain, At(m, p, pc), 0, Download);
    } else {
      assert PulledTo(cfg, s, job.chain, At(m, p, pc), i - 1, Probe);
    }
  }

  lemma DownloadPulls(cfg: Config, s: State, job: Job, m: State, p: Pid, a: Answer, i: nat)
    requires Reached(cfg, s, job, m, p, i, Download) && a.ok
    ensures Pulling(cfg, s, job, StepLayer(cfg, m, p, a), p)
  {
  }

  lemma TempFills(cfg: Config, s: State, cs: seq<ChainId>, m: State, i: nat, n: nat, t: Tree)
    requires i < |cs| && AbsentFrom(s, cs, i) && Recorded(cfg, s, Missing(s.vols, cs, i - 1), m.metas)
    requires var temp := Live(Temp(cs[i], n)); temp !in s.vols && Grown(s, Missing(s.vols, cs, i - 1), m.vols - {temp})
    ensures Filling(cfg, s, cs, WithTemp(m, cs[i], n, t), i, n)
  {
    GrownButIt(s, Missing(s.vols, cs, i - 1), m.vols, Live(Temp(cs[i], n)), t);
  }

  lemma SetAside(vols: Vols, temp: VolName, t: Tree)
    ensures vols[temp := t] - {temp} == vols - {temp}
  {
  }

  lemma GrownButIt(s: State, cs: seq<ChainId>, vols: Vols, temp: VolName, t: Tree)
    requires temp !in s.vols && Grown(s, cs, vols - {temp})
    ensures GrownBut(s, cs, vols[temp := t], temp)
  {
    SetAside(vols, temp, t);
  }

  lemma FillingPulls(cfg: Config, s: State, job: Job, x: State, p: Pid, i: nat, n: nat, work: LayerPC)
    requires p in x.procs && x.procs[p].job == job && job.Create? && IsChain(job.chain) && i < |job.chain|
    requires Filling(cfg, s, job.chain, x, i, n)
    requires work == ChownTemp(n) || work == BaseDir(n) || work == UnpackTemp(n) || (work.HandleOpaque? && work.n == n)
    ensures Pulling(cfg, s, job, At(x, p, Layer(i, work)), p)
  {
    assert Filling(cfg, s, job.chain, At(x, p, Layer(i, work)), i, n);
  }

  lemma TempPulls(cfg: Config, s: State, job: Job, m: State, p: Pid, i: nat, n: nat, t: Tree, work: LayerPC)
    requires p in m.procs && m.procs[p].job == job && job.Create? && IsChain(job.chain) && i < |job.chain|
    requires AbsentFrom(s, job.chain, i) && Recorded(cfg, s, Missing(s.vols, job.chain, i - 1), m.metas)
    requires var temp := Live(Temp(job.chain[i], n)); temp !in s.vols && Grown(s, Missing(s.vols, job.chain, i - 1), m.vols - {temp})
    requires work == ChownTemp(n) || work == BaseDir(n) || work == UnpackTemp(n) || (work.HandleOpaque? && work.n == n)
    ensures Pulling(cfg, s, job, At(WithTemp(m, job.chain[i], n, t), p, Layer(i, work)), p)
  {
    TempFills(cfg, s, job.chain, m, i, n, t);
    FillingPulls(cfg, s, job, WithTemp(m, job.chain[i], n, t), p, i, n, work);
  }

  lemma CreateTempPulls(cfg: Config, s: State, job: Job, m: State, p: Pid, a: Answer, i: nat)
    requires Reached(cfg, s, job, m, p, i, CreateTemp) && a.ok && Live(Temp(job.chain[i], a.stamp)) !in m.vols
    requires Source(cfg, m.vols, ParentOf(job.chain, i)).Some?
    ensures Pulling(cfg, s, job, StepLayer(cfg, m, p, a), p)
  {
    var temp := Live(Temp(job.chain[i], a.stamp));
    assert m.vols - {temp} == m.vols;
    TempPulls(cfg, s, job, m, p, i, a.stamp, Source(cfg, m.vols, ParentOf(job.chain, i)).value, ChownTemp(a.stamp));
  }

  lemma ChownTempPulls(cfg: Config, s: State, job: Job, m: State, p: Pid, a: Answer, i: nat, n: nat)
    requires Reached(cfg, s, job, m, p, i, ChownTemp(n)) && a.ok
    ensures Pulling(cfg, s, job, StepLayer(cfg, m, p, a), p)
  {
    TempPulls(cfg, s, job, m, p, i, n, ChownRoot(cfg, m.vols[Live(Temp(job.chain[i], n))]), BaseDir(n));
  }

  lemma BaseDirPulls(cfg: Config, s: State, job: Job, m: State, p: Pid, a: Answer, i: nat, n: nat)
    requires Reached(cfg, s, job, m, p, i, BaseDir(n)) && a.ok && Prepared(cfg, job.chain[i]).Some?
    requires LookupTree(m.vols, ParentOf(job.chain, i)) == Below(cfg, job.chain[i])
    ensures Pulling(cfg, s, job, StepLayer(cfg, m, p, a), p)
  {
    var cs, temp := job.chain, Live(Temp(job.chain[i], n));
    var parent := LookupTree(m.vols, ParentOf(cs, i));
    assert parent.Some? && Prepare(cfg, cs[i], m.vols[temp], parent.value) == Prepared(cfg, cs[i]);
    if cfg.baseDirectory(cs[i]).None? {
      assert WithTemp(m, cs[i], n, m.vols[temp]) == m by { assert m.vols[temp := m.vols[temp]] == m.vols; }
      TempPulls(cfg, s, job, m, p, i, n, m.vols[temp], UnpackTemp(n));
    } else {
      TempPulls(cfg, s, job, m, p, i, n, Prepared(cfg, cs[i]).value, UnpackTemp(n));
    }
  }

  lemma UnpackTempPulls(cfg: Config, s: State, job: Job, m: State, p: Pid, a: Answer, i: nat, n: nat)
    requires Reached(cfg, s, job, m, p, i, UnpackTemp(n)) && a.ok && Denote(cfg, job.chain[i]).Some?
    ensures Pulling(cfg, s, job, StepLayer(cfg, m, p, a), p)
  {
    var c := job.chain[i];
    assert cfg.unpack(c, m.vols[Live(Temp(c, n))]) == Denote(cfg, c);
    TempPulls(cfg, s, job, m, p, i, n, Denote(cfg, c).value, HandleOpaque(n, cfg.size(c)));
  }

  lemma HandleOpaquePulls(cfg: Config, s: State, job: Job, m: State, p: Pid, a: Answer, i: nat, n: nat, bytes: nat)
    requires Reached(cfg, s, job, m, p, i, HandleOpaque(n, bytes)) && a.ok
    ensures Pulling(cfg, s, job, StepLayer(cfg, m, p, a), p)
  {
  }

  lemma WriteMetaPulls(cfg: Config, s: State, job: Job, m: State, p: Pid, a: Answer, i: nat, n: nat, bytes: nat)
    requires Reached(cfg, s, job, m, p, i, WriteMeta(n, bytes)) && a.ok
    ensures Pulling(cfg, s, job, StepLayer(cfg, m, p, a), p)
  {
    var below, c := Missing(s.vols, job.chain, i - 1), job.chain[i];
    RecordedOneMore(cfg, s, below, m.metas, c);
  }

  lemma RecordedOneMore(cfg: Config, s: State, cs: seq<ChainId>, metas: Metas, c: ChainId)
    requires Recorded(cfg, s, cs, metas)
    ensures Recorded(cfg, s, cs + [c], metas[Final(c) := Size(cfg.size(c))])
  {
  }

  lemma FinalizePulls(cfg: Config, s: State, job: Job, m: State, p: Pid, a: Answer, i: nat, n: nat)
    requires Reached(cfg, s, job, m, p, i, Finalize(n)) && a.ok && Live(Final(job.chain[i])) !in m.vols
    ensures Pulling(cfg, s, job, StepLayer(cfg, m, p, a), p)
  {
    var c, temp := job.chain[i], Live(Temp(job.chain[i], n));
    var vols := (m.vols - {temp})[Live(Final(c)) := m.vols[temp]];
    assert StepLayer(cfg, m, p, a) == At(m.(vols := vols), p, Layer(i, UnlockLayer));
    GrownOneMore(s, Missing(s.vols, job.chain, i - 1), m.vols - {temp}, c, m.vols[temp]);
  }

  lemma GrownOneMore(s: State, cs: seq<ChainId>, vols: Vols, c: ChainId, t: Tree)
    requires Grown(s, cs, vols) && Live(Final(c)) !in vols
    ensures Grown(s, cs + [c], vols[Live(Final(c)) := t])
  {
  }

  lemma UnlockPulls(cfg: Config, s: State, job: Job, m: State, p: Pid, a: Answer, i: nat)
    requires Reached(cfg, s, job, m, p, i, UnlockLayer)
    ensures Pulling(cfg, s, job, StepLayer(cfg, m, p, a), p)
  {
    AbsentMissing(s, job.chain, i);
    ResumePulls(cfg, s, job, m, StepLayer(cfg, m, p, a), p, i);
  }

  lemma FillPulls(cfg: Config, s: State, job: Job, m: State, p: Pid, a: Answer, i: nat, work: LayerPC)
    requires Reached(cfg, s, job, m, p, i, work) && a.ok && Enabled(m, p, a) && Denote(cfg, job.chain[i]).Some?
    requires work.CreateTemp? || work.ChownTemp? || work.BaseDir? || work.UnpackTemp?
    requires work.CreateTemp? ==> Source(cfg, m.vols, ParentOf(job.chain, i)).Some?
    requires work.BaseDir? ==> LookupTree(m.vols, ParentOf(job.chain, i)) == Below(cfg, job.chain[i])
    ensures Pulling(cfg, s, job, StepLayer(cfg, m, p, a), p)
  {
    assert Prepared(cfg, job.chain[i]).Some?;
    match work {
      case CreateTemp => CreateTempPulls(cfg, s, job, m, p, a, i);
      case ChownTemp(n) => ChownTempPulls(cfg, s, job, m, p, a, i, n);
      case BaseDir(n) => BaseDirPulls(cfg, s, job, m, p, a, i, n);
      case UnpackTemp(n) => UnpackTempPulls(cfg, s, job, m, p, a, i, n);
    }
  }

  lemma GatePulls(cfg: Config, s: State, job: Job, m: State, p: Pid, a: Answer, i: nat, work: LayerPC)
    requires Reached(cfg, s, job, m, p, i, work) && a.ok
    requires !work.CreateTemp? && !work.ChownTemp? && !work.BaseDir? && !work.UnpackTemp?
    requires work.Finalize? ==> Live(Final(job.chain[i])) !in m.vols
    ensures Pulling(cfg, s, job, StepLayer(cfg, m, p, a), p)
  {
    match work {
      case Probe => ProbePulls(cfg, s, job, m, p, a, i);
      case LockLayer => LockPulls(cfg, s, job, m, p, a, i);
      case Reprobe => ReprobePulls(cfg, s, job, m, p, a, i);
      case Download => DownloadPulls(cfg, s, job, m, p, a, i);
      case HandleOpaque(n, bytes) => HandleOpaquePulls(cfg, s, job, m, p, a, i, n, bytes);
      case WriteMeta(n, bytes) => WriteMetaPulls(cfg, s, job, m, p, a, i, n, bytes);
      case Finalize(n) => FinalizePulls(cfg, s, job, m, p, a, i, n);
      case UnlockLayer => UnlockPulls(cfg, s, job, m, p, a, i);
      case _ =>
    }
  }

  /** The layer below is there to build on, and the layer itself is not. */
  lemma BelowThere(cfg: Config, s: State, job: Job, m: State, p: Pid, i: nat, work: LayerPC)
    requires Reached(cfg, s, job, m, p, i, work)
    ensures work.CreateTemp? || work.BaseDir? ==> i > 0 ==> Live(Final(job.chain[i - 1])) in m.vols
    ensures work.Finalize? ==> Live(Final(job.chain[i])) !in m.vols
  {
    var cs := job.chain;
    var below := Missing(s.vols, cs, i - 1);
    MissingBelow(s.vols, cs, i - 1, cs[i]);
    if i > 0 && Live(Final(cs[i - 1])) !in s.vols {
      assert below[|below| - 1] == cs[i - 1];
    }
  }

  lemma StepPulls(cfg: Config, s: State, job: Job, m: State, p: Pid, a: Answer, i: nat, work: LayerPC)
    requires Inv(cfg, iset{}, m) && Pulling(cfg, s, job, m, p) && m.procs[p].pc == Layer(i, work)
    requires Possible(m, Go(p, a)) && a.ok && forall c | c in job.chain :: Denote(cfg, c).Some?
    ensures Pulling(cfg, s, job, Next(cfg, m, Go(p, a)), p)
  {
    assert ProcOk(cfg, iset{}, m, m.procs[p]);
    assert Reached(cfg, s, job, m, p, i, work);
    BelowThere(cfg, s, job, m, p, i, work);
    if work.CreateTemp? || work.ChownTemp? || work.BaseDir? || work.UnpackTemp? {
      if work.CreateTemp? || work.BaseDir? {
        LayerSteps.StartsFrom(cfg, iset{}, m, job.chain, i);
      }
      FillPulls(cfg, s, job, m, p, a, i, work);
    } else {
      GatePulls(cfg, s, job, m, p, a, i, work);
    }
  }

  lemma {:induction false} SoloPulls(cfg: Config, states: seq<State>, events: seq<Event>, p: Pid, job: Job, k: nat)
    requires SoloClean.IsSolo(cfg, states, events, p) && k < |states| && Inv(cfg, iset{}, states[0])
    requires job.Create? && IsChain(job.chain) && forall c | c in job.chain :: Denote(cfg, c).Some?
    requires p in states[0].procs && states[0].procs[p] == Proc(job, Layer(|job.chain| - 1, Probe))
    requires forall i | 0 <= i < k :: p in states[i].procs && states[i].procs[p].pc.Layer?
    ensures Inv(cfg, iset{}, states[k]) && Pulling(cfg, states[0], job, states[k], p)
  {
    if k > 0 {
      SoloPulls(cfg, states, events, p, job, k - 1);
      assert Step(cfg, states[k - 1], events[k - 1], states[k]);
      Safety.StepInv(cfg, iset{}, states[k - 1], events[k - 1], states[k]);
      StepPulls(cfg, states[0], job, states[k - 1], p, events[k - 1].answer, states[k - 1].procs[p].pc.i, states[k - 1].procs[p].pc.work);
    }
  }

  /** A pull by itself, all of whose calls succeed, comes from its first look at the top layer to the image
      with exactly the volumes and metadata added that the puller's own `BuildLayer` is proved to add. */
  lemma SoloPullIsPull(cfg: Config, states: seq<State>, events: seq<Event>, p: Pid, job: Job)
    requires SoloClean.IsSolo(cfg, states, events, p) && Inv(cfg, iset{}, states[0])
    requires job.Create? && IsChain(job.chain) && forall c | c in job.chain :: Denote(cfg, c).Some?
    requires p in states[0].procs && states[0].procs[p] == Proc(job, Layer(|job.chain| - 1, Probe))
    requires forall i | 0 <= i < |events| :: p in states[i].procs && states[i].procs[p].pc.Layer?
    requires p in states[|events|].procs && !states[|events|].procs[p].pc.Layer?
    ensures
      var s, s' := states[0], states[|events|];
      var missing := Missing(s.vols, job.chain, |job.chain| - 1);
      && s'.procs[p].pc == Imaging(MakeImageDir)
      && Adds(cfg, s.vols, missing, s'.vols) && AddsMeta(cfg, s.metas, missing, s'.metas)
  {
    SoloPulls(cfg, states, events, p, job, |events|);
    var s' := states[|events|];
    forall c | Live(Final(c)) in s'.vols ensures Denote(cfg, c) == Some(s'.vols[Live(Final(c))]) {
      assert FinalOk(cfg, iset{}, s', c);
    }
  }
}
