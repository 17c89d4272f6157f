/** Kinds of steps, and what each kind keeps whatever the program points involved. */
module Effects {
  import opened ChainIds
  import opened Names
  import opened Contents
  import opened Protocol
  import opened Invariant

  /** What one step of `p` has to establish for the invariant to survive it. */
  ghost predicate Kept(cfg: Config, trusted: LayerSet, s: State, s': State, p: Pid) {
    && LocksOk(s') && IdsInFlight(s') && CacheOk(cfg, trusted, s') && CommittedOk(cfg, trusted, s')
    && s'.procs.Keys - {p} == s.procs.Keys - {p}
    && (forall q | q in s.procs && q != p :: q in s'.procs && s'.procs[q] == s.procs[q] && Rely(trusted, s, s', s.procs[q]))
    && (p in s'.procs ==> ProcOk(cfg, trusted, s', s'.procs[p]))
    && ((p in s.procs && InExclusive(s.procs[p].pc)) || FinalsStay(trusted, s, s'))
    && (p in s.procs ==> RegisteredStay(trusted, s, s'))
  }

  /** Registrations stay, and so do the volumes of registered chains. */
  ghost predicate RegisteredStay(trusted: LayerSet, s: State, s': State) {
    forall id | id in s.committed ::
      && id in s'.committed && s'.committed[id] == s.committed[id]
      && forall c | c in trusted && c in s.committed[id] && Live(Final(c)) in s.vols ::
           Live(Final(c)) in s'.vols && s'.vols[Live(Final(c))] == s.vols[Live(Final(c))]
  }

  lemma KeptInv(cfg: Config, trusted: LayerSet, s: State, s': State, p: Pid)
    requires Inv(cfg, trusted, s) && Kept(cfg, trusted, s, s', p)
    ensures Inv(cfg, trusted, s')
  {
    forall q | q in s'.procs ensures ProcOk(cfg, trusted, s', s'.procs[q]) {
      if q != p {
        assert q in s'.procs.Keys - {p};
        Stable(cfg, trusted, s, s', s.procs[q]);
      }
    }
  }

  // ----- lock bookkeeping

  lemma OneHolder(s: State, p: Pid, q: Pid, c: ChainId)
    requires LocksOk(s) && p in s.procs && q in s.procs
    requires HoldsLayer(s.procs[p], c) && HoldsLayer(s.procs[q], c)
    ensures p == q
  {
    assert Holder(s, c, p) && Holder(s, c, q);
  }

  /** Only `p` moves, to `pc`. */
  predicate Moves(s: State, s': State, p: Pid, pc: PC) {
    && p in s.procs && Fits(s.procs[p]) && Fits(s.procs[p].(pc := pc))
    && s'.procs == s.procs[p := s.procs[p].(pc := pc)]
  }

  lemma MovesIds(s: State, s': State, p: Pid, pc: PC)
    requires FitsOk(s) && IdsInFlight(s) && Moves(s, s', p, pc)
    ensures FitsOk(s') && IdsInFlight(s')
  {
  }

  /** The same global lock before and after. */
  lemma MovesGlobal(s: State, s': State, p: Pid, pc: PC)
    requires GlobalOk(s) && Moves(s, s', p, pc)
    requires s'.flocks.shared == s.flocks.shared && s'.flocks.exclusive == s.flocks.exclusive
    requires InShared(pc) == InShared(s.procs[p].pc) && InExclusive(pc) == InExclusive(s.procs[p].pc)
    ensures GlobalOk(s')
  {
  }

  lemma MovesLayers(s: State, s': State, p: Pid, pc: PC)
    requires LayersOk(s) && Moves(s, s', p, pc)
    requires s'.flocks.layers == s.flocks.layers
    requires s.procs[p].job.Create? ==> HeldFrom(s.procs[p].(pc := pc)) == HeldFrom(s.procs[p])
    ensures LayersOk(s')
  {
    forall q, c ensures Holder(s', c, q) <==> Holder(s, c, q) {
    }
  }

  lemma HoldsAt(proc: Proc, j: nat)
    requires Fits(proc) && proc.job.Create? && j < |proc.job.chain|
    ensures HoldsLayer(proc, proc.job.chain[j]) <==> HeldFrom(proc) <= j
  {
  }

  lemma HoldsOneMore(proc: Proc, proc': Proc, d: ChainId)
    requires Fits(proc) && Fits(proc') && proc.job.Create? && proc'.job == proc.job
    requires HeldFrom(proc) == HeldFrom(proc') + 1 && HeldFrom(proc') < |proc.job.chain|
    ensures HoldsLayer(proc', d) <==> HoldsLayer(proc, d) || d == proc.job.chain[HeldFrom(proc')]
    ensures !HoldsLayer(proc, proc.job.chain[HeldFrom(proc')])
  {
  }

  /** `p` takes the lock of the next layer down. */
  lemma TakesLayer(s: State, s': State, p: Pid, pc: PC)
    requires LayersOk(s) && Moves(s, s', p, pc) && s.procs[p].job.Create?
    requires HeldFrom(s.procs[p]) == HeldFrom(s.procs[p].(pc := pc)) + 1 && HeldFrom(s.procs[p].(pc := pc)) < |s.procs[p].job.chain|
    requires s.procs[p].job.chain[HeldFrom(s.procs[p].(pc := pc))] !in s.flocks.layers
    requires s'.flocks.layers == s.flocks.layers[s.procs[p].job.chain[HeldFrom(s.procs[p].(pc := pc))] := p]
    ensures LayersOk(s')
  {
    var proc, proc' := s.procs[p], s.procs[p].(pc := pc);
    var c := proc.job.chain[HeldFrom(proc')];
    forall q, d ensures Holder(s', d, q) <==> Holder(s, d, q) || (d == c && q == p) {
      HoldsOneMore(proc, proc', d);
    }
  }

  /** `p` drops the lock of the lowest layer it holds. */
  lemma DropsLayer(s: State, s': State, p: Pid, pc: PC)
    requires LayersOk(s) && Moves(s, s', p, pc) && s.procs[p].job.Create?
    requires HeldFrom(s.procs[p].(pc := pc)) == HeldFrom(s.procs[p]) + 1 && HeldFrom(s.procs[p]) < |s.procs[p].job.chain|
    requires s'.flocks.layers == s.flocks.layers - {s.procs[p].job.chain[HeldFrom(s.procs[p])]}
    ensures LayersOk(s')
  {
    var proc, proc' := s.procs[p], s.procs[p].(pc := pc);
    var c := proc.job.chain[HeldFrom(proc)];
    forall q, d ensures Holder(s', d, q) <==> Holder(s, d, q) && d != c {
      HoldsOneMore(proc', proc, d);
      HoldsOneMore(proc', proc, c);
      if d == c && Holder(s, d, q) {
        assert Holder(s, c, p);
      }
    }
  }

  // ----- effects on the store

  predicate SameStore(s: State, s': State) {
    && s'.vols == s.vols && s'.metas == s.metas && s'.images == s.images
    && s'.records == s.records && s'.committed == s.committed
  }

  predicate Mine(v: VolName, c: ChainId) {
    v.Live? && v.id.chain == c
  }

  /** Only live names of one layer change, and its final volume is not removed or altered. */
  ghost predicate Touches(trusted: LayerSet, s: State, s': State, c: ChainId) {
    && (forall v | !Mine(v, c) :: (v in s'.vols <==> v in s.vols) && (v in s.vols ==> s'.vols[v] == s.vols[v]))
    && (c in trusted && Live(Final(c)) in s.vols ==> Live(Final(c)) in s'.vols && s'.vols[Live(Final(c))] == s.vols[Live(Final(c))])
    && (forall id | id != Final(c) :: (id in s'.metas <==> id in s.metas) && (id in s.metas ==> s'.metas[id] == s.metas[id]))
    && s'.images == s.images && s'.records == s.records && s'.committed == s.committed
  }

  lemma SameStoreKeeps(cfg: Config, trusted: LayerSet, s: State, s': State)
    requires CacheOk(cfg, trusted, s) && CommittedOk(cfg, trusted, s) && SameStore(s, s')
    ensures CacheOk(cfg, trusted, s') && CommittedOk(cfg, trusted, s')
    ensures forall proc :: Rely(trusted, s, s', proc)
  {
    forall c ensures FinalOk(cfg, trusted, s', c) {
      assert FinalOk(cfg, trusted, s, c);
    }
  }

  lemma TouchKeeps(cfg: Config, trusted: LayerSet, s: State, s': State, p: Pid, c: ChainId)
    requires LocksOk(s) && CacheOk(cfg, trusted, s) && CommittedOk(cfg, trusted, s)
    requires p in s.procs && HoldsLayer(s.procs[p], c)
    requires Touches(trusted, s, s', c) && FinalOk(cfg, trusted, s', c)
    ensures CacheOk(cfg, trusted, s') && CommittedOk(cfg, trusted, s')
    ensures forall q | q in s.procs && q != p :: Rely(trusted, s, s', s.procs[q])
    ensures FinalsStay(trusted, s, s')
  {
    forall d ensures FinalOk(cfg, trusted, s', d) {
      assert FinalOk(cfg, trusted, s, d);
      assert d != c ==> !Mine(Live(Final(d)), c);
    }
    forall d | d in trusted && Live(Final(d)) in s.vols
      ensures Live(Final(d)) in s'.vols && s'.vols[Live(Final(d))] == s.vols[Live(Final(d))]
    {
      assert d != c ==> !Mine(Live(Final(d)), c);
    }
    forall q | q in s.procs && q != p ensures Rely(trusted, s, s', s.procs[q]) {
      forall d | HoldsLayer(s.procs[q], d) ensures SameLayer(s, s', d) && SameTemps(s, s', d) {
        if d == c {
          OneHolder(s, p, q, c);
        }
        assert !Mine(Live(Final(d)), c);
        assert forall n :: !Mine(Live(Temp(d, n)), c);
      }
    }
  }

  // ----- whole steps

  predicate SamePosture(proc: Proc, pc: PC)
    requires Fits(proc) && Fits(proc.(pc := pc))
  {
    && InShared(pc) == InShared(proc.pc)
    && InExclusive(pc) == InExclusive(proc.pc)
    && (proc.job.Create? ==> HeldFrom(proc.(pc := pc)) == HeldFrom(proc))
  }

  /** A step that touches neither store nor locks. */
  lemma PlainMove(cfg: Config, trusted: LayerSet, s: State, p: Pid, pc: PC)
    requires Inv(cfg, trusted, s) && p in s.procs
    requires Fits(s.procs[p].(pc := pc)) && SamePosture(s.procs[p], pc)
    requires ProcOk(cfg, trusted, At(s, p, pc), s.procs[p].(pc := pc))
    ensures Kept(cfg, trusted, s, At(s, p, pc), p)
  {
    var s' := At(s, p, pc);
    SameLocks(s, s', p, pc);
    SameStoreKeeps(cfg, trusted, s, s');
  }

  /** A step on the volumes of a layer the process has locked. */
  lemma TouchMove(cfg: Config, trusted: LayerSet, s: State, s': State, p: Pid, pc: PC, c: ChainId)
    requires Inv(cfg, trusted, s) && Moves(s, s', p, pc) && SamePosture(s.procs[p], pc)
    requires s'.flocks == s.flocks
    requires HoldsLayer(s.procs[p], c) && Touches(trusted, s, s', c) && FinalOk(cfg, trusted, s', c)
    requires ProcOk(cfg, trusted, s', s.procs[p].(pc := pc))
    ensures Kept(cfg, trusted, s, s', p)
  {
    SameLocks(s, s', p, pc);
    TouchKeeps(cfg, trusted, s, s', p, c);
  }

  /** A step on the lock table only. */
  lemma LockMove(cfg: Config, trusted: LayerSet, s: State, s': State, p: Pid, pc: PC)
    requires Inv(cfg, trusted, s) && Moves(s, s', p, pc) && SameStore(s, s')
    requires GlobalOk(s') && LayersOk(s')
    requires ProcOk(cfg, trusted, s', s.procs[p].(pc := pc))
    ensures Kept(cfg, trusted, s, s', p)
  {
    MovesIds(s, s', p, pc);
    SameStoreKeeps(cfg, trusted, s, s');
  }

  /** `p` ends, holding no lock. */
  lemma Leaves(s: State, s': State, p: Pid)
    requires LocksOk(s) && IdsInFlight(s) && p in s.procs
    requires !InShared(s.procs[p].pc) && !InExclusive(s.procs[p].pc)
    requires s'.flocks == s.flocks && s'.procs == s.procs - {p}
    ensures LocksOk(s') && IdsInFlight(s')
  {
    assert forall q | q in s'.procs :: q in s.procs && s'.procs[q] == s.procs[q];
    forall q, c ensures Holder(s', c, q) <==> Holder(s, c, q) {
      HoldsNothing(s.procs[p], c);
    }
  }

  lemma HoldsNothing(proc: Proc, c: ChainId)
    requires !proc.pc.Layer?
    ensures !HoldsLayer(proc, c)
  {
  }

  lemma SameLocks(s: State, s': State, p: Pid, pc: PC)
    requires LocksOk(s) && IdsInFlight(s) && Moves(s, s', p, pc) && SamePosture(s.procs[p], pc)
    requires s'.flocks == s.flocks
    ensures LocksOk(s') && IdsInFlight(s')
  {
    MovesIds(s, s', p, pc);
    MovesGlobal(s, s', p, pc);
    MovesLayers(s, s', p, pc);
  }

  lemma EndedKept(cfg: Config, trusted: LayerSet, s: State, p: Pid)
    requires Inv(cfg, trusted, s) && p in s.procs
    requires !InShared(s.procs[p].pc) && !InExclusive(s.procs[p].pc)
    ensures Kept(cfg, trusted, s, Ended(s, p), p)
  {
    Leaves(s, Ended(s, p), p);
    SameStoreKeeps(cfg, trusted, s, Ended(s, p));
  }
}
