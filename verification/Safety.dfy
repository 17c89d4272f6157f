/** What the protocol guarantees over whole runs. */
module Safety {
  import opened Options
  import opened ChainIds
  import opened Names
  import opened Contents
  import opened Volumes
  import opened Protocol
  import opened Invariant
  import opened Effects
  import LayerSteps
  import CleanSteps
  import ImageSteps

  lemma EventKept(cfg: Config, trusted: LayerSet, s: State, e: Event)
    requires Inv(cfg, trusted, s) && Possible(s, e) && Sound(trusted, s, e)
    ensures Kept(cfg, trusted, s, Next(cfg, s, e), e.p)
  {
    match e {
      case Spawn(p, job) => ImageSteps.SpawnKept(cfg, trusted, s, p, job);
      case Crash(p) => ImageSteps.CrashKept(cfg, trusted, s, p);
      case Go(p, a) =>
        match s.procs[p].pc {
          case Cleaning(_) => CleanSteps.CleanKept(cfg, trusted, s, p, a);
          case Layer(_, _) => LayerSteps.LayerKept(cfg, trusted, s, p, a);
          case Imaging(_) => ImageSteps.ImageKept(cfg, trusted, s, p, a);
          case Deleting(_) => ImageSteps.DeleteKept(cfg, trusted, s, p, a);
          case _ => ImageSteps.EdgeKept(cfg, trusted, s, p, a);
        }
    }
  }

  /** Every step of every process, every arrival and every crash keeps the invariant, for the layers to which
      no second existence check is answered wrongly. */
  lemma StepInv(cfg: Config, trusted: LayerSet, s: State, e: Event, s': State)
    requires Inv(cfg, trusted, s) && Step(cfg, s, e, s') && Sound(trusted, s, e)
    ensures Inv(cfg, trusted, s')
  {
    EventKept(cfg, trusted, s, e);
    KeptInv(cfg, trusted, s, s', e.p);
  }

  /** Up to `k`, no second existence check has called the layer's volume absent when it was there. */
  ghost predicate NeverErred(states: seq<State>, events: seq<Event>, k: nat, c: ChainId)
    requires k <= |states| && k <= |events|
  {
    forall i | 0 <= i < k :: !Errs(states[i], events[i], c)
  }

  /** At every moment of every run, the invariant holds for the layers whose checks have never erred; the parts
      of it that concern locks and contents depend on none. */
  lemma {:induction false} RunInv(cfg: Config, trusted: LayerSet, states: seq<State>, events: seq<Event>, k: nat)
    requires IsRun(cfg, states, events) && k < |states|
    requires forall c | c in trusted :: NeverErred(states, events, k, c)
    ensures Inv(cfg, trusted, states[k])
  {
    if k > 0 {
      forall c | c in trusted ensures NeverErred(states, events, k - 1, c) && !Errs(states[k - 1], events[k - 1], c) {
        assert NeverErred(states, events, k, c);
      }
      RunInv(cfg, trusted, states, events, k - 1);
      assert StepAt(cfg, states, events, k - 1);
      StepInv(cfg, trusted, states[k - 1], events[k - 1], states[k]);
    }
  }

  /** Of every run whatever. */
  lemma AnyRunInv(cfg: Config, states: seq<State>, events: seq<Event>, k: nat)
    requires IsRun(cfg, states, events) && k < |states|
    ensures Inv(cfg, iset{}, states[k])
  {
    RunInv(cfg, iset{}, states, events, k);
  }

  /** Cache correctness: at every moment of every run, a volume under a chain ID holds exactly the
      sequential application of that chain's layers, and, unless a second check of that layer has erred, a
      metadata file beside it gives the bytes of its own layer. Partial results live under other names. */
  lemma CacheCorrect(cfg: Config, states: seq<State>, events: seq<Event>, k: nat, c: ChainId)
    requires IsRun(cfg, states, events) && k < |states|
    requires Live(Final(c)) in states[k].vols
    ensures Denote(cfg, c) == Some(states[k].vols[Live(Final(c))])
    ensures NeverErred(states, events, k, c) && Final(c) in states[k].metas ==> states[k].metas[Final(c)] == Size(cfg.size(c))
  {
    var trusted := if NeverErred(states, events, k, c) then iset{c} else iset{};
    RunInv(cfg, trusted, states, events, k);
    assert FinalOk(cfg, trusted, states[k], c);
  }

  // ----- garbage collection

  /** Only the start of a Delete of the image ends its registration; until then no step of anyone removes
      or alters a volume of its chain. */
  lemma RegistrationStays(cfg: Config, trusted: LayerSet, s: State, e: Event, s': State, id: ImageId)
    requires Inv(cfg, trusted, s) && Step(cfg, s, e, s') && Sound(trusted, s, e)
    requires id in s.committed
    ensures id in s'.committed <==> !(e.Spawn? && e.job.Delete? && e.job.id == id)
    ensures id in s'.committed ==> s'.committed[id] == s.committed[id]
    ensures forall c | c in trusted && c in s.committed[id] && Live(Final(c)) in s.vols ::
      Live(Final(c)) in s'.vols && s'.vols[Live(Final(c))] == s.vols[Live(Final(c))]
  {
    EventKept(cfg, trusted, s, e);
  }

  /** GC safety: as long as no Delete of a registered image starts, it stays registered, and every volume of
      its chain that is there stays there, unchanged, whatever cleans, creates, deletes, failures and crashes
      go on; one wrong second check endangers the layer it is about, and no other. */
  lemma {:induction false} RegisteredVolumesSafe(cfg: Config, states: seq<State>, events: seq<Event>, j: nat, k: nat, id: ImageId, c: ChainId)
    requires IsRun(cfg, states, events) && j <= k < |states|
    requires id in states[j].committed
    requires forall i | j <= i < k && events[i].Spawn? && events[i].job.Delete? :: events[i].job.id != id
    ensures id in states[k].committed && states[k].committed[id] == states[j].committed[id]
    ensures NeverErred(states, events, k, c) && c in states[j].committed[id] && Live(Final(c)) in states[j].vols ==>
      Live(Final(c)) in states[k].vols && states[k].vols[Live(Final(c))] == states[j].vols[Live(Final(c))]
    decreases k
  {
    if j < k {
      RegisteredVolumesSafe(cfg, states, events, j, k - 1, id, c);
      RegistrationStaysInRun(cfg, states, events, k - 1, id, c);
    }
  }

  lemma RegistrationStaysInRun(cfg: Config, states: seq<State>, events: seq<Event>, k: nat, id: ImageId, c: ChainId)
    requires IsRun(cfg, states, events) && k < |events|
    requires id in states[k].committed
    requires !(events[k].Spawn? && events[k].job.Delete? && events[k].job.id == id)
    ensures id in states[k + 1].committed && states[k + 1].committed[id] == states[k].committed[id]
    ensures NeverErred(states, events, k + 1, c) && c in states[k].committed[id] && Live(Final(c)) in states[k].vols ==>
      Live(Final(c)) in states[k + 1].vols && states[k + 1].vols[Live(Final(c))] == states[k].vols[Live(Final(c))]
  {
    var trusted := if NeverErred(states, events, k + 1, c) then iset{c} else iset{};
    RunInv(cfg, trusted, states, events, k);
    assert StepAt(cfg, states, events, k);
    RegistrationStays(cfg, trusted, states[k], events[k], states[k + 1], id);
  }

  /** A registered image always has its directory, its complete record, and a snapshot that is the full
      application of its layers; and its top volume, if no second check of that has erred. */
  lemma RegisteredImageIntact(cfg: Config, states: seq<State>, events: seq<Event>, k: nat, id: ImageId)
    requires IsRun(cfg, states, events) && k < |states| && id in states[k].committed
    ensures
      var s, chain := states[k], states[k].committed[id];
      && IsChain(chain)
      && id in s.images && s.images[id].root.Some? && s.images[id].root == Denote(cfg, chain[|chain| - 1])
      && id in s.records && s.records[id] == Complete(chain)
      && (NeverErred(states, events, k, chain[|chain| - 1]) ==> Live(Final(chain[|chain| - 1])) in s.vols)
  {
    AnyRunInv(cfg, states, events, k);
    var top := states[k].committed[id][|states[k].committed[id]| - 1];
    var trusted := if NeverErred(states, events, k, top) then iset{top} else iset{};
    RunInv(cfg, trusted, states, events, k);
    assert ImageOk(cfg, trusted, states[k], id, states[k].committed[id]);
  }

  /** A clean that is about to rename a volume has seen a complete record for every image there is, and
      the volume is in none of them, nor among the chains to preserve: one image without a record and
      nothing is marked. */
  lemma MarkingSparesEveryImage(cfg: Config, states: seq<State>, events: seq<Event>, k: nat, p: Pid, v: VolumeId, id: ImageId)
    requires IsRun(cfg, states, events) && k < |states|
    requires p in states[k].procs && states[k].procs[p].pc.Cleaning? && states[k].procs[p].pc.clean.Mark?
    requires v in states[k].procs[p].pc.clean.todo
    ensures
      match states[k].procs[p].job
      case Create(_, chain, _) => forall c | c in chain :: v != Final(c)
      case Clean(preserve) => forall c | c in preserve :: v != Final(c)
      case Delete(_) => true
    ensures id in states[k].images ==>
      && id in states[k].records && states[k].records[id].Complete?
      && v !in Finals(states[k].records[id].chain)
  {
    AnyRunInv(cfg, states, events, k);
    assert ProcOk(cfg, iset{}, states[k], states[k].procs[p]);
  }

  // ----- pulling

  /** While a Create is inside the shared section, no finished volume of a trusted layer goes away or changes. */
  lemma SharedSectionPinsVolumes(cfg: Config, trusted: LayerSet, s: State, e: Event, s': State, p: Pid)
    requires Inv(cfg, trusted, s) && Step(cfg, s, e, s') && Sound(trusted, s, e)
    requires p in s.procs && InShared(s.procs[p].pc)
    ensures FinalsStay(trusted, s, s')
  {
    EventKept(cfg, trusted, s, e);
    assert p in s.flocks.shared;
    if e.p in s.procs && InExclusive(s.procs[e.p].pc) {
      assert s.flocks.exclusive == Some(e.p);
    }
  }

  /** Process `p` is at this point of its work on chain `c`. */
  predicate WorksOn(s: State, p: Pid, c: ChainId, work: LayerPC) {
    && p in s.procs && Fits(s.procs[p]) && s.procs[p].pc.Layer?
    && s.procs[p].job.chain[s.procs[p].pc.i] == c && s.procs[p].pc.work == work
  }

  /** Process `p` is at this point of making image `id` from the layers up to `top`. */
  predicate MakesImage(s: State, p: Pid, id: ImageId, top: ChainId, pc: ImagePC) {
    && p in s.procs && Fits(s.procs[p]) && s.procs[p].pc == Imaging(pc)
    && s.procs[p].job.id == id && s.procs[p].job.chain[|s.procs[p].job.chain| - 1] == top
  }

  /** Pull stability: from the moment Pull has returned, the top volume is there with the full
      application of the layers, whatever ancestors are missing, unless a second check of it has erred; a
      snapshot that was taken is that application in any case. */
  lemma PulledTopStands(cfg: Config, states: seq<State>, events: seq<Event>, k: nat, p: Pid, id: ImageId, top: ChainId, pc: ImagePC)
    requires IsRun(cfg, states, events) && k < |states|
    requires MakesImage(states[k], p, id, top, pc) && !pc.DropImage?
    ensures
      var s := states[k];
      && (NeverErred(states, events, k, top) ==> Live(Final(top)) in s.vols && Denote(cfg, top) == Some(s.vols[Live(Final(top))]))
      && (pc.FinishImage? || pc.OpenRecord? || pc.WriteRecord? ==> id in s.images && s.images[id].root == Denote(cfg, top))
  {
    var trusted := if NeverErred(states, events, k, top) then iset{top} else iset{};
    RunInv(cfg, trusted, states, events, k);
    assert ProcOk(cfg, trusted, states[k], states[k].procs[p]);
    assert FinalOk(cfg, trusted, states[k], top);
  }

  // ----- one builder at a time

  predicate Building(work: LayerPC) {
    !work.Probe? && !work.LockLayer? && !work.Reprobe? && !work.UnlockLayer? && !work.Unwind?
  }

  /** Between the second check and the unlock, the builder of a layer is alone with its final name: no other
      process can create it, and it is absent, if the checks of the layer have not erred, so that the rename
      cannot find it taken and the failure branch cannot remove it. */
  lemma SingleBuilder(cfg: Config, states: seq<State>, events: seq<Event>, k: nat, p: Pid, c: ChainId, work: LayerPC)
    requires IsRun(cfg, states, events) && k < |states|
    requires WorksOn(states[k], p, c, work) && Building(work)
    ensures NeverErred(states, events, k, c) ==> Live(Final(c)) !in states[k].vols
    ensures c in states[k].flocks.layers && states[k].flocks.layers[c] == p
    ensures forall q, other | WorksOn(states[k], q, c, other) && q != p :: other.Probe? || other.LockLayer?
    ensures work.Finalize? ==> Holds(states[k].vols, Live(Temp(c, work.n)), Denote(cfg, c))
  {
    var trusted := if NeverErred(states, events, k, c) then iset{c} else iset{};
    RunInv(cfg, trusted, states, events, k);
    var s := states[k];
    assert ProcOk(cfg, trusted, s, s.procs[p]);
    LayerHolder(s, p, c, work);
    forall q, other | WorksOn(s, q, c, other) && q != p ensures other.Probe? || other.LockLayer? {
      LayerHolder(s, q, c, other);
    }
  }

  lemma LayerHolder(s: State, p: Pid, c: ChainId, work: LayerPC)
    requires LocksOk(s) && WorksOn(s, p, c, work)
    ensures work.Probe? || work.LockLayer? || (c in s.flocks.layers && s.flocks.layers[c] == p)
  {
    HoldsAt(s.procs[p], s.procs[p].pc.i);
    assert HeldFrom(s.procs[p]) <= s.procs[p].pc.i ==> Holder(s, c, p);
  }
}
