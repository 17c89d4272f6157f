/** Clean's steps keep the invariant. */
module CleanSteps {
  import opened Options
  import opened Names
  import opened Contents
  import opened Volumes
  import opened Protocol
  import opened Invariant
  import opened Effects

  ghost predicate AtClean(cfg: Config, trusted: LayerSet, s: State, p: Pid, pc: CleanPC) {
    Inv(cfg, trusted, s) && p in s.procs && s.procs[p].pc == Cleaning(pc)
  }

  lemma CleanFacts(cfg: Config, trusted: LayerSet, s: State, p: Pid, pc: CleanPC)
    requires AtClean(cfg, trusted, s, p, pc)
    ensures Fits(s.procs[p]) && CleaningOk(s, s.procs[p].job.Preserved(), pc)
    ensures !s.procs[p].job.Clean? ==> s.procs[p].job.id !in s.committed
  {
  }

  predicate Outside(pc: CleanPC) {
    !InExclusive(Cleaning(pc))
  }

  lemma CleanOnward(cfg: Config, trusted: LayerSet, s: State, p: Pid, pc: CleanPC, pc': CleanPC)
    requires AtClean(cfg, trusted, s, p, pc) && Outside(pc) == Outside(pc')
    requires CleaningOk(s, s.procs[p].job.Preserved(), pc')
    ensures Kept(cfg, trusted, s, ToClean(s, p, pc'), p)
  {
    CleanFacts(cfg, trusted, s, p, pc);
    PlainMove(cfg, trusted, s, p, Cleaning(pc'));
  }

  lemma AfterCleanKept(cfg: Config, trusted: LayerSet, s: State, p: Pid, pc: CleanPC, good: bool)
    requires AtClean(cfg, trusted, s, p, pc) && Outside(pc)
    ensures Kept(cfg, trusted, s, AfterClean(s, p, good), p)
  {
    CleanFacts(cfg, trusted, s, p, pc);
    if s.procs[p].job.Create? && good {
      PlainMove(cfg, trusted, s, p, LockShared);
    } else {
      EndedKept(cfg, trusted, s, p);
    }
  }

  lemma ExclusiveStep(cfg: Config, trusted: LayerSet, s: State, p: Pid, a: Answer, pc: CleanPC)
    requires AtClean(cfg, trusted, s, p, pc) && Fits(s.procs[p]) && Enabled(s, p, a)
    requires (pc.LockExclusive? && a.ok) || pc.UnlockExclusive?
    ensures Kept(cfg, trusted, s, StepClean(s, p, a), p)
  {
    CleanFacts(cfg, trusted, s, p, pc);
    var s' := StepClean(s, p, a);
    var pc' := Cleaning(if pc.LockExclusive? then ListVolumes else ListCondemned);
    assert Moves(s, s', p, pc');
    assert GlobalOk(s') by {
      assert GlobalOk(s);
      assert forall q | q in s.procs && q != p :: s'.procs[q] == s.procs[q];
    }
    MovesLayers(s, s', p, pc');
    LockMove(cfg, trusted, s, s', p, pc');
  }

  lemma ReadRecordsStep(cfg: Config, trusted: LayerSet, s: State, p: Pid, a: Answer, orphans: set<VolumeId>, ids: set<ImageId>)
    requires AtClean(cfg, trusted, s, p, ReadRecords(orphans, ids)) && Fits(s.procs[p]) && Enabled(s, p, a)
    ensures Kept(cfg, trusted, s, StepClean(s, p, a), p)
  {
    CleanFacts(cfg, trusted, s, p, ReadRecords(orphans, ids));
    if ids == {} {
      CleanOnward(cfg, trusted, s, p, ReadRecords(orphans, ids), Mark(orphans - Finals(s.procs[p].job.Preserved())));
    } else if a.ok && a.image in s.records && s.records[a.image].Complete? {
      CleanOnward(cfg, trusted, s, p, ReadRecords(orphans, ids), ReadRecords(orphans - Finals(s.records[a.image].chain), ids - {a.image}));
    } else {
      CleanOnward(cfg, trusted, s, p, ReadRecords(orphans, ids), Mark({}));
    }
  }

  /** Clean may take away unneeded volumes, condemned volumes and metadata; nothing else changes. */
  ghost predicate Sweeps(s: State, s': State) {
    && (forall v: VolName | v.Live? && v in s'.vols :: v in s.vols && s'.vols[v] == s.vols[v])
    && (forall id | id in s'.metas :: id in s.metas && s'.metas[id] == s.metas[id])
    && s'.images == s.images && s'.records == s.records && s'.committed == s.committed
    && (forall id, c | id in s.committed && c in s.committed[id] && Live(Final(c)) in s.vols :: Live(Final(c)) in s'.vols)
  }

  lemma SweepKeeps(cfg: Config, trusted: LayerSet, s: State, s': State)
    requires CacheOk(cfg, trusted, s) && CommittedOk(cfg, trusted, s) && Sweeps(s, s')
    ensures CacheOk(cfg, trusted, s') && CommittedOk(cfg, trusted, s')
  {
    forall c ensures FinalOk(cfg, trusted, s', c) {
      assert FinalOk(cfg, trusted, s, c);
    }
    forall id | id in s'.committed ensures ImageOk(cfg, trusted, s', id, s'.committed[id]) {
      assert ImageOk(cfg, trusted, s, id, s.committed[id]);
      assert s.committed[id][|s.committed[id]| - 1] in s.committed[id];
    }
  }

  /** A sweep disturbs neither those outside the shared section, nor, if all live volumes stay, anyone. */
  lemma SweepUnnoticed(trusted: LayerSet, s: State, s': State, proc: Proc)
    requires Sweeps(s, s')
    requires !InShared(proc.pc) || forall v: VolName | v.Live? && v in s.vols :: v in s'.vols
    ensures Rely(trusted, s, s', proc)
  {
  }

  lemma SweepMove(cfg: Config, trusted: LayerSet, s: State, s': State, p: Pid, pc: CleanPC, pc': CleanPC)
    requires AtClean(cfg, trusted, s, p, pc) && Outside(pc) == Outside(pc')
    requires Sweeps(s, s') && s'.flocks == s.flocks && s'.procs == s.procs[p := s.procs[p].(pc := Cleaning(pc'))]
    requires CleaningOk(s', s.procs[p].job.Preserved(), pc')
    requires InExclusive(Cleaning(pc)) || forall v: VolName | v.Live? && v in s.vols :: v in s'.vols
    ensures Kept(cfg, trusted, s, s', p)
  {
    CleanFacts(cfg, trusted, s, p, pc);
    SameLocks(s, s', p, Cleaning(pc'));
    SweepKeeps(cfg, trusted, s, s');
    forall q | q in s.procs && q != p ensures Rely(trusted, s, s', s.procs[q]) {
      if InExclusive(Cleaning(pc)) {
        assert s.flocks.exclusive == Some(p);
      }
      SweepUnnoticed(trusted, s, s', s.procs[q]);
    }
  }

  lemma MarkStep(cfg: Config, trusted: LayerSet, s: State, p: Pid, a: Answer, todo: set<VolumeId>)
    requires AtClean(cfg, trusted, s, p, Mark(todo)) && Fits(s.procs[p]) && Enabled(s, p, a)
    requires todo != {}
    ensures Kept(cfg, trusted, s, StepClean(s, p, a), p)
  {
    CleanFacts(cfg, trusted, s, p, Mark(todo));
    var rest := Mark(todo - {a.volume});
    var s' := StepClean(s, p, a);
    assert CleaningOk(s', s.procs[p].job.Preserved(), rest);
    forall id, c | id in s.committed && c in s.committed[id] && Live(Final(c)) in s.vols
      ensures Live(Final(c)) in s'.vols
    {
      assert ImageOk(cfg, trusted, s, id, s.committed[id]) && Spared(s, id, todo);
      assert Final(c) in Finals(s.committed[id]);
    }
    SweepMove(cfg, trusted, s, s', p, Mark(todo), rest);
  }

  /** Removing condemned volumes and metadata files disturbs no one. */
  lemma CollectMove(cfg: Config, trusted: LayerSet, s: State, p: Pid, vols: Vols, metas: Metas, pc: CleanPC, pc': CleanPC)
    requires AtClean(cfg, trusted, s, p, pc) && Outside(pc) && Outside(pc')
    requires forall v: VolName | v.Live? :: (v in vols <==> v in s.vols) && (v in vols ==> vols[v] == s.vols[v])
    requires forall id | id in metas :: id in s.metas && metas[id] == s.metas[id]
    ensures Kept(cfg, trusted, s, ToClean(s.(vols := vols, metas := metas), p, pc'), p)
  {
    var s' := ToClean(s.(vols := vols, metas := metas), p, pc');
    SweepMove(cfg, trusted, s, s', p, pc, pc');
  }

  lemma ScanKept(cfg: Config, trusted: LayerSet, s: State, p: Pid, a: Answer, pc: CleanPC)
    requires AtClean(cfg, trusted, s, p, pc) && Fits(s.procs[p]) && Enabled(s, p, a)
    requires !Outside(pc)
    ensures Kept(cfg, trusted, s, StepClean(s, p, a), p)
  {
    CleanFacts(cfg, trusted, s, p, pc);
    match pc {
      case ListVolumes =>
        CleanOnward(cfg, trusted, s, p, pc, if a.ok then ListImages(set v | v in s.vols && v.Live? :: v.id) else Mark({}));
      case ListImages(orphans) =>
        CleanOnward(cfg, trusted, s, p, pc, if a.ok then ReadRecords(orphans, s.images.Keys) else Mark({}));
      case ReadRecords(orphans, ids) => ReadRecordsStep(cfg, trusted, s, p, a, orphans, ids);
      case Mark(todo) =>
        if todo == {} { CleanOnward(cfg, trusted, s, p, pc, UnlockExclusive); } else { MarkStep(cfg, trusted, s, p, a, todo); }
      case UnlockExclusive => ExclusiveStep(cfg, trusted, s, p, a, pc);
    }
  }

  lemma OutsideKept(cfg: Config, trusted: LayerSet, s: State, p: Pid, a: Answer, pc: CleanPC)
    requires AtClean(cfg, trusted, s, p, pc) && Fits(s.procs[p]) && Enabled(s, p, a)
    requires Outside(pc)
    ensures Kept(cfg, trusted, s, StepClean(s, p, a), p)
  {
    CleanFacts(cfg, trusted, s, p, pc);
    match pc {
      case Measure =>
        if a.ok && !a.alt { CleanOnward(cfg, trusted, s, p, pc, LockExclusive); } else { AfterCleanKept(cfg, trusted, s, p, pc, a.ok); }
      case LockExclusive =>
        if a.ok { ExclusiveStep(cfg, trusted, s, p, a, pc); } else { AfterCleanKept(cfg, trusted, s, p, pc, false); }
      case ListCondemned =>
        if a.ok { CleanOnward(cfg, trusted, s, p, pc, Collect(set v | v in s.vols && v.Gc? :: v.id, true)); } else { AfterCleanKept(cfg, trusted, s, p, pc, false); }
      case Collect(todo, good) =>
        if todo == {} {
          AfterCleanKept(cfg, trusted, s, p, pc, good);
        } else {
          CollectMove(cfg, trusted, s, p, s.vols, if a.ok then s.metas - {a.volume} else s.metas, pc, CollectVolume(todo - {a.volume}, a.volume, good));
        }
      case CollectVolume(todo, id, good) =>
        if a.ok && Gc(id) in s.vols {
          CollectMove(cfg, trusted, s, p, s.vols - {Gc(id)}, s.metas, pc, Collect(todo, good));
        } else {
          CollectMove(cfg, trusted, s, p, s.vols, s.metas, pc, Collect(todo, false));
        }
    }
  }

  lemma CleanKept(cfg: Config, trusted: LayerSet, s: State, p: Pid, a: Answer)
    requires Inv(cfg, trusted, s) && Possible(s, Go(p, a)) && s.procs[p].pc.Cleaning?
    ensures Kept(cfg, trusted, s, StepClean(s, p, a), p)
  {
    if Outside(s.procs[p].pc.clean) {
      OutsideKept(cfg, trusted, s, p, a, s.procs[p].pc.clean);
    } else {
      ScanKept(cfg, trusted, s, p, a, s.procs[p].pc.clean);
    }
  }
}
