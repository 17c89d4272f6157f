/** The steps on images, records, the shared lock, and the arrival and crash of processes keep the invariant. */
module ImageSteps {
  import opened Options
  import opened ChainIds
  import opened Names
  import opened Contents
  import opened Protocol
  import opened Invariant
  import opened Effects

  predicate SameImage(s: State, s': State, id: ImageId) {
    SameId(s, s', id) && (id in s.committed && id in s'.committed ==> s'.committed[id] == s.committed[id])
  }

  /** Only what belongs to image `id` changes. */
  ghost predicate TouchesImage(s: State, s': State, id: ImageId) {
    && s'.vols == s.vols && s'.metas == s.metas
    && forall other | other != id :: SameImage(s, s', other)
  }

  /** The process that owns the ID may change the image, as long as a cleaner at work sees no image
      appear and no listed image's record change. */
  lemma ImageTouchKeeps(cfg: Config, trusted: LayerSet, s: State, s': State, p: Pid, id: ImageId)
    requires Inv(cfg, trusted, s) && p in s.procs && s.procs[p].job.Names(id)
    requires TouchesImage(s, s', id) && id !in s.committed
    requires id in s'.committed ==> IsChain(s'.committed[id]) && ImageOk(cfg, trusted, s', id, s'.committed[id])
    requires InShared(s.procs[p].pc) || (id in s'.images ==> id in s.images && s'.records == s.records)
    ensures CacheOk(cfg, trusted, s') && CommittedOk(cfg, trusted, s')
    ensures forall q | q in s.procs && q != p :: Rely(trusted, s, s', s.procs[q])
    ensures RegisteredStay(trusted, s, s')
  {
    forall c ensures FinalOk(cfg, trusted, s', c) {
      assert FinalOk(cfg, trusted, s, c);
    }
    assert forall other | other in s.committed :: SameImage(s, s', other);
    forall other | other in s'.committed
      ensures IsChain(s'.committed[other]) && ImageOk(cfg, trusted, s', other, s'.committed[other])
    {
      assert other != id ==> SameImage(s, s', other);
    }
    forall q | q in s.procs && q != p ensures Rely(trusted, s, s', s.procs[q]) {
      forall other | s.procs[q].job.Names(other) ensures SameId(s, s', other) {
        assert other != id ==> SameImage(s, s', other);
      }
      if InExclusive(s.procs[q].pc) {
        assert s.flocks.exclusive == Some(q);
        forall other | other in s'.images
          ensures other in s.images && (other in s.records <==> other in s'.records)
          ensures other in s.records ==> s.records[other] == s'.records[other]
        {
          assert other != id ==> SameImage(s, s', other);
        }
      }
    }
  }

  lemma ImageMove(cfg: Config, trusted: LayerSet, s: State, s': State, p: Pid, pc: PC)
    requires Inv(cfg, trusted, s) && Moves(s, s', p, pc) && SamePosture(s.procs[p], pc)
    requires s'.flocks == s.flocks && !s.procs[p].job.Clean?
    requires TouchesImage(s, s', s.procs[p].job.id) && s.procs[p].job.id !in s.committed
    requires var id := s.procs[p].job.id; id in s'.committed ==> IsChain(s'.committed[id]) && ImageOk(cfg, trusted, s', id, s'.committed[id])
    requires InShared(s.procs[p].pc) || (s.procs[p].job.id in s'.images ==> s.procs[p].job.id in s.images && s'.records == s.records)
    requires ProcOk(cfg, trusted, s', s.procs[p].(pc := pc))
    ensures Kept(cfg, trusted, s, s', p)
  {
    assert LocksOk(s') && IdsInFlight(s') by {
      SameLocks(s, s', p, pc);
    }
    ImageTouchKeeps(cfg, trusted, s, s', p, s.procs[p].job.id);
  }

  ghost predicate AtImage(cfg: Config, trusted: LayerSet, s: State, p: Pid, pc: ImagePC) {
    Inv(cfg, trusted, s) && p in s.procs && Fits(s.procs[p]) && s.procs[p].pc == Imaging(pc)
  }

  lemma ImageFacts(cfg: Config, trusted: LayerSet, s: State, p: Pid, pc: ImagePC)
    requires AtImage(cfg, trusted, s, p, pc)
    ensures
      var job := s.procs[p].job;
      var top := job.chain[|job.chain| - 1];
      job.id !in s.committed && ImagingOk(cfg, trusted, s, job.id, top, pc) && FinalOk(cfg, trusted, s, top)
  {
  }

  lemma ImageDirMade(cfg: Config, trusted: LayerSet, s: State, p: Pid)
    requires AtImage(cfg, trusted, s, p, MakeImageDir) && s.procs[p].job.id !in s.images
    ensures Kept(cfg, trusted, s, At(s.(images := s.images[s.procs[p].job.id := Image(None)]), p, Imaging(SnapshotImage)), p)
  {
    var s' := At(s.(images := s.images[s.procs[p].job.id := Image(None)]), p, Imaging(SnapshotImage));
    ImageFacts(cfg, trusted, s, p, MakeImageDir);
    ImageMove(cfg, trusted, s, s', p, Imaging(SnapshotImage));
  }

  lemma MakeImageDirStep(cfg: Config, trusted: LayerSet, s: State, p: Pid, a: Answer)
    requires AtImage(cfg, trusted, s, p, MakeImageDir)
    ensures Kept(cfg, trusted, s, StepImage(s, p, a), p)
  {
    if a.ok && s.procs[p].job.id !in s.images {
      ImageDirMade(cfg, trusted, s, p);
    } else {
      ImageFacts(cfg, trusted, s, p, MakeImageDir);
      PlainMove(cfg, trusted, s, p, Imaging(DropImage));
    }
  }

  lemma SnapshotTaken(cfg: Config, trusted: LayerSet, s: State, p: Pid, pc: ImagePC)
    requires AtImage(cfg, trusted, s, p, SnapshotImage) && (pc.FinishImage? || pc.DropImage?)
    requires Live(Final(s.procs[p].job.chain[|s.procs[p].job.chain| - 1])) in s.vols
    ensures
      var job := s.procs[p].job;
      var top := Live(Final(job.chain[|job.chain| - 1]));
      Kept(cfg, trusted, s, At(s.(images := s.images[job.id := Image(Some(s.vols[top]))]), p, Imaging(pc)), p)
  {
    ImageFacts(cfg, trusted, s, p, SnapshotImage);
    var job := s.procs[p].job;
    var top := Live(Final(job.chain[|job.chain| - 1]));
    var s' := At(s.(images := s.images[job.id := Image(Some(s.vols[top]))]), p, Imaging(pc));
    assert ProcOk(cfg, trusted, s', s.procs[p].(pc := Imaging(pc)));
    ImageMove(cfg, trusted, s, s', p, Imaging(pc));
  }

  lemma SnapshotImageStep(cfg: Config, trusted: LayerSet, s: State, p: Pid, a: Answer)
    requires AtImage(cfg, trusted, s, p, SnapshotImage)
    ensures Kept(cfg, trusted, s, StepImage(s, p, a), p)
  {
    ImageFacts(cfg, trusted, s, p, SnapshotImage);
    if Live(Final(s.procs[p].job.chain[|s.procs[p].job.chain| - 1])) in s.vols && (a.ok || a.alt) {
      SnapshotTaken(cfg, trusted, s, p, if a.ok then FinishImage else DropImage);
    } else {
      PlainMove(cfg, trusted, s, p, Imaging(DropImage));
    }
  }

  lemma FinishImageStep(cfg: Config, trusted: LayerSet, s: State, p: Pid, a: Answer)
    requires AtImage(cfg, trusted, s, p, FinishImage)
    ensures Kept(cfg, trusted, s, StepImage(s, p, a), p)
  {
    ImageFacts(cfg, trusted, s, p, FinishImage);
    PlainMove(cfg, trusted, s, p, if a.ok then Imaging(OpenRecord) else UnlockShared);
  }

  lemma RecordOpened(cfg: Config, trusted: LayerSet, s: State, p: Pid)
    requires AtImage(cfg, trusted, s, p, OpenRecord)
    ensures Kept(cfg, trusted, s, At(s.(records := s.records[s.procs[p].job.id := Partial]), p, Imaging(WriteRecord)), p)
  {
    var s' := At(s.(records := s.records[s.procs[p].job.id := Partial]), p, Imaging(WriteRecord));
    ImageFacts(cfg, trusted, s, p, OpenRecord);
    ImageMove(cfg, trusted, s, s', p, Imaging(WriteRecord));
  }

  lemma OpenRecordStep(cfg: Config, trusted: LayerSet, s: State, p: Pid, a: Answer)
    requires AtImage(cfg, trusted, s, p, OpenRecord)
    ensures Kept(cfg, trusted, s, StepImage(s, p, a), p)
  {
    if a.ok {
      RecordOpened(cfg, trusted, s, p);
    } else {
      ImageFacts(cfg, trusted, s, p, OpenRecord);
      PlainMove(cfg, trusted, s, p, Imaging(DropImage));
    }
  }

  lemma RecordDoubtful(cfg: Config, trusted: LayerSet, s: State, p: Pid, id: ImageId, chain: seq<ChainId>)
    requires AtImage(cfg, trusted, s, p, WriteRecord) && id == s.procs[p].job.id && chain == s.procs[p].job.chain
    ensures Kept(cfg, trusted, s, At(s.(records := s.records[id := Complete(chain)]), p, Imaging(DropImage)), p)
  {
    var s' := At(s.(records := s.records[id := Complete(chain)]), p, Imaging(DropImage));
    ImageFacts(cfg, trusted, s, p, WriteRecord);
    ImageMove(cfg, trusted, s, s', p, Imaging(DropImage));
  }

  lemma RecordWritten(cfg: Config, trusted: LayerSet, s: State, p: Pid, id: ImageId, chain: seq<ChainId>)
    requires AtImage(cfg, trusted, s, p, WriteRecord) && id == s.procs[p].job.id && chain == s.procs[p].job.chain
    ensures Kept(cfg, trusted, s, At(s.(records := s.records[id := Complete(chain)], committed := s.committed[id := chain]), p, UnlockShared), p)
  {
    var s' := At(s.(records := s.records[id := Complete(chain)], committed := s.committed[id := chain]), p, UnlockShared);
    ImageFacts(cfg, trusted, s, p, WriteRecord);
    assert ImageOk(cfg, trusted, s', id, chain);
    ImageMove(cfg, trusted, s, s', p, UnlockShared);
  }

  lemma WriteRecordStep(cfg: Config, trusted: LayerSet, s: State, p: Pid, a: Answer)
    requires AtImage(cfg, trusted, s, p, WriteRecord)
    ensures Kept(cfg, trusted, s, StepImage(s, p, a), p)
  {
    if a.ok {
      RecordWritten(cfg, trusted, s, p, s.procs[p].job.id, s.procs[p].job.chain);
    } else if a.alt {
      RecordDoubtful(cfg, trusted, s, p, s.procs[p].job.id, s.procs[p].job.chain);
    } else {
      ImageFacts(cfg, trusted, s, p, WriteRecord);
      PlainMove(cfg, trusted, s, p, Imaging(DropImage));
    }
  }

  lemma DropImageStep(cfg: Config, trusted: LayerSet, s: State, p: Pid, a: Answer)
    requires AtImage(cfg, trusted, s, p, DropImage)
    ensures Kept(cfg, trusted, s, StepImage(s, p, a), p)
  {
    var s' := StepImage(s, p, a);
    ImageFacts(cfg, trusted, s, p, DropImage);
    ImageMove(cfg, trusted, s, s', p, UnlockShared);
  }

  lemma ImageKept(cfg: Config, trusted: LayerSet, s: State, p: Pid, a: Answer)
    requires Inv(cfg, trusted, s) && Possible(s, Go(p, a)) && s.procs[p].pc.Imaging?
    ensures Kept(cfg, trusted, s, StepImage(s, p, a), p)
  {
    assert AtImage(cfg, trusted, s, p, s.procs[p].pc.image);
    match s.procs[p].pc.image {
      case MakeImageDir => MakeImageDirStep(cfg, trusted, s, p, a);
      case SnapshotImage => SnapshotImageStep(cfg, trusted, s, p, a);
      case FinishImage => FinishImageStep(cfg, trusted, s, p, a);
      case OpenRecord => OpenRecordStep(cfg, trusted, s, p, a);
      case WriteRecord => WriteRecordStep(cfg, trusted, s, p, a);
      case DropImage => DropImageStep(cfg, trusted, s, p, a);
    }
  }

  ghost predicate AtDelete(cfg: Config, trusted: LayerSet, s: State, p: Pid, pc: DeletePC) {
    Inv(cfg, trusted, s) && p in s.procs && Fits(s.procs[p]) && s.procs[p].pc == Deleting(pc)
  }

  lemma DeleteFacts(cfg: Config, trusted: LayerSet, s: State, p: Pid, pc: DeletePC)
    requires AtDelete(cfg, trusted, s, p, pc)
    ensures s.procs[p].job.id !in s.committed && (pc.Deregister? ==> s.procs[p].job.id !in s.images)
  {
  }

  lemma CheckImageStep(cfg: Config, trusted: LayerSet, s: State, p: Pid, a: Answer)
    requires AtDelete(cfg, trusted, s, p, CheckImage)
    ensures Kept(cfg, trusted, s, StepDelete(s, p, a), p)
  {
    DeleteFacts(cfg, trusted, s, p, CheckImage);
    if a.ok && s.procs[p].job.id in s.images {
      PlainMove(cfg, trusted, s, p, Deleting(DestroyImage));
    } else {
      EndedKept(cfg, trusted, s, p);
    }
  }

  lemma ImageDestroyed(cfg: Config, trusted: LayerSet, s: State, p: Pid, a: Answer)
    requires AtDelete(cfg, trusted, s, p, DestroyImage) && a.ok
    ensures Kept(cfg, trusted, s, At(s.(images := s.images - {s.procs[p].job.id}), p, Deleting(Deregister)), p)
  {
    DeleteFacts(cfg, trusted, s, p, DestroyImage);
    ImageMove(cfg, trusted, s, At(s.(images := s.images - {s.procs[p].job.id}), p, Deleting(Deregister)), p, Deleting(Deregister));
  }

  lemma DestroyFailed(cfg: Config, trusted: LayerSet, s: State, p: Pid, a: Answer)
    requires AtDelete(cfg, trusted, s, p, DestroyImage) && !a.ok
    ensures Kept(cfg, trusted, s, Ended(ImageDropped(s, s.procs[p].job.id, a), p), p)
  {
    DeleteFacts(cfg, trusted, s, p, DestroyImage);
    var s' := Ended(ImageDropped(s, s.procs[p].job.id, a), p);
    Leaves(s, s', p);
    ImageTouchKeeps(cfg, trusted, s, s', p, s.procs[p].job.id);
  }

  lemma DestroyImageStep(cfg: Config, trusted: LayerSet, s: State, p: Pid, a: Answer)
    requires AtDelete(cfg, trusted, s, p, DestroyImage)
    ensures Kept(cfg, trusted, s, StepDelete(s, p, a), p)
  {
    if a.ok {
      ImageDestroyed(cfg, trusted, s, p, a);
    } else {
      DestroyFailed(cfg, trusted, s, p, a);
    }
  }

  lemma DeregisterStep(cfg: Config, trusted: LayerSet, s: State, p: Pid, a: Answer)
    requires AtDelete(cfg, trusted, s, p, Deregister)
    ensures Kept(cfg, trusted, s, StepDelete(s, p, a), p)
  {
    DeleteFacts(cfg, trusted, s, p, Deregister);
    var s' := StepDelete(s, p, a);
    Leaves(s, s', p);
    ImageTouchKeeps(cfg, trusted, s, s', p, s.procs[p].job.id);
  }

  lemma DeleteKept(cfg: Config, trusted: LayerSet, s: State, p: Pid, a: Answer)
    requires Inv(cfg, trusted, s) && Possible(s, Go(p, a)) && s.procs[p].pc.Deleting?
    ensures Kept(cfg, trusted, s, StepDelete(s, p, a), p)
  {
    assert AtDelete(cfg, trusted, s, p, s.procs[p].pc.delete);
    match s.procs[p].pc.delete {
      case CheckImage => CheckImageStep(cfg, trusted, s, p, a);
      case DestroyImage => DestroyImageStep(cfg, trusted, s, p, a);
      case Deregister => DeregisterStep(cfg, trusted, s, p, a);
    }
  }

  lemma SharedKept(cfg: Config, trusted: LayerSet, s: State, p: Pid, a: Answer)
    requires Inv(cfg, trusted, s) && Possible(s, Go(p, a))
    requires (s.procs[p].pc.LockShared? && a.ok) || s.procs[p].pc.UnlockShared?
    ensures Kept(cfg, trusted, s, StepEdge(s, p, a), p)
  {
    var s' := StepEdge(s, p, a);
    assert ProcOk(cfg, trusted, s, s.procs[p]);
    if s.procs[p].pc.LockShared? {
      var pc := CheckQuota;
      assert Moves(s, s', p, pc);
      assert GlobalOk(s') by {
        assert forall q | q in s.procs && q != p :: s'.procs[q] == s.procs[q];
      }
      MovesLayers(s, s', p, pc);
      LockMove(cfg, trusted, s, s', p, pc);
    } else {
      Departs(cfg, trusted, s, s', p);
    }
  }

  /** A process is gone, and so are its locks. */
  lemma Departs(cfg: Config, trusted: LayerSet, s: State, s': State, p: Pid)
    requires Inv(cfg, trusted, s) && p in s.procs && SameStore(s, s')
    requires s'.procs == s.procs - {p}
    requires s'.flocks.shared == s.flocks.shared - {p}
    requires s'.flocks.exclusive == if s.flocks.exclusive == Some(p) then None else s.flocks.exclusive
    requires forall c :: c in s'.flocks.layers <==> c in s.flocks.layers && s.flocks.layers[c] != p
    requires forall c | c in s'.flocks.layers :: s'.flocks.layers[c] == s.flocks.layers[c]
    ensures Kept(cfg, trusted, s, s', p)
  {
    DepartsLocks(s, s', p);
    SameStoreKeeps(cfg, trusted, s, s');
  }

  lemma DepartsLocks(s: State, s': State, p: Pid)
    requires LocksOk(s) && p in s.procs
    requires s'.procs == s.procs - {p}
    requires s'.flocks.shared == s.flocks.shared - {p}
    requires s'.flocks.exclusive == if s.flocks.exclusive == Some(p) then None else s.flocks.exclusive
    requires forall c :: c in s'.flocks.layers <==> c in s.flocks.layers && s.flocks.layers[c] != p
    requires forall c | c in s'.flocks.layers :: s'.flocks.layers[c] == s.flocks.layers[c]
    ensures LocksOk(s')
  {
    assert forall q | q in s'.procs :: q in s.procs && s'.procs[q] == s.procs[q];
    forall q, c ensures Holder(s', c, q) <==> Holder(s, c, q) && q != p {
    }
  }

  lemma NotRegistered(cfg: Config, trusted: LayerSet, s: State, id: ImageId)
    requires CommittedOk(cfg, trusted, s) && id !in s.images
    ensures id !in s.committed
  {
  }

  lemma CheckIdStep(cfg: Config, trusted: LayerSet, s: State, p: Pid, a: Answer)
    requires Inv(cfg, trusted, s) && Possible(s, Go(p, a)) && s.procs[p].pc.CheckId?
    ensures Kept(cfg, trusted, s, StepEdge(s, p, a), p)
  {
    if a.ok && s.procs[p].job.id !in s.images {
      NotRegistered(cfg, trusted, s, s.procs[p].job.id);
      PlainMove(cfg, trusted, s, p, FetchInfo);
    } else {
      EndedKept(cfg, trusted, s, p);
    }
  }

  lemma FetchInfoStep(cfg: Config, trusted: LayerSet, s: State, p: Pid, a: Answer)
    requires Inv(cfg, trusted, s) && Possible(s, Go(p, a)) && s.procs[p].pc.FetchInfo?
    ensures Kept(cfg, trusted, s, StepEdge(s, p, a), p)
  {
    assert ProcOk(cfg, trusted, s, s.procs[p]);
    if a.ok {
      PlainMove(cfg, trusted, s, p, if s.procs[p].job.cleanFirst then Cleaning(Measure) else LockShared);
    } else {
      EndedKept(cfg, trusted, s, p);
    }
  }

  lemma CheckQuotaStep(cfg: Config, trusted: LayerSet, s: State, p: Pid, a: Answer)
    requires Inv(cfg, trusted, s) && Possible(s, Go(p, a)) && s.procs[p].pc.CheckQuota?
    ensures Kept(cfg, trusted, s, StepEdge(s, p, a), p)
  {
    assert ProcOk(cfg, trusted, s, s.procs[p]);
    PlainMove(cfg, trusted, s, p, if a.ok then Layer(|s.procs[p].job.chain| - 1, Probe) else UnlockShared);
  }

  lemma EdgeKept(cfg: Config, trusted: LayerSet, s: State, p: Pid, a: Answer)
    requires Inv(cfg, trusted, s) && Possible(s, Go(p, a))
    requires var pc := s.procs[p].pc; !pc.Cleaning? && !pc.Deleting? && !pc.Layer? && !pc.Imaging?
    ensures Kept(cfg, trusted, s, StepEdge(s, p, a), p)
  {
    match s.procs[p].pc {
      case CheckId => CheckIdStep(cfg, trusted, s, p, a);
      case FetchInfo => FetchInfoStep(cfg, trusted, s, p, a);
      case LockShared => if a.ok { SharedKept(cfg, trusted, s, p, a); } else { EndedKept(cfg, trusted, s, p); }
      case CheckQuota => CheckQuotaStep(cfg, trusted, s, p, a);
      case UnlockShared => SharedKept(cfg, trusted, s, p, a);
    }
  }

  lemma CrashKept(cfg: Config, trusted: LayerSet, s: State, p: Pid)
    requires Inv(cfg, trusted, s) && p in s.procs
    ensures Kept(cfg, trusted, s, Crashed(s, p), p)
  {
    Departs(cfg, trusted, s, Crashed(s, p), p);
  }

  lemma SpawnLocks(s: State, p: Pid, job: Job)
    requires LocksOk(s) && IdsInFlight(s) && Possible(s, Spawn(p, job))
    ensures LocksOk(Spawned(s, p, job)) && IdsInFlight(Spawned(s, p, job))
  {
    var s' := Spawned(s, p, job);
    assert forall q | q in s.procs :: q in s'.procs && s'.procs[q] == s.procs[q];
    assert LayersOk(s') by {
      forall q, c ensures Holder(s', c, q) <==> Holder(s, c, q) {
        HoldsNothing(Proc(job, Entry(job)), c);
      }
    }
  }

  lemma SpawnStore(cfg: Config, trusted: LayerSet, s: State, p: Pid, job: Job)
    requires CacheOk(cfg, trusted, s) && CommittedOk(cfg, trusted, s)
    ensures CacheOk(cfg, trusted, Spawned(s, p, job)) && CommittedOk(cfg, trusted, Spawned(s, p, job))
  {
    var s' := Spawned(s, p, job);
    forall c ensures FinalOk(cfg, trusted, s', c) {
      assert FinalOk(cfg, trusted, s, c);
    }
    forall id | id in s'.committed ensures ImageOk(cfg, trusted, s', id, s'.committed[id]) {
      assert ImageOk(cfg, trusted, s, id, s.committed[id]);
    }
  }

  lemma SpawnKept(cfg: Config, trusted: LayerSet, s: State, p: Pid, job: Job)
    requires Inv(cfg, trusted, s) && Possible(s, Spawn(p, job))
    ensures Kept(cfg, trusted, s, Spawned(s, p, job), p)
  {
    var s' := Spawned(s, p, job);
    SpawnLocks(s, p, job);
    SpawnStore(cfg, trusted, s, p, job);
    assert ProcOk(cfg, trusted, s', s'.procs[p]);
    forall q | q in s.procs ensures Rely(trusted, s, s', s.procs[q]) {
      SpawnRely(trusted, s, p, job, s.procs[q]);
    }
  }

  lemma SpawnRely(trusted: LayerSet, s: State, p: Pid, job: Job, proc: Proc)
    requires !job.Clean? ==> !proc.job.Names(job.id)
    ensures Rely(trusted, s, Spawned(s, p, job), proc)
  {
  }
}
