/** The protocol's Clean, run by itself, does to the volumes and metadata what the collector's methods do. */
module SoloClean {
  import opened ChainIds
  import opened Names
  import opened Contents
  import opened Volumes
  import opened Protocol
  import GarbageCollector

  /** What a clean that starts in `s` is to keep. */
  ghost function Needed(s: State, preserve: seq<ChainId>): iset<VolumeId> {
    iset id | GarbageCollector.AllRecorded(s.images.Keys, s.records) ==>
      GarbageCollector.InUse(s.images.Keys, s.records, preserve, id)
  }

  ghost function Unneeded(s: State, preserve: seq<ChainId>): set<VolumeId> {
    set v | v in s.vols && v.Live? && v.id !in Needed(s, preserve) :: v.id
  }

  /** Already condemned, or about to be. */
  ghost predicate Doomed(s: State, preserve: seq<ChainId>, id: VolumeId) {
    Gc(id) in s.vols || id in Unneeded(s, preserve)
  }

  ghost predicate Listed(s: State, preserve: seq<ChainId>, orphans: set<VolumeId>, ids: set<ImageId>) {
    && ids <= s.images.Keys
    && GarbageCollector.AllRecorded(s.images.Keys - ids, s.records)
    && forall id :: id in orphans <==> Live(id) in s.vols && !GarbageCollector.InUse(s.images.Keys - ids, s.records, preserve, id)
  }

  /** The condemned volumes in `rest`, the metadata of those in `metaRest`, and everything needed are left. */
  ghost predicate Collected(s: State, preserve: seq<ChainId>, rest: set<VolumeId>, metaRest: set<VolumeId>, vols: Vols, metas: Metas) {
    && (forall id :: Live(id) in vols <==> Live(id) in s.vols && (id in Needed(s, preserve) || Gc(id) in s.vols))
    && (forall id | Live(id) in vols :: vols[Live(id)] == s.vols[Live(id)])
    && (forall id :: Gc(id) in vols <==> id in rest)
    && (forall id | id in rest :: Doomed(s, preserve, id))
    && (forall id :: id in metas <==> id in s.metas && (Doomed(s, preserve, id) ==> id in metaRest))
  }

  /** How far a clean begun in `s` has come. */
  ghost predicate Progressed(s: State, preserve: seq<ChainId>, s': State, pc: CleanPC) {
    && s'.images == s.images && s'.records == s.records
    && match pc
       case ListImages(orphans) => s'.vols == s.vols && s'.metas == s.metas && forall id :: id in orphans <==> Live(id) in s.vols
       case ReadRecords(orphans, ids) => s'.vols == s.vols && s'.metas == s.metas && Listed(s, [], orphans, ids)
       case Mark(todo) =>
         && todo <= Unneeded(s, preserve) && s'.metas == s.metas
         && GarbageCollector.IsMarked(s.vols, Unneeded(s, preserve) - todo, s'.vols)
       case UnlockExclusive => s'.metas == s.metas && GarbageCollector.IsMarked(s.vols, Unneeded(s, preserve), s'.vols)
       case ListCondemned => s'.metas == s.metas && GarbageCollector.IsMarked(s.vols, Unneeded(s, preserve), s'.vols)
       case Collect(todo, good) => good && Collected(s, preserve, todo, todo, s'.vols, s'.metas)
       case CollectVolume(todo, id, good) => good && id !in todo && Collected(s, preserve, todo + {id}, todo, s'.vols, s'.metas)
       case _ => s'.vols == s.vols && s'.metas == s.metas
  }

  /** The clean is over: everything is as `Collector.Clean` leaves it. */
  ghost predicate Finished(s: State, preserve: seq<ChainId>, s': State) {
    && GarbageCollector.IsCleaned(s.vols, Needed(s, preserve), s'.vols)
    && forall id :: id in s'.metas <==> id in s.metas && !Doomed(s, preserve, id)
  }

  /** What the clean of a job is told to keep: a Clean its argument, a Create the layers of its own image. */
  predicate Keeps(job: Job, preserve: seq<ChainId>) {
    job == Clean(preserve) || (job.Create? && job.chain == preserve)
  }

  /** A clean goes on; or it is over, and then a Create goes on to pull. */
  ghost predicate Advances(s: State, preserve: seq<ChainId>, s': State, p: Pid) {
    if p in s'.procs && s'.procs[p].pc.Cleaning? then
      Keeps(s'.procs[p].job, preserve) && Progressed(s, preserve, s', s'.procs[p].pc.clean)
    else
      Finished(s, preserve, s') && (p in s'.procs ==> s'.procs[p].job.Create? && s'.procs[p].pc == LockShared)
  }

  ghost predicate Cleans(s: State, preserve: seq<ChainId>, m: State, p: Pid, pc: CleanPC) {
    p in m.procs && Keeps(m.procs[p].job, preserve) && m.procs[p].pc == Cleaning(pc) && Progressed(s, preserve, m, pc)
  }

  lemma ListAdvances(s: State, preserve: seq<ChainId>, m: State, p: Pid, a: Answer, pc: CleanPC)
    requires Cleans(s, preserve, m, p, pc) && a.ok && !a.alt
    requires pc.Measure? || pc.LockExclusive? || pc.ListVolumes?
    ensures Advances(s, preserve, StepClean(m, p, a), p)
  {
  }

  lemma ImagesAdvance(s: State, preserve: seq<ChainId>, m: State, p: Pid, a: Answer, orphans: set<VolumeId>)
    requires Cleans(s, preserve, m, p, ListImages(orphans)) && a.ok
    ensures Advances(s, preserve, StepClean(m, p, a), p)
  {
  }

  /** One more record read. */
  lemma RecordRead(s: State, orphans: set<VolumeId>, ids: set<ImageId>, image: ImageId)
    requires Listed(s, [], orphans, ids) && image in ids
    requires image in s.records && s.records[image].Complete?
    ensures Listed(s, [], orphans - Finals(s.records[image].chain), ids - {image})
  {
  }

  /** All records read. */
  lemma AllRead(s: State, preserve: seq<ChainId>, orphans: set<VolumeId>)
    requires Listed(s, [], orphans, {})
    ensures orphans - Finals(preserve) == Unneeded(s, preserve)
  {
    assert s.images.Keys - {} == s.images.Keys;
    forall id ensures id in orphans - Finals(preserve) <==> id in Unneeded(s, preserve) {
      assert id in Unneeded(s, preserve) <==> Live(id) in s.vols && id !in Needed(s, preserve);
    }
  }

  lemma RecordsAdvance(s: State, preserve: seq<ChainId>, m: State, p: Pid, a: Answer, orphans: set<VolumeId>, ids: set<ImageId>)
    requires Cleans(s, preserve, m, p, ReadRecords(orphans, ids)) && a.ok && (ids != {} ==> a.image in ids)
    ensures Advances(s, preserve, StepClean(m, p, a), p)
  {
    if ids == {} {
      AllRead(s, preserve, orphans);
      MarkNothing(s, Unneeded(s, preserve));
    } else if a.image in s.records && s.records[a.image].Complete? {
      RecordRead(s, orphans, ids, a.image);
    } else {
      assert !GarbageCollector.AllRecorded(s.images.Keys, s.records);
      assert Unneeded(s, preserve) == {};
      MarkNothing(s, {});
    }
  }

  lemma MarkNothing(s: State, unneeded: set<VolumeId>)
    ensures GarbageCollector.IsMarked(s.vols, unneeded - unneeded, s.vols)
  {
  }

  lemma MarkAdvances(s: State, preserve: seq<ChainId>, m: State, p: Pid, a: Answer, todo: set<VolumeId>)
    requires Cleans(s, preserve, m, p, Mark(todo)) && a.ok && (todo != {} ==> a.volume in todo)
    ensures Advances(s, preserve, StepClean(m, p, a), p)
  {
  }

  lemma UnlockAdvances(s: State, preserve: seq<ChainId>, m: State, p: Pid, a: Answer)
    requires Cleans(s, preserve, m, p, UnlockExclusive)
    ensures Advances(s, preserve, StepClean(m, p, a), p)
  {
  }

  lemma CondemnedAdvance(s: State, preserve: seq<ChainId>, m: State, p: Pid, a: Answer)
    requires Cleans(s, preserve, m, p, ListCondemned) && a.ok
    ensures Advances(s, preserve, StepClean(m, p, a), p)
  {
  }

  lemma CollectAdvances(s: State, preserve: seq<ChainId>, m: State, p: Pid, a: Answer, todo: set<VolumeId>)
    requires Cleans(s, preserve, m, p, Collect(todo, true)) && a.ok && (todo != {} ==> a.volume in todo)
    ensures Advances(s, preserve, StepClean(m, p, a), p)
  {
    if todo != {} {
      assert todo - {a.volume} + {a.volume} == todo;
      assert Collected(s, preserve, todo, todo - {a.volume}, m.vols, m.metas - {a.volume});
    } else {
      CollectEnds(s, preserve, m, p);
    }
  }

  lemma CollectEnds(s: State, preserve: seq<ChainId>, m: State, p: Pid)
    requires Cleans(s, preserve, m, p, Collect({}, true))
    ensures Advances(s, preserve, AfterClean(m, p, true), p)
  {
    CollectedAll(s, preserve, m.vols, m.metas);
    assert AfterClean(m, p, true) == if m.procs[p].job.Create? then At(m, p, LockShared) else Ended(m, p);
  }

  lemma CollectedAll(s: State, preserve: seq<ChainId>, vols: Vols, metas: Metas)
    requires Collected(s, preserve, {}, {}, vols, metas)
    ensures GarbageCollector.IsCleaned(s.vols, Needed(s, preserve), vols)
    ensures forall id :: id in metas <==> id in s.metas && !Doomed(s, preserve, id)
  {
  }

  lemma CollectVolumeAdvances(s: State, preserve: seq<ChainId>, m: State, p: Pid, a: Answer, todo: set<VolumeId>, id: VolumeId)
    requires Cleans(s, preserve, m, p, CollectVolume(todo, id, true)) && a.ok
    ensures Advances(s, preserve, StepClean(m, p, a), p)
  {
    assert Gc(id) in m.vols;
    assert Collected(s, preserve, todo, todo, m.vols - {Gc(id)}, m.metas);
  }

  lemma StepAdvances(cfg: Config, s: State, preserve: seq<ChainId>, m: State, p: Pid, a: Answer, pc: CleanPC)
    requires Cleans(s, preserve, m, p, pc) && Possible(m, Go(p, a)) && a.ok && !a.alt
    ensures Advances(s, preserve, Next(cfg, m, Go(p, a)), p)
  {
    match pc {
      case ListImages(orphans) => ImagesAdvance(s, preserve, m, p, a, orphans);
      case ReadRecords(orphans, ids) => RecordsAdvance(s, preserve, m, p, a, orphans, ids);
      case Mark(todo) => MarkAdvances(s, preserve, m, p, a, todo);
      case UnlockExclusive => UnlockAdvances(s, preserve, m, p, a);
      case ListCondemned => CondemnedAdvance(s, preserve, m, p, a);
      case Collect(todo, _) => CollectAdvances(s, preserve, m, p, a, todo);
      case CollectVolume(todo, id, _) => CollectVolumeAdvances(s, preserve, m, p, a, todo, id);
      case _ => ListAdvances(s, preserve, m, p, a, pc);
    }
  }

  /** Only `p` moves, and every call it makes succeeds; the store is over its threshold. */
  ghost predicate IsSolo(cfg: Config, states: seq<State>, events: seq<Event>, p: Pid) {
    && |states| == |events| + 1
    && forall k | 0 <= k < |events| ::
         && p in states[k].procs && Step(cfg, states[k], events[k], states[k + 1])
         && events[k].Go? && events[k].p == p && events[k].answer.ok && !events[k].answer.alt
  }

  /** A clean by itself, a Create's own before it pulls included, is on its way at every moment, and when it
      ends it has done what the solo collector's Clean is proved to do, from whatever state it began in and in
      whatever order the directories were listed. */
  lemma {:induction false} SoloCleanIsClean(cfg: Config, states: seq<State>, events: seq<Event>, p: Pid, preserve: seq<ChainId>)
    requires IsSolo(cfg, states, events, p)
    requires p in states[0].procs && Keeps(states[0].procs[p].job, preserve) && states[0].procs[p].pc == Cleaning(Measure)
    requires forall k | 0 <= k < |events| :: p in states[k].procs && states[k].procs[p].pc.Cleaning?
    ensures Advances(states[0], preserve, states[|events|], p)
    decreases |events|
  {
    if events != [] {
      var n := |events| - 1;
      assert IsSolo(cfg, states[..n + 1], events[..n], p) by {
        forall k | 0 <= k < n
          ensures p in states[..n + 1][k].procs && Step(cfg, states[..n + 1][k], events[..n][k], states[..n + 1][k + 1])
          ensures events[..n][k].Go? && events[..n][k].p == p && events[..n][k].answer.ok && !events[..n][k].answer.alt
        {
          assert states[..n + 1][k + 1] == states[k + 1] && events[..n][k] == events[k];
        }
      }
      assert forall k | 0 <= k < n :: states[..n + 1][k] == states[k];
      SoloCleanIsClean(cfg, states[..n + 1], events[..n], p, preserve);
      assert Step(cfg, states[n], events[n], states[n + 1]);
      StepAdvances(cfg, states[0], preserve, states[n], p, events[n].answer, states[n].procs[p].pc.clean);
    }
  }
}
