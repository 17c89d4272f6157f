/** store/garbage_collector/gc.go and groot/cleaner.go with no other process at work. */
module GarbageCollector {
  import opened Options
  import opened ChainIds
  import opened Names
  import opened Volumes
  import opened Drivers
  import opened Protocol

  // ----- what a clean does to the volumes directory

  /** The volumes in use: those of every recorded chain, and those to preserve. */
  ghost predicate InUse(images: set<ImageId>, records: map<ImageId, Record>, preserve: seq<ChainId>, id: VolumeId) {
    || id in Finals(preserve)
    || exists image | image in images :: image in records && records[image].Complete? && id in Finals(records[image].chain)
  }

  /** Every listed image has a readable record. */
  predicate AllRecorded(images: set<ImageId>, records: map<ImageId, Record>) {
    forall image | image in images :: image in records && records[image].Complete?
  }

  /** The volumes after marking `todo`: renamed, except those whose condemned name is already taken. */
  ghost predicate IsMarked(before: Vols, todo: set<VolumeId>, after: Vols) {
    forall id ::
      && (Live(id) in after <==> Live(id) in before && !(id in todo && Gc(id) !in before))
      && (Gc(id) in after <==> Gc(id) in before || (id in todo && Live(id) in before))
      && (Live(id) in after ==> after[Live(id)] == before[Live(id)])
      && (Gc(id) in after ==> after[Gc(id)] == if Gc(id) in before then before[Gc(id)] else before[Live(id)])
  }

  /** The volumes after a whole clean that takes `keep` to be needed. */
  ghost predicate IsCleaned(before: Vols, keep: iset<VolumeId>, after: Vols) {
    forall v ::
      && (v in after <==> v in before && v.Live? && (v.id in keep || Gc(v.id) in before))
      && (v in after ==> after[v] == before[v])
  }

  class Collector {
    const driver: Driver
    const images: set<ImageId>
    const records: map<ImageId, Record>

    constructor (driver: Driver, images: set<ImageId>, records: map<ImageId, Record>)
      ensures this.driver == driver && this.images == images && this.records == records
    {
      this.driver, this.images, this.records := driver, images, records;
    }

    /** None: some image has no readable record. */
    method UnusedVolumes(preserve: seq<ChainId>) returns (unused: Option<set<VolumeId>>)
      ensures unused.Some? <==> AllRecorded(images, records)
      ensures unused.Some? ==> forall id :: id in unused.value <==> Live(id) in driver.vols && !InUse(images, records, preserve, id)
    {
      var names := driver.Volumes();
      var orphans: set<VolumeId> := {};
      for i := 0 to |names|
        invariant forall id :: id in orphans <==> Live(id) in names[..i]
      {
        if names[i].Live? {
          orphans := orphans + {names[i].id};
        }
      }
      assert names[..|names|] == names;
      var rest := images;
      while rest != {}
        invariant rest <= images
        invariant AllRecorded(images - rest, records)
        invariant forall id :: id in orphans <==> Live(id) in driver.vols && !InUse(images - rest, records, [], id)
        decreases |rest|
      {
        var image :| image in rest;
        if image !in records || !records[image].Complete? {
          return None;
        }
        orphans := orphans - Finals(records[image].chain);
        rest := rest - {image};
        assert images - rest == (images - rest - {image}) + {image};
      }
      assert images - {} == images;
      orphans := orphans - Finals(preserve);
      return Some(orphans);
    }

    method MarkUnused(unused: set<VolumeId>) returns (failed: nat)
      modifies driver
      ensures IsMarked(old(driver.vols), unused, driver.vols) && driver.metas == old(driver.metas)
      ensures failed == 0 <==> forall id | id in unused :: Live(id) in old(driver.vols)
    {
      failed := 0;
      var rest := unused;
      ghost var before := driver.vols;
      while rest != {}
        invariant rest <= unused
        invariant IsMarked(before, unused - rest, driver.vols) && driver.metas == old(driver.metas)
        invariant failed == 0 <==> forall id | id in unused - rest :: Live(id) in before
        decreases |rest|
      {
        var id :| id in rest;
        var found := driver.VolumePath(Live(id));
        if !found {
          failed := failed + 1;
        } else {
          var moved := driver.MoveVolume(Live(id), Gc(id));
        }
        rest := rest - {id};
      }
      assert unused - {} == unused;
    }

    method CollectVolumes() returns (ok: bool)
      modifies driver
      ensures ok
      ensures forall v :: (v in driver.vols <==> v in old(driver.vols) && v.Live?) && (v in driver.vols ==> driver.vols[v] == old(driver.vols)[v])
      ensures forall id :: id in driver.metas <==> id in old(driver.metas) && Gc(id) !in old(driver.vols)
      ensures forall id | id in driver.metas :: driver.metas[id] == old(driver.metas)[id]
    {
      ok := true;
      var names := driver.Volumes();
      ghost var before, metas := driver.vols, driver.metas;
      for i := 0 to |names|
        invariant ok
        invariant forall v :: (v in driver.vols <==> v in before && !(v.Gc? && v in names[..i])) && (v in driver.vols ==> driver.vols[v] == before[v])
        invariant forall id :: id in driver.metas <==> id in metas && Gc(id) !in names[..i]
        invariant forall id | id in driver.metas :: driver.metas[id] == metas[id]
      {
        if names[i].Gc? {
          assert names[i] !in names[..i];
          var destroyed := driver.DestroyVolume(names[i]);
          ok := ok && destroyed;
        }
      }
      assert names[..|names|] == names;
    }

    /** What a clean keeps: the volumes in use, or everything when an image has no record. */
    ghost function Kept(preserve: seq<ChainId>): iset<VolumeId> {
      iset id | AllRecorded(images, records) ==> InUse(images, records, preserve, id)
    }

    /** `usage` is what the measurer answers; noop means the threshold was not reached or not usable. */
    method Clean(threshold: int, usage: Option<int>, preserve: seq<ChainId>) returns (noop: bool, ok: bool)
      modifies driver
      ensures noop <==> threshold < 0 || (threshold > 0 && (usage.None? || usage.value < threshold))
      ensures noop ==> driver.vols == old(driver.vols) && driver.metas == old(driver.metas)
      ensures noop ==> (ok <==> threshold > 0 && usage.Some?)
      ensures !noop ==> ok && IsCleaned(old(driver.vols), Kept(preserve), driver.vols)
      ensures !noop ==> forall id :: id in driver.metas <==>
        id in old(driver.metas) && Gc(id) !in old(driver.vols) && (Live(id) in old(driver.vols) ==> id in Kept(preserve))
    {
      if threshold > 0 {
        if usage.None? {
          return true, false;
        }
        if usage.value < threshold {
          return true, true;
        }
      } else if threshold < 0 {
        return true, false;
      }
      var unused := UnusedVolumes(preserve);
      ghost var before, metas := driver.vols, driver.metas;
      var todo := if unused.Some? then unused.value else {};
      var failed := MarkUnused(todo);
      ghost var marked := driver.vols;
      ok := CollectVolumes();
      noop := false;
      forall v ensures (v in driver.vols <==> v in before && v.Live? && (v.id in Kept(preserve) || Gc(v.id) in before)) && (v in driver.vols ==> driver.vols[v] == before[v]) {
        if v.Live? {
          assert Live(v.id) == v;
          assert v in marked <==> v in before && !(v.id in todo && Gc(v.id) !in before);
        }
      }
      forall id ensures id in driver.metas <==> id in metas && Gc(id) !in before && (Live(id) in before ==> id in Kept(preserve)) {
        assert Gc(id) in marked <==> Gc(id) in before || (id in todo && Live(id) in before);
      }
    }
  }

  // ----- cleaning again

  /** A second clean leaves exactly the volumes in use. */
  lemma TwoCleans(s0: Vols, keep: iset<VolumeId>, s1: Vols, s2: Vols)
    requires IsCleaned(s0, keep, s1) && IsCleaned(s1, keep, s2)
    ensures forall v :: v in s2 <==> v in s0 && v.Live? && v.id in keep
    ensures forall v | v in s2 :: s2[v] == s0[v]
  {
  }

  /** Once no volume is condemned or unused, cleaning changes nothing; so the third clean, and every later
      one, is the identity. */
  lemma ThirdCleanIsIdentity(s0: Vols, keep: iset<VolumeId>, s1: Vols, s2: Vols, s3: Vols)
    requires IsCleaned(s0, keep, s1) && IsCleaned(s1, keep, s2) && IsCleaned(s2, keep, s3)
    ensures s3 == s2
  {
  }

  /** Exactly when one clean is already enough. */
  lemma OneCleanSufficesIff(s0: Vols, keep: iset<VolumeId>, s1: Vols, s2: Vols)
    requires IsCleaned(s0, keep, s1) && IsCleaned(s1, keep, s2)
    ensures s1 == s2 <==> forall id | Live(id) in s0 && Gc(id) in s0 :: id in keep
  {
  }
}
