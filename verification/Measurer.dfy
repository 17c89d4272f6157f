/** store/measurer_linux.go: usage arithmetic. */
module Measurer {
  import opened Names
  import opened Volumes
  import opened Drivers
  import opened Words

  datatype PathStats = PathStats(total: int, used: int)

  function StatsOf(blocks: nat, bfree: nat, bsize: nat): PathStats {
    var free := Wrap(bfree * bsize);
    var total := Wrap(blocks * bsize);
    PathStats(ToInt64(total), ToInt64(Wrap(total - free)))
  }

  lemma DifferenceOfWrapped(total: nat, free: nat)
    requires free <= total
    ensures ToInt64(Wrap(Wrap(total) - Wrap(free))) == total - free <==> total - free < HALF
  {
  }

  /** Even when both products wrap, the used bytes are right exactly when they fit an int64. */
  lemma UsedSurvivesWrapping(blocks: nat, bfree: nat, bsize: nat)
    requires bfree <= blocks
    ensures StatsOf(blocks, bfree, bsize).used == (blocks - bfree) * bsize <==> (blocks - bfree) * bsize < HALF
  {
    var free, total: nat := bfree * bsize, blocks * bsize;
    assert (blocks - bfree) * bsize == total - free;
    assert free <= total by { assert 0 <= (blocks - bfree) * bsize; }
    DifferenceOfWrapped(total, free);
  }

  /** The total is right exactly when it fits an int64. */
  lemma TotalSurvivesIff(blocks: nat, bfree: nat, bsize: nat)
    ensures StatsOf(blocks, bfree, bsize).total == blocks * bsize <==> blocks * bsize < HALF
  {
    WrappedTotal(blocks * bsize);
  }

  lemma WrappedTotal(total: nat)
    ensures ToInt64(Wrap(total)) == total <==> total < HALF
  {
  }

  /** The bytes on record for the volumes; those that cannot be read are left out. */
  function RecordedSum(metas: Metas, names: seq<VolName>): nat {
    if names == [] then 0
    else
      var id := names[|names| - 1].id;
      RecordedSum(metas, names[..|names| - 1]) + if id in metas && metas[id].Size? then metas[id].bytes else 0
  }

  lemma {:induction false} RecordedSumAdds(metas: Metas, names: seq<VolName>, more: seq<VolName>)
    ensures RecordedSum(metas, names + more) == RecordedSum(metas, names) + RecordedSum(metas, more)
    decreases |more|
  {
    if more == [] {
      assert names + more == names;
    } else {
      var init := more[..|more| - 1];
      assert (names + more)[..|names + more| - 1] == names + init;
      RecordedSumAdds(metas, names, init);
    }
  }

  /** Every volume listed counts with the bytes recorded for its ID, as often as it is listed. */
  lemma RecordedSumCounts(metas: Metas, before: seq<VolName>, v: VolName, after: seq<VolName>)
    ensures RecordedSum(metas, before + [v] + after) == RecordedSum(metas, before + after) +
      (if v.id !in metas then 0 else match metas[v.id] case Size(bytes) => bytes case Garbled => 0)
    ensures RecordedSum(metas, []) == 0
  {
    RecordedSumAdds(metas, before + [v], after);
    RecordedSumAdds(metas, before, [v]);
    RecordedSumAdds(metas, before, after);
    assert [v][..0] == [];
  }

  /** CacheUsage sums in an int64, which wraps. */
  method CacheUsage(driver: Driver, names: seq<VolName>) returns (size: int)
    ensures size == Signed64(RecordedSum(driver.metas, names))
    ensures size == RecordedSum(driver.metas, names) <==> RecordedSum(driver.metas, names) < HALF
  {
    size := 0;
    for i := 0 to |names|
      invariant size == Signed64(RecordedSum(driver.metas, names[..i]))
    {
      assert names[..i + 1][..i] == names[..i];
      var recorded := driver.VolumeSize(names[i].id);
      match recorded {
        case None =>
        case Some(n) =>
          SumWraps(RecordedSum(driver.metas, names[..i]), n);
          size := Signed64(size + n);
      }
    }
    assert names[..|names|] == names;
  }
}
