/** base_image_puller/base_image_puller.go with no other process at work. */
module Puller {
  import opened Options
  import opened Trees
  import opened Numbers
  import opened Words
  import opened ChainIds
  import opened Names
  import opened Contents
  import opened Volumes
  import opened Drivers

  datatype PullLayer = PullLayer(chainID: ChainId, size: Int64)

  datatype QuotaSpec = QuotaSpec(diskLimit: int, excludeBaseImageFromQuota: bool)

  function LayersSize(layers: seq<PullLayer>): int {
    if layers == [] then 0 else LayersSize(layers[..|layers| - 1]) + layers[|layers| - 1].size
  }

  lemma {:induction false} LayersSizeAdds(layers: seq<PullLayer>, more: seq<PullLayer>)
    ensures LayersSize(layers + more) == LayersSize(layers) + LayersSize(more)
    decreases |more|
  {
    if more == [] {
      assert layers + more == layers;
    } else {
      var init := more[..|more| - 1];
      assert (layers + more)[..|layers + more| - 1] == layers + init;
      LayersSizeAdds(layers, init);
    }
  }

  /** Every layer counts once, with its size. */
  lemma LayersSizeCounts(before: seq<PullLayer>, layer: PullLayer, after: seq<PullLayer>)
    ensures LayersSize(before + [layer] + after) == LayersSize(before + after) + layer.size
    ensures LayersSize([]) == 0
  {
    LayersSizeAdds(before + [layer], after);
    LayersSizeAdds(before, [layer]);
    LayersSizeAdds(before, after);
    assert [layer][..0] == [];
  }

  /** The highest layer up to `index` whose volume is there, or -1. */
  function HighestCached(vols: Vols, cs: seq<ChainId>, index: int): (k: int)
    requires -1 <= index < |cs|
    ensures -1 <= k <= index
    ensures k >= 0 ==> Live(Final(cs[k])) in vols
    ensures forall j | k < j <= index :: Live(Final(cs[j])) !in vols
  {
    if index < 0 || Live(Final(cs[index])) in vols then index else HighestCached(vols, cs, index - 1)
  }

  function Reverse(cs: seq<ChainId>): seq<ChainId> {
    if cs == [] then [] else [cs[|cs| - 1]] + Reverse(cs[..|cs| - 1])
  }

  /** Every finished volume holds what its chain denotes. */
  ghost predicate StoreOk(cfg: Config, vols: Vols) {
    forall c | Live(Final(c)) in vols :: Denote(cfg, c) == Some(vols[Live(Final(c))])
  }

  /** The volumes of `cs` added to `vols`. */
  ghost predicate Adds(cfg: Config, before: Vols, cs: seq<ChainId>, after: Vols) {
    && (forall v :: v in after <==> v in before || (v.Live? && v.id.Final? && v.id.chain in cs))
    && (forall v | v in before :: after[v] == before[v])
    && (forall c | c in cs && Live(Final(c)) in after :: Denote(cfg, c) == Some(after[Live(Final(c))]))
  }

  ghost predicate AddsMeta(cfg: Config, before: Metas, cs: seq<ChainId>, after: Metas) {
    && (forall id :: id in after <==> id in before || (id.Final? && id.chain in cs))
    && (forall c | c in cs && Final(c) in after :: after[Final(c)] == Size(cfg.size(c)))
    && (forall id | id in before && !(id.Final? && id.chain in cs) :: after[id] == before[id])
  }

  /** A failed build leaves its temporary volume behind, in whatever state, and nothing else. */
  predicate LeavesTemp(before: Vols, temp: VolName, after: Vols) {
    temp in after && after == before[temp := after[temp]]
  }

  lemma StoreOkWithTemp(cfg: Config, before: Vols, temp: VolName, after: Vols)
    requires StoreOk(cfg, before) && temp.Live? && temp.id.Temp? && LeavesTemp(before, temp, after)
    ensures StoreOk(cfg, after)
  {
  }

  /** Renaming the filled temporary volume adds the final one and nothing else. */
  lemma FinishedIs(cfg: Config, before: Vols, temp: VolName, after: Vols, c: ChainId)
    requires StoreOk(cfg, before) && temp !in before && temp.Live? && temp.id.Temp? && LeavesTemp(before, temp, after)
    requires Live(Final(c)) !in before && Denote(cfg, c) == Some(after[temp])
    ensures Moved(after, temp, Live(Final(c))) == Some(before[Live(Final(c)) := after[temp]])
    ensures StoreOk(cfg, before[Live(Final(c)) := after[temp]])
  {
    assert (after - {temp})[Live(Final(c)) := after[temp]] == before[Live(Final(c)) := after[temp]];
  }

  lemma ChainDistinct(cs: seq<ChainId>, i: nat, j: nat)
    requires IsChain(cs) && i < j < |cs|
    ensures cs[i] != cs[j]
  {
  }

  class BaseImagePuller {
    const driver: Driver
    /** The next stamp for a temporary volume. */
    var stamp: nat
    /** The layer locks held, and the order in which they were taken. */
    var held: set<ChainId>
    var acquired: seq<ChainId>
    /** The volumes finished, in order. */
    var finalized: seq<ChainId>

    constructor (driver: Driver, stamp: nat)
      ensures this.driver == driver && this.stamp == stamp && held == {} && acquired == [] && finalized == []
    {
      this.driver, this.stamp, held, acquired, finalized := driver, stamp, {}, [], [];
    }

    ghost predicate Valid()
      reads this, driver
    {
      && StoreOk(driver.cfg, driver.vols)
      && forall v | v in driver.vols && v.Live? && v.id.Temp? :: v.id.stamp < stamp
    }

    method LayersSizeOf(layers: seq<PullLayer>) returns (total: int)
      ensures total == Signed64(LayersSize(layers))
    {
      total := 0;
      for i := 0 to |layers|
        invariant total == Signed64(LayersSize(layers[..i]))
      {
        assert layers[..i + 1][..i] == layers[..i];
        SumWraps(LayersSize(layers[..i]), layers[i].size);
        total := Signed64(total + layers[i].size);
      }
      assert layers[..|layers|] == layers;
    }

    method QuotaExceeded(layers: seq<PullLayer>, spec: QuotaSpec) returns (exceeded: bool)
      ensures exceeded <==> !spec.excludeBaseImageFromQuota && spec.diskLimit != 0 && Signed64(LayersSize(layers)) > spec.diskLimit
    {
      if spec.excludeBaseImageFromQuota || spec.diskLimit == 0 {
        return false;
      }
      var total := LayersSizeOf(layers);
      return total > spec.diskLimit;
    }

    method CreateTemporaryVolume(c: ChainId) returns (temp: VolName)
      requires Valid() && (c.Node? ==> Live(Final(c.parent)) in driver.vols)
      modifies this`stamp, driver`vols
      ensures temp == Live(Temp(c, old(stamp))) && temp !in old(driver.vols) && stamp == old(stamp) + 1
      ensures Start(driver.cfg, c).Some?
      ensures driver.vols == old(driver.vols)[temp := ChownRoot(driver.cfg, Start(driver.cfg, c).value)]
      ensures
        var from := if c.Node? then old(driver.vols)[Live(Final(c.parent))] else map[[] := Dir(driver.cfg.newVolume)];
        GivenToOwner(driver.cfg, from, driver.vols[temp])
    {
      temp := Live(Temp(c, stamp));
      stamp := stamp + 1;
      var parent := if c.Node? then Some(Live(Final(c.parent))) else None;
      var created := driver.CreateVolume(parent, temp);
      ChownRootGives(driver.cfg, driver.vols[temp]);
      driver.Fill(temp, ChownRoot(driver.cfg, driver.vols[temp]));
    }

    /** The base-directory half of unpackLayerToTemporaryDirectory. */
    method PrepareTemporary(c: ChainId, temp: VolName) returns (ok: bool)
      requires StoreOk(driver.cfg, driver.vols) && (c.Node? ==> Live(Final(c.parent)) in driver.vols)
      requires temp.Live? && temp.id.Temp? && temp in driver.vols
      requires Start(driver.cfg, c).Some? && driver.vols[temp] == ChownRoot(driver.cfg, Start(driver.cfg, c).value)
      modifies driver`vols
      ensures ok <==> Prepared(driver.cfg, c).Some?
      ensures LeavesTemp(old(driver.vols), temp, driver.vols)
      ensures ok ==> driver.vols[temp] == Prepared(driver.cfg, c).value
    {
      var t := driver.vols[temp];
      var parent := if c.Node? then driver.vols[Live(Final(c.parent))] else map[];
      assert Prepared(driver.cfg, c) == Prepare(driver.cfg, c, t, parent);
      assert driver.vols == driver.vols[temp := t];
      if driver.cfg.baseDirectory(c).None? {
        return true;
      }
      var prepared := driver.cfg.prepare(c, t, parent);
      ok := prepared.Some?;
      var junk: Tree := *;
      driver.Fill(temp, if ok then prepared.value else junk);
    }

    /** The unpacking half; a failed unpack goes on to destroy the final name. */
    method FillTemporary(c: ChainId, temp: VolName) returns (ok: bool, bytes: nat)
      requires Live(Final(c)) !in driver.vols && temp.Live? && temp.id.Temp? && temp in driver.vols
      requires Prepared(driver.cfg, c) == Some(driver.vols[temp])
      modifies driver
      ensures ok <==> Denote(driver.cfg, c).Some?
      ensures LeavesTemp(old(driver.vols), temp, driver.vols)
      ensures ok ==> driver.vols[temp] == Denote(driver.cfg, c).value && bytes == driver.cfg.size(c) && driver.metas == old(driver.metas)
      ensures !ok ==> driver.metas == old(driver.metas) - {Final(c)}
    {
      var unpacked := driver.cfg.unpack(c, driver.vols[temp]);
      if unpacked.None? {
        var junk: Tree := *;
        driver.Fill(temp, junk);
        var destroyed := driver.DestroyVolume(Live(Final(c)));
        return false, 0;
      }
      driver.Fill(temp, unpacked.value);
      return true, driver.cfg.size(c);
    }

    /** unpackLayer and finalizeVolume. */
    method UnpackLayer(c: ChainId) returns (ok: bool)
      requires Valid() && (c.Node? ==> Live(Final(c.parent)) in driver.vols)
      requires Live(Final(c)) !in driver.vols
      modifies this`stamp, this`finalized, driver
      ensures Valid() && stamp == old(stamp) + 1
      ensures ok <==> Denote(driver.cfg, c).Some?
      ensures ok ==>
        && finalized == old(finalized) + [c]
        && driver.vols == old(driver.vols)[Live(Final(c)) := Denote(driver.cfg, c).value]
        && driver.metas == old(driver.metas)[Final(c) := Size(driver.cfg.size(c))]
      ensures !ok ==>
        && finalized == old(finalized)
        && LeavesTemp(old(driver.vols), Live(Temp(c, old(stamp))), driver.vols)
        && (driver.metas == old(driver.metas) || driver.metas == old(driver.metas) - {Final(c)})
      ensures Keeps(old(driver.vols), driver.vols)
    {
      ghost var before := driver.vols;
      var temp := CreateTemporaryVolume(c);
      StoreOkWithTemp(driver.cfg, before, temp, driver.vols);
      ok := PrepareTemporary(c, temp);
      StoreOkWithTemp(driver.cfg, before, temp, driver.vols);
      if !ok {
        return;
      }
      var bytes;
      ok, bytes := FillTemporary(c, temp);
      StoreOkWithTemp(driver.cfg, before, temp, driver.vols);
      if !ok {
        return;
      }
      driver.WriteVolumeMeta(Final(c), bytes);
      FinishedIs(driver.cfg, before, temp, driver.vols, c);
      var moved := driver.MoveVolume(temp, Live(Final(c)));
      finalized := finalized + [c];
    }

    /** The lock of a layer, taken and dropped around the second check and the build. */
    method Lock(c: ChainId)
      requires c !in held
      modifies this`held, this`acquired
      ensures held == old(held) + {c} && acquired == old(acquired) + [c]
    {
      held, acquired := held + {c}, acquired + [c];
    }

    method Unlock(c: ChainId)
      requires c in held
      modifies this`held
      ensures held == old(held) - {c}
    {
      held := held - {c};
    }

    /** Builds exactly the missing layers above the highest cached one: locks from the top down, volumes
        finished from the bottom up, every lock released; it fails exactly when the layers cannot be applied,
        and then too no finished volume is touched and no wrong one is made. */
    method BuildLayer(index: int, cs: seq<ChainId>) returns (ok: bool)
      requires IsChain(cs) && -1 <= index < |cs|
      requires Valid() && forall j | 0 <= j <= index :: cs[j] !in held
      modifies this, driver
      decreases index + 1, 2
      ensures Valid() && held == old(held)
      ensures ok <==> index < 0 || Denote(driver.cfg, cs[index]).Some?
      ensures acquired == old(acquired) + Reverse(Missing(old(driver.vols), cs, index))
      ensures ok ==> finalized == old(finalized) + Missing(old(driver.vols), cs, index)
      ensures ok ==> Adds(driver.cfg, old(driver.vols), Missing(old(driver.vols), cs, index), driver.vols)
      ensures ok ==> AddsMeta(driver.cfg, old(driver.metas), Missing(old(driver.vols), cs, index), driver.metas)
      ensures Keeps(old(driver.vols), driver.vols)
    {
      if index < 0 {
        NothingAdded(driver.cfg, driver.vols, driver.metas);
        return true;
      }
      var c := cs[index];
      var found := driver.VolumePath(Live(Final(c)));
      if found {
        NothingAdded(driver.cfg, driver.vols, driver.metas);
        return true;
      }
      ok := BuildUncached(index, cs);
    }

    /** The second check, under the layer's lock, and the build if the volume is still missing. */
    method BuildUncached(index: nat, cs: seq<ChainId>) returns (ok: bool)
      requires IsChain(cs) && index < |cs| && Live(Final(cs[index])) !in driver.vols
      requires Valid() && forall j | 0 <= j <= index :: cs[j] !in held
      modifies this, driver
      decreases index + 1, 1
      ensures Valid() && held == old(held)
      ensures ok <==> Denote(driver.cfg, cs[index]).Some?
      ensures acquired == old(acquired) + Reverse(Missing(old(driver.vols), cs, index))
      ensures ok ==> finalized == old(finalized) + Missing(old(driver.vols), cs, index)
      ensures ok ==> Adds(driver.cfg, old(driver.vols), Missing(old(driver.vols), cs, index), driver.vols)
      ensures ok ==> AddsMeta(driver.cfg, old(driver.metas), Missing(old(driver.vols), cs, index), driver.metas)
      ensures Keeps(old(driver.vols), driver.vols)
    {
      var c := cs[index];
      MissingOneMore(driver.vols, cs, index, acquired, finalized);
      Lock(c);
      var found := driver.VolumePath(Live(Final(c)));
      ok := found;
      if !found {
        assert forall j | 0 <= j < index :: cs[j] !in held by {
          forall j | 0 <= j < index ensures cs[j] != c { ChainDistinct(cs, j, index); }
        }
        ok := BuildAbsent(index, cs);
      }
      Unlock(c);
    }

    /** What happens under the layer's own lock: the parent first, then this layer. */
    method BuildAbsent(index: nat, cs: seq<ChainId>) returns (ok: bool)
      requires IsChain(cs) && index < |cs| && Live(Final(cs[index])) !in driver.vols
      requires Valid() && forall j | 0 <= j < index :: cs[j] !in held
      modifies this, driver
      decreases index + 1, 0
      ensures Valid() && held == old(held)
      ensures ok <==> Denote(driver.cfg, cs[index]).Some?
      ensures acquired == old(acquired) + Reverse(Missing(old(driver.vols), cs, index - 1))
      ensures ok ==> finalized == old(finalized) + Missing(old(driver.vols), cs, index - 1) + [cs[index]]
      ensures ok ==> Adds(driver.cfg, old(driver.vols), Missing(old(driver.vols), cs, index - 1) + [cs[index]], driver.vols)
      ensures ok ==> AddsMeta(driver.cfg, old(driver.metas), Missing(old(driver.vols), cs, index - 1) + [cs[index]], driver.metas)
      ensures Keeps(old(driver.vols), driver.vols)
    {
      var c := cs[index];
      ghost var missing := Missing(driver.vols, cs, index - 1);
      ok := BuildLayer(index - 1, cs);
      if !ok {
        ParentDenotedFails(driver.cfg, cs, index);
        return;
      }
      BuiltBelow(driver.cfg, old(driver.vols), cs, index, driver.vols);
      ok := BuildOnParent(c, old(driver.vols), old(driver.metas), missing);
    }

    /** This layer on top of the `missing` ones, which were built since `before`. */
    method BuildOnParent(c: ChainId, ghost before: Vols, ghost metas: Metas, ghost missing: seq<ChainId>) returns (ok: bool)
      requires Valid() && (c.Node? ==> Live(Final(c.parent)) in driver.vols) && Live(Final(c)) !in driver.vols
      requires Adds(driver.cfg, before, missing, driver.vols) && AddsMeta(driver.cfg, metas, missing, driver.metas)
      requires Keeps(before, driver.vols)
      modifies this`stamp, this`finalized, driver
      ensures Valid() && Keeps(before, driver.vols)
      ensures ok <==> Denote(driver.cfg, c).Some?
      ensures ok ==> finalized == old(finalized) + [c]
      ensures ok ==> Adds(driver.cfg, before, missing + [c], driver.vols) && AddsMeta(driver.cfg, metas, missing + [c], driver.metas)
    {
      ok := UnpackLayer(c);
      KeepsTransitive(before, old(driver.vols), driver.vols);
      if ok {
        OneMore(driver.cfg, before, missing, old(driver.vols), c, driver.vols);
        OneMoreMeta(driver.cfg, metas, missing, old(driver.metas), c, driver.metas);
      }
    }

    function ChainsOf(layers: seq<PullLayer>): (cs: seq<ChainId>)
      ensures |cs| == |layers| && forall i | 0 <= i < |layers| :: cs[i] == layers[i].chainID
    {
      seq(|layers|, i requires 0 <= i < |layers| => layers[i].chainID)
    }

    /** A pull over quota does nothing; any other leaves no lock behind and, if it succeeds, the whole image. */
    method Pull(layers: seq<PullLayer>, spec: QuotaSpec) returns (ok: bool)
      requires IsChain(ChainsOf(layers)) && Valid() && held == {}
      modifies this, driver
      ensures Valid() && held == {}
      ensures ok <==>
        && (spec.excludeBaseImageFromQuota || spec.diskLimit == 0 || Signed64(LayersSize(layers)) <= spec.diskLimit)
        && Denote(driver.cfg, layers[|layers| - 1].chainID).Some?
      ensures ok ==>
        var missing := Missing(old(driver.vols), ChainsOf(layers), |layers| - 1);
        && acquired == old(acquired) + Reverse(missing) && finalized == old(finalized) + missing
        && Adds(driver.cfg, old(driver.vols), missing, driver.vols) && AddsMeta(driver.cfg, old(driver.metas), missing, driver.metas)
      ensures Keeps(old(driver.vols), driver.vols)
    {
      var exceeded := QuotaExceeded(layers, spec);
      if exceeded {
        return false;
      }
      ok := BuildLayer(|layers| - 1, ChainsOf(layers));
    }
  }

  /** The layers up to `index` that have to be built: those above the first one found cached on the way down. */
  function Missing(vols: Vols, cs: seq<ChainId>, index: int): seq<ChainId>
    requires -1 <= index < |cs|
  {
    if index < 0 || Live(Final(cs[index])) in vols then [] else Missing(vols, cs, index - 1) + [cs[index]]
  }

  /** They are exactly the layers above the highest cached one. */
  lemma {:induction false} MissingIsAboveHighestCached(vols: Vols, cs: seq<ChainId>, index: int)
    requires -1 <= index < |cs|
    ensures Missing(vols, cs, index) == cs[HighestCached(vols, cs, index) + 1..index + 1]
    decreases index + 1
  {
    if index >= 0 && Live(Final(cs[index])) !in vols {
      MissingIsAboveHighestCached(vols, cs, index - 1);
      var k := HighestCached(vols, cs, index - 1);
      assert cs[k + 1..index + 1] == cs[k + 1..index] + [cs[index]];
    }
  }

  ghost predicate Keeps(before: Vols, after: Vols) {
    forall v | v in before :: v in after && after[v] == before[v]
  }

  lemma KeepsTransitive(before: Vols, mid: Vols, after: Vols)
    requires Keeps(before, mid) && Keeps(mid, after)
    ensures Keeps(before, after)
  {
  }

  /** The lock of a missing layer goes before those of the missing layers below, its volume after theirs. */
  lemma MissingOneMore(vols: Vols, cs: seq<ChainId>, index: nat, acquired: seq<ChainId>, finalized: seq<ChainId>)
    requires index < |cs| && Live(Final(cs[index])) !in vols
    ensures
      var missing := Missing(vols, cs, index - 1);
      && Missing(vols, cs, index) == missing + [cs[index]]
      && finalized + Missing(vols, cs, index) == finalized + missing + [cs[index]]
      && acquired + Reverse(Missing(vols, cs, index)) == acquired + [cs[index]] + Reverse(missing)
  {
  }

  lemma NothingAdded(cfg: Config, vols: Vols, metas: Metas)
    ensures Adds(cfg, vols, [], vols) && AddsMeta(cfg, metas, [], metas)
  {
  }

  lemma {:induction false} MissingBelow(vols: Vols, cs: seq<ChainId>, index: int, c: ChainId)
    requires IsChain(cs) && -1 <= index < |cs| && Depth(c) > index + 1
    ensures c !in Missing(vols, cs, index)
    decreases index + 1
  {
    if index >= 0 && Live(Final(cs[index])) !in vols {
      MissingBelow(vols, cs, index - 1, c);
      assert Depth(cs[index]) == index + 1;
    }
  }

  /** With the layers below built, the layer to build next has its parent there and is itself absent. */
  lemma BuiltBelow(cfg: Config, before: Vols, cs: seq<ChainId>, index: nat, after: Vols)
    requires IsChain(cs) && index < |cs| && Live(Final(cs[index])) !in before
    requires Adds(cfg, before, Missing(before, cs, index - 1), after)
    ensures cs[index].Node? ==> Live(Final(cs[index].parent)) in after
    ensures Live(Final(cs[index])) !in after
  {
    assert Depth(cs[index]) == index + 1;
    MissingBelow(before, cs, index - 1, cs[index]);
    if index > 0 {
      var m := Missing(before, cs, index - 1);
      assert Live(Final(cs[index - 1])) !in before ==> m[|m| - 1] == cs[index - 1];
    }
  }

  lemma OneMore(cfg: Config, before: Vols, cs: seq<ChainId>, mid: Vols, c: ChainId, after: Vols)
    requires Adds(cfg, before, cs, mid) && Live(Final(c)) !in mid && Denote(cfg, c).Some?
    requires after == mid[Live(Final(c)) := Denote(cfg, c).value]
    ensures Adds(cfg, before, cs + [c], after)
  {
  }

  lemma OneMoreMeta(cfg: Config, before: Metas, cs: seq<ChainId>, mid: Metas, c: ChainId, after: Metas)
    requires AddsMeta(cfg, before, cs, mid)
    requires after == mid[Final(c) := Size(cfg.size(c))]
    ensures AddsMeta(cfg, before, cs + [c], after)
  {
  }

  lemma ParentDenotedFails(cfg: Config, cs: seq<ChainId>, j: nat)
    requires IsChain(cs) && 0 < j < |cs|
    requires Denote(cfg, cs[j - 1]).None?
    ensures Denote(cfg, cs[j]).None?
  {
    assert Start(cfg, cs[j]) == Denote(cfg, cs[j - 1]);
  }
}
