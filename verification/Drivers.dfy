/** store/filesystems/btrfs/driver.go and store/filesystems/common.go, seen from one process. */
module Drivers {
  import opened Options
  import opened Trees
  import opened Names
  import opened Contents
  import opened Volumes

  class Driver {
    const cfg: Config
    var vols: Vols
    var metas: Metas

    constructor (cfg: Config)
      ensures this.cfg == cfg && vols == map[] && metas == map[]
    {
      this.cfg, vols, metas := cfg, map[], map[];
    }

    method VolumePath(v: VolName) returns (found: bool)
      ensures found <==> v in vols
    {
      found := v in vols;
    }

    /** An empty subvolume, or a snapshot of the parent; only a snapshot needs its name to be free, for
        otherwise it would land inside the volume of that name. */
    method CreateVolume(parent: Option<VolName>, v: VolName) returns (ok: bool)
      requires parent.Some? ==> v !in vols
      modifies this`vols
      ensures ok <==> if parent.None? then v !in old(vols) else parent.value in old(vols)
      ensures ok ==> vols == old(vols)[v := Source(cfg, old(vols), parent).value]
      ensures !ok ==> vols == old(vols)
    {
      var source := Source(cfg, vols, parent);
      ok := source.Some? && v !in vols;
      if ok {
        vols := vols[v := source.value];
      }
    }

    method MoveVolume(src: VolName, dst: VolName) returns (ok: bool)
      modifies this`vols
      ensures ok <==> dst in old(vols) || src in old(vols)
      ensures vols == if ok then Moved(old(vols), src, dst).value else old(vols)
    {
      ok := true;
      if dst in vols {
        // rename(2) answers EEXIST, which MoveVolume takes for success
      } else if src in vols {
        vols := (vols - {src})[dst := vols[src]];
      } else {
        ok := false;
      }
    }

    /** The metadata file goes first, and goes even when there is no such volume. */
    method DestroyVolume(v: VolName) returns (ok: bool)
      modifies this`vols, this`metas
      ensures ok <==> v in old(vols)
      ensures vols == old(vols) - {v} && metas == old(metas) - {v.id}
    {
      metas := metas - {v.id};
      ok := v in vols;
      vols := vols - {v};
    }

    method Volumes() returns (names: seq<VolName>)
      ensures forall v :: v in names <==> v in vols
      ensures forall i, j | 0 <= i < j < |names| :: names[i] != names[j]
    {
      names := [];
      var rest := vols.Keys;
      while rest != {}
        invariant rest <= vols.Keys
        invariant forall v :: v in names <==> v in vols.Keys - rest
        invariant forall i, j | 0 <= i < j < |names| :: names[i] != names[j]
        decreases |rest|
      {
        var v :| v in rest;
        assert v !in names;
        names := names + [v];
        rest := rest - {v};
      }
    }

    method WriteVolumeMeta(id: VolumeId, bytes: nat)
      modifies this`metas
      ensures metas == old(metas)[id := Size(bytes)]
    {
      metas := metas[id := Size(bytes)];
    }

    /** What the last writer of the metadata put there, if it is there and was not cut short. */
    method VolumeSize(id: VolumeId) returns (size: Option<nat>)
      ensures size.Some? ==> id in metas && metas[id] == Size(size.value)
      ensures size.None? ==> id !in metas || metas[id].Garbled?
    {
      if id in metas && metas[id].Size? {
        size := Some(metas[id].bytes);
      } else {
        size := None;
      }
    }

    /** The volume's tree after one of the steps that fill it. */
    method Fill(v: VolName, t: Tree)
      requires v in vols
      modifies this`vols
      ensures vols == old(vols)[v := t]
    {
      vols := vols[v := t];
    }
  }
}
