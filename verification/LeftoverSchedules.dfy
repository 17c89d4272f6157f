/** Schedules that show what a failed Create can leave behind. */
module LeftoverSchedules {
  import opened Options
  import opened ChainIds
  import opened Names
  import opened Contents
  import opened Protocol
  import opened Paths
  import opened Schedules

  /** The image stays when the ownership of the snapshot, or a volume source, cannot be set up: no cleanup
      runs, and no record is made. */
  lemma StuckIt(cfg: Config, s: State, w: State, p: Pid, id: ImageId, d: string)
    requires Connected(cfg, s, With(w, p, Building(id, d), Imaging(FinishImage))) && p !in w.procs
    ensures Connected(cfg, s, w.(flocks := w.flocks.(shared := w.flocks.shared - {p})))
  {
    var job := Building(id, d);
    assert IsChain(job.chain);
    assert Leads(cfg, w, p, job, Imaging(FinishImage), No(), w, UnlockShared);
    Onward(cfg, s, w, p, job, Imaging(FinishImage), No(), w, UnlockShared);
    LeaveIt(cfg, s, w, p, id, d);
  }

  /** From the empty store to the finished pull, alone. */
  lemma FirstPull(cfg: Config, d: string) returns (v: State)
    requires Buildable(cfg, d)
    ensures Connected(cfg, INIT, With(v, 0, Building("a", d), Imaging(MakeImageDir)))
    ensures v.procs == map[] && v.flocks == Flocks({0}, None, map[]) && v.records == map[] && v.committed == map[]
    ensures v.images == map[] && Live(Final(Base(d))) in v.vols
  {
    var c, u := Base(d), Sharing(INIT, 0);
    Stay(cfg, INIT);
    Enter(cfg, INIT, INIT, 0, "a", d);
    WantIt(cfg, INIT, u, 0, "a", d);
    Build(cfg, INIT, u, 0, "a", d);
    var built := Built(cfg, Locked(u, 0, c), d);
    v := built.(flocks := built.flocks.(layers := built.flocks.layers - {c}));
    assert v.flocks.layers == map[];
    UnlockIt(cfg, INIT, built, 0, "a", d, v);
  }

  /** And on to the snapshot. */
  lemma FirstImage(cfg: Config, d: string) returns (w: State)
    requires Buildable(cfg, d)
    ensures Connected(cfg, INIT, With(w, 0, Building("a", d), Imaging(FinishImage)))
    ensures w.procs == map[] && w.flocks == Flocks({0}, None, map[]) && w.records == map[] && w.committed == map[]
    ensures w.images.Keys == {"a"} && Live(Final(Base(d))) in w.vols
  {
    var v := FirstPull(cfg, d);
    SnapIt(cfg, INIT, v, 0, "a", d);
    w := WithImage(v, "a", Some(v.vols[Live(Final(Base(d)))]));
  }

  /** And on to the end, the image registered and nobody at work. */
  lemma FirstRegistered(cfg: Config, d: string) returns (t: State)
    requires Buildable(cfg, d)
    ensures Reachable(cfg, t) && t.procs == map[] && t.flocks == INIT.flocks && Live(Final(Base(d))) in t.vols
    ensures "a" in t.images && "a" in t.records && t.records["a"].Complete?
  {
    var w := FirstImage(cfg, d);
    RegisterIt(cfg, INIT, w, 0, "a", d);
    LeaveIt(cfg, INIT, Registered(w, "a", d), 0, "a", d);
    var r := Registered(w, "a", d);
    assert r.flocks.shared - {0} == {};
    t := r.(flocks := INIT.flocks);
  }

  /** A Create whose ownership call fails ends with an image that has no record, and nobody at work. */
  lemma LeftoverWithoutRecord(cfg: Config, d: string) returns (s: State)
    requires Buildable(cfg, d)
    ensures Reachable(cfg, s) && s.procs == map[]
    ensures "a" in s.images && "a" !in s.records && "a" !in s.committed
  {
    var w := FirstImage(cfg, d);
    StuckIt(cfg, INIT, w, 0, "a", d);
    s := w.(flocks := w.flocks.(shared := w.flocks.shared - {0}));
  }

  function Undone(u: State, id: ImageId): State {
    u.(images := u.images - {id}, committed := u.committed - {id})
  }

  lemma SeekIt(cfg: Config, s: State, u: State, v: State, id: ImageId)
    requires Connected(cfg, s, u) && u.procs == map[] && id in u.images && v == u.(committed := u.committed - {id})
    ensures Connected(cfg, s, With(v, 1, Delete(id), Deleting(DestroyImage)))
  {
    var job := Delete(id);
    Extend(cfg, s, u, Spawn(1, job), With(v, 1, job, Deleting(CheckImage)));
    assert Leads(cfg, v, 1, job, Deleting(CheckImage), Yes(0), v, Deleting(DestroyImage));
    Onward(cfg, s, v, 1, job, Deleting(CheckImage), Yes(0), v, Deleting(DestroyImage));
  }

  lemma DestroyIt(cfg: Config, s: State, u: State, id: ImageId)
    requires Connected(cfg, s, u) && u.procs == map[] && id in u.images
    ensures Connected(cfg, s, With(Undone(u, id), 1, Delete(id), Deleting(Deregister)))
  {
    var job, v, w := Delete(id), u.(committed := u.committed - {id}), Undone(u, id);
    SeekIt(cfg, s, u, v, id);
    assert Leads(cfg, v, 1, job, Deleting(DestroyImage), Yes(0), w, Deleting(Deregister));
    Onward(cfg, s, v, 1, job, Deleting(DestroyImage), Yes(0), w, Deleting(Deregister));
  }

  lemma DeletedHalfway(cfg: Config, s: State, u: State, id: ImageId)
    requires Connected(cfg, s, u) && u.procs == map[] && u.flocks == INIT.flocks && id in u.images
    ensures Connected(cfg, s, Undone(u, id))
  {
    DestroyIt(cfg, s, u, id);
    var m := With(Undone(u, id), 1, Delete(id), Deleting(Deregister));
    assert Crashed(m, 1) == Undone(u, id) by {
      assert m.procs - {1} == map[];
      assert Crashed(m, 1).flocks.layers == map[];
    }
    Extend(cfg, s, m, Crash(1), Crashed(m, 1));
  }

  /** The same failure after a Delete of the same ID that died before it removed the record: the image that
      is left has the record of its predecessor. */
  lemma LeftoverWithStaleRecord(cfg: Config, d: string) returns (s: State)
    requires Buildable(cfg, d)
    ensures Reachable(cfg, s) && s.procs == map[]
    ensures "a" in s.images && "a" in s.records && s.records["a"].Complete? && "a" !in s.committed
  {
    var t := FirstRegistered(cfg, d);
    DeletedHalfway(cfg, INIT, t, "a");
    var u := Undone(t, "a");
    Enter(cfg, INIT, u, 0, "a", d);
    FoundIt(cfg, INIT, Sharing(u, 0), 0, "a", d);
    SnapIt(cfg, INIT, Sharing(u, 0), 0, "a", d);
    var x := WithImage(Sharing(u, 0), "a", Some(u.vols[Live(Final(Base(d)))]));
    StuckIt(cfg, INIT, x, 0, "a", d);
    s := x.(flocks := x.flocks.(shared := x.flocks.shared - {0}));
  }
}
