/** What happens without two of the assumptions: one Create or Delete per image ID in flight, and a truthful
    `stat` at the end of the image cloner's Destroy. */
module CrowdedIds {
  import opened Options
  import opened ChainIds
  import opened Names
  import opened Contents
  import opened Protocol
  import opened Paths
  import opened Schedules
  import opened LeftoverSchedules
  import Leftovers

  lemma Swap(u: State, p: Pid, job: Job, pc: PC, q: Pid, job': Job, pc': PC)
    requires p != q
    ensures With(With(u, p, job, pc), q, job', pc') == With(With(u, q, job', pc'), p, job, pc)
  {
    assert u.procs[p := Proc(job, pc)][q := Proc(job', pc')] == u.procs[q := Proc(job', pc')][p := Proc(job, pc)];
  }

  // ----- two Creates of one ID

  /** The second Create has found the ID free, and both are about to make the directory. */
  lemma BothAboutToMake(cfg: Config, d: string, v: State)
    requires Live(Final(Base(d))) in v.vols && v.procs == map[] && v.flocks == Flocks({0}, None, map[]) && v.images == map[]
    ensures
      var m := With(v, 0, Building("a", d), Imaging(MakeImageDir));
      Connected(cfg, Spawned(m, 1, Building("a", d)), With(Sharing(m, 1), 1, Building("a", d), Imaging(MakeImageDir)))
  {
    var job := Building("a", d);
    var m := With(v, 0, job, Imaging(MakeImageDir));
    assert IsChain(job.chain);
    Stay(cfg, Spawned(m, 1, job));
    assert Spawned(m, 1, job) == With(m, 1, job, CheckId);
    CheckIt(cfg, Spawned(m, 1, job), m, 1, job);
    ShareIt(cfg, Spawned(m, 1, job), m, 1, job);
    FoundIt(cfg, Spawned(m, 1, job), Sharing(m, 1), 1, "a", d);
  }

  /** The loser of the race on the directory cleans up on its way out. */
  lemma LoserCleansUp(cfg: Config, s: State, u: State, d: string)
    requires Connected(cfg, s, With(u, 1, Building("a", d), Imaging(MakeImageDir))) && "a" in u.images
    ensures Connected(cfg, s, With(u.(images := u.images - {"a"}), 1, Building("a", d), UnlockShared))
  {
    var job, w := Building("a", d), u.(images := u.images - {"a"});
    assert IsChain(job.chain);
    assert Leads(cfg, u, 1, job, Imaging(MakeImageDir), No(), u, Imaging(DropImage));
    Onward(cfg, s, u, 1, job, Imaging(MakeImageDir), No(), u, Imaging(DropImage));
    assert Leads(cfg, u, 1, job, Imaging(DropImage), Yes(0), w, UnlockShared);
    Onward(cfg, s, u, 1, job, Imaging(DropImage), Yes(0), w, UnlockShared);
  }

  /** Let a second Create of the same ID in, and the one that loses the race on the image's directory removes
      the image that the other has made and registered. */
  lemma RaceLosesImage(cfg: Config, d: string) returns (m: State, s': State)
    requires Buildable(cfg, d)
    ensures Reachable(cfg, m) && 1 !in m.procs && !Possible(m, Spawn(1, Building("a", d)))
    ensures Connected(cfg, Spawned(m, 1, Building("a", d)), s')
    ensures "a" in s'.committed && "a" !in s'.images
  {
    var job := Building("a", d);
    var v := FirstPull(cfg, d);
    m := With(v, 0, job, Imaging(MakeImageDir));
    assert m.procs[0].job.Names("a");
    var s := Spawned(m, 1, job);
    BothAboutToMake(cfg, d, v);
    var u := With(Sharing(v, 1), 1, job, Imaging(MakeImageDir));
    Swap(Sharing(v, 1), 0, job, Imaging(MakeImageDir), 1, job, Imaging(MakeImageDir));
    assert With(Sharing(m, 1), 1, job, Imaging(MakeImageDir)) == With(u, 0, job, Imaging(MakeImageDir));
    s' := WinnerThenLoser(cfg, s, Sharing(v, 1), d);
  }

  lemma WinnerThenLoser(cfg: Config, s: State, v: State, d: string) returns (s': State)
    requires v.procs == map[] && "a" !in v.images && Live(Final(Base(d))) in v.vols
    requires Connected(cfg, s, With(With(v, 1, Building("a", d), Imaging(MakeImageDir)), 0, Building("a", d), Imaging(MakeImageDir)))
    ensures Connected(cfg, s, s') && "a" in s'.committed && "a" !in s'.images
  {
    var job := Building("a", d);
    var u := With(v, 1, job, Imaging(MakeImageDir));
    SnapIt(cfg, s, u, 0, "a", d);
    var w := WithImage(u, "a", Some(u.vols[Live(Final(Base(d)))]));
    RegisterIt(cfg, s, w, 0, "a", d);
    var x := Registered(WithImage(v, "a", Some(v.vols[Live(Final(Base(d)))])), "a", d);
    assert Registered(w, "a", d) == With(x, 1, job, Imaging(MakeImageDir));
    Swap(x, 1, job, Imaging(MakeImageDir), 0, job, UnlockShared);
    var y := With(x, 0, job, UnlockShared);
    LoserCleansUp(cfg, s, y, d);
    s' := With(y.(images := y.images - {"a"}), 1, job, UnlockShared);
  }

  // ----- a Create during a Delete of the same ID

  /** Let a Create in between the two steps of a Delete of the same ID, and the Delete drops the record of the
      image that the Create has registered. */
  lemma LateDeregisterDropsRecord(cfg: Config, d: string) returns (m: State, s': State)
    requires Buildable(cfg, d)
    ensures Reachable(cfg, m) && 2 !in m.procs && !Possible(m, Spawn(2, Building("a", d)))
    ensures Connected(cfg, Spawned(m, 2, Building("a", d)), s')
    ensures "a" in s'.committed && "a" in s'.images && "a" !in s'.records
  {
    var job := Building("a", d);
    var t := FirstRegistered(cfg, d);
    DestroyIt(cfg, INIT, t, "a");
    var u := Undone(t, "a");
    m := With(u, 1, Delete("a"), Deleting(Deregister));
    assert m.procs[1].job.Names("a");
    var s := Spawned(m, 2, job);
    assert s == With(m, 2, job, CheckId) && IsChain(job.chain);
    Stay(cfg, s);
    CheckIt(cfg, s, m, 2, job);
    ShareIt(cfg, s, m, 2, job);
    FoundIt(cfg, s, Sharing(m, 2), 2, "a", d);
    SnapIt(cfg, s, Sharing(m, 2), 2, "a", d);
    var x := WithImage(Sharing(m, 2), "a", Some(u.vols[Live(Final(Base(d)))]));
    RegisterIt(cfg, s, x, 2, "a", d);
    s' := Deregistered(cfg, s, With(Registered(x, "a", d), 2, job, UnlockShared));
  }

  lemma Deregistered(cfg: Config, s: State, y: State) returns (s': State)
    requires Connected(cfg, s, y) && 1 in y.procs && y.procs[1] == Proc(Delete("a"), Deleting(Deregister))
    ensures Connected(cfg, s, s') && s'.committed == y.committed && s'.images == y.images && "a" !in s'.records
    ensures s'.procs == y.procs - {1}
  {
    s' := Exec(cfg, y, 1, Yes(0));
    GoStep(cfg, s, y, 1, Yes(0), s');
  }

  // ----- a Destroy that does not notice that it failed

  /** If the image is still there but the closing `stat` says otherwise, the Delete goes on to remove the
      record, and leaves an image without one. */
  lemma UnnoticedFailureAbandons(cfg: Config, d: string) returns (m: State, s': State)
    requires Buildable(cfg, d)
    ensures Reachable(cfg, m) && 1 in m.procs && m.procs[1] == Proc(Delete("a"), Deleting(DestroyImage)) && "a" in m.images
    ensures Connected(cfg, At(m, 1, Deleting(Deregister)), s') && Leftovers.Abandoned(s', "a")
  {
    var t := FirstRegistered(cfg, d);
    var v := t.(committed := t.committed - {"a"});
    SeekIt(cfg, INIT, t, v, "a");
    m := With(v, 1, Delete("a"), Deleting(DestroyImage));
    var y := At(m, 1, Deleting(Deregister));
    Stay(cfg, y);
    s' := Deregistered(cfg, y, y);
    assert s'.procs == map[];
  }
}
