/** Schedules that show what the protocol does not promise: metadata beside every volume, and survival of
    a second existence check that answers wrongly. */
module Schedules {
  import opened Options
  import opened Trees
  import opened ChainIds
  import opened Names
  import opened Contents
  import opened Volumes
  import opened Protocol
  import opened Paths

  // ----- a single layer

  function Building(id: ImageId, d: string): Job {
    Create(id, [Base(d)], false)
  }

  /** The layer can be applied. */
  predicate Buildable(cfg: Config, d: string) {
    Denote(cfg, Base(d)).Some?
  }

  function Made(cfg: Config, d: string): Tree
    requires Buildable(cfg, d)
  {
    Denote(cfg, Base(d)).value
  }

  lemma BuildableFacts(cfg: Config, d: string)
    requires Buildable(cfg, d)
    ensures IsChain([Base(d)]) && Prepared(cfg, Base(d)).Some?
    ensures Prepare(cfg, Base(d), ChownRoot(cfg, EmptyVolume(cfg)), map[]) == Prepared(cfg, Base(d))
    ensures cfg.unpack(Base(d), Prepared(cfg, Base(d)).value) == Some(Made(cfg, d))
  {
    assert Start(cfg, Base(d)) == Some(EmptyVolume(cfg));
  }

  // ----- coming in

  lemma ArriveIt(cfg: Config, s: State, u: State, p: Pid, job: Job)
    requires p !in u.procs && job.Create? && IsChain(job.chain) && Connected(cfg, s, u)
    requires forall q | q in u.procs :: !u.procs[q].job.Names(job.id)
    ensures Connected(cfg, s, With(u, p, job, CheckId))
  {
    Extend(cfg, s, u, Spawn(p, job), With(u, p, job, CheckId));
  }

  lemma CheckIt(cfg: Config, s: State, u: State, p: Pid, job: Job)
    requires job.Create? && IsChain(job.chain) && !job.cleanFirst && job.id !in u.images
    requires Connected(cfg, s, With(u, p, job, CheckId))
    ensures Connected(cfg, s, With(u, p, job, LockShared))
  {
    assert Leads(cfg, u, p, job, CheckId, Yes(0), u, FetchInfo);
    Onward(cfg, s, u, p, job, CheckId, Yes(0), u, FetchInfo);
    assert Leads(cfg, u, p, job, FetchInfo, Yes(0), u, LockShared);
    Onward(cfg, s, u, p, job, FetchInfo, Yes(0), u, LockShared);
  }

  function Sharing(u: State, p: Pid): State {
    u.(flocks := u.flocks.(shared := u.flocks.shared + {p}))
  }

  lemma JoinIt(cfg: Config, s: State, u: State, p: Pid, job: Job)
    requires job.Create? && IsChain(job.chain) && u.flocks.exclusive.None?
    requires Connected(cfg, s, With(u, p, job, LockShared))
    ensures Connected(cfg, s, With(Sharing(u, p), p, job, CheckQuota))
  {
    assert Leads(cfg, u, p, job, LockShared, Yes(0), Sharing(u, p), CheckQuota);
    Onward(cfg, s, u, p, job, LockShared, Yes(0), Sharing(u, p), CheckQuota);
  }

  lemma ShareIt(cfg: Config, s: State, u: State, p: Pid, job: Job)
    requires job.Create? && IsChain(job.chain) && u.flocks.exclusive.None?
    requires Connected(cfg, s, With(u, p, job, LockShared))
    ensures Connected(cfg, s, With(Sharing(u, p), p, job, Layer(|job.chain| - 1, Probe)))
  {
    var v := Sharing(u, p);
    JoinIt(cfg, s, u, p, job);
    assert Leads(cfg, v, p, job, CheckQuota, Yes(0), v, Layer(|job.chain| - 1, Probe));
    Onward(cfg, s, v, p, job, CheckQuota, Yes(0), v, Layer(|job.chain| - 1, Probe));
  }

  /** `p` arrives, finds its ID free, and comes to its first look at the layer. */
  lemma Enter(cfg: Config, s: State, u: State, p: Pid, id: ImageId, d: string)
    requires Connected(cfg, s, u)
    requires p !in u.procs && id !in u.images && u.flocks.exclusive.None?
    requires forall q | q in u.procs :: !u.procs[q].job.Names(id)
    ensures Connected(cfg, s, With(Sharing(u, p), p, Building(id, d), Layer(0, Probe)))
  {
    var job := Building(id, d);
    assert IsChain(job.chain);
    ArriveIt(cfg, s, u, p, job);
    CheckIt(cfg, s, u, p, job);
    ShareIt(cfg, s, u, p, job);
  }

  // ----- building the layer

  function Locked(u: State, p: Pid, c: ChainId): State {
    u.(flocks := u.flocks.(layers := u.flocks.layers[c := p]))
  }

  lemma WantIt(cfg: Config, s: State, u: State, p: Pid, id: ImageId, d: string)
    requires Connected(cfg, s, With(u, p, Building(id, d), Layer(0, Probe)))
    requires Live(Final(Base(d))) !in u.vols
    ensures Connected(cfg, s, With(u, p, Building(id, d), Layer(0, LockLayer)))
  {
    var job := Building(id, d);
    assert IsChain(job.chain);
    assert Leads(cfg, u, p, job, Layer(0, Probe), Yes(0), u, Layer(0, LockLayer));
    Onward(cfg, s, u, p, job, Layer(0, Probe), Yes(0), u, Layer(0, LockLayer));
  }

  lemma LockIt(cfg: Config, s: State, u: State, p: Pid, id: ImageId, d: string)
    requires Connected(cfg, s, With(u, p, Building(id, d), Layer(0, LockLayer)))
    requires Base(d) !in u.flocks.layers
    ensures Connected(cfg, s, With(Locked(u, p, Base(d)), p, Building(id, d), Layer(0, Reprobe)))
  {
    var job, v := Building(id, d), Locked(u, p, Base(d));
    assert IsChain(job.chain);
    assert Leads(cfg, u, p, job, Layer(0, LockLayer), Yes(0), v, Layer(0, Reprobe));
    Onward(cfg, s, u, p, job, Layer(0, LockLayer), Yes(0), v, Layer(0, Reprobe));
  }

  lemma RecheckIt(cfg: Config, s: State, v: State, p: Pid, id: ImageId, d: string)
    requires Connected(cfg, s, With(v, p, Building(id, d), Layer(0, Reprobe))) && Live(Final(Base(d))) !in v.vols
    ensures Connected(cfg, s, With(v, p, Building(id, d), Layer(0, Download)))
  {
    var job := Building(id, d);
    assert IsChain(job.chain);
    assert Leads(cfg, v, p, job, Layer(0, Reprobe), Yes(0), v, Layer(0, Download));
    Onward(cfg, s, v, p, job, Layer(0, Reprobe), Yes(0), v, Layer(0, Download));
  }

  lemma DownloadIt(cfg: Config, s: State, v: State, p: Pid, id: ImageId, d: string)
    requires Connected(cfg, s, With(v, p, Building(id, d), Layer(0, Download)))
    ensures Connected(cfg, s, With(v, p, Building(id, d), Layer(0, CreateTemp)))
  {
    var job := Building(id, d);
    assert IsChain(job.chain);
    assert Leads(cfg, v, p, job, Layer(0, Download), Yes(0), v, Layer(0, CreateTemp));
    Onward(cfg, s, v, p, job, Layer(0, Download), Yes(0), v, Layer(0, CreateTemp));
  }

  lemma CreateIt(cfg: Config, s: State, u: State, p: Pid, id: ImageId, d: string)
    requires Connected(cfg, s, With(u, p, Building(id, d), Layer(0, CreateTemp)))
    requires Live(Temp(Base(d), 0)) !in u.vols
    ensures Connected(cfg, s, With(WithTemp(u, Base(d), 0, EmptyVolume(cfg)), p, Building(id, d), Layer(0, ChownTemp(0))))
  {
    var job, v := Building(id, d), WithTemp(u, Base(d), 0, EmptyVolume(cfg));
    assert IsChain(job.chain);
    assert Leads(cfg, u, p, job, Layer(0, CreateTemp), Yes(0), v, Layer(0, ChownTemp(0)));
    Onward(cfg, s, u, p, job, Layer(0, CreateTemp), Yes(0), v, Layer(0, ChownTemp(0)));
  }

  lemma TempTwice(u: State, c: ChainId, t: Tree, t': Tree)
    ensures WithTemp(WithTemp(u, c, 0, t), c, 0, t') == WithTemp(u, c, 0, t')
  {
    assert u.vols[Live(Temp(c, 0)) := t][Live(Temp(c, 0)) := t'] == u.vols[Live(Temp(c, 0)) := t'];
  }

  lemma ChownIt(cfg: Config, s: State, u: State, p: Pid, id: ImageId, d: string)
    requires Connected(cfg, s, With(WithTemp(u, Base(d), 0, EmptyVolume(cfg)), p, Building(id, d), Layer(0, ChownTemp(0))))
    ensures Connected(cfg, s, With(WithTemp(u, Base(d), 0, ChownRoot(cfg, EmptyVolume(cfg))), p, Building(id, d), Layer(0, BaseDir(0))))
  {
    var job := Building(id, d);
    assert IsChain(job.chain);
    var v, w := WithTemp(u, Base(d), 0, EmptyVolume(cfg)), WithTemp(u, Base(d), 0, ChownRoot(cfg, EmptyVolume(cfg)));
    TempTwice(u, Base(d), EmptyVolume(cfg), ChownRoot(cfg, EmptyVolume(cfg)));
    assert Leads(cfg, v, p, job, Layer(0, ChownTemp(0)), Yes(0), w, Layer(0, BaseDir(0)));
    Onward(cfg, s, v, p, job, Layer(0, ChownTemp(0)), Yes(0), w, Layer(0, BaseDir(0)));
  }

  lemma BaseLeads(cfg: Config, u: State, p: Pid, id: ImageId, d: string)
    requires Buildable(cfg, d) && Prepared(cfg, Base(d)).Some?
    ensures Leads(cfg, WithTemp(u, Base(d), 0, ChownRoot(cfg, EmptyVolume(cfg))), p, Building(id, d), Layer(0, BaseDir(0)), Yes(0),
                  WithTemp(u, Base(d), 0, Prepared(cfg, Base(d)).value), Layer(0, UnpackTemp(0)))
  {
    var t, t' := ChownRoot(cfg, EmptyVolume(cfg)), Prepared(cfg, Base(d)).value;
    BuildableFacts(cfg, d);
    TempTwice(u, Base(d), t, t');
    var v := WithTemp(u, Base(d), 0, t);
    var m := With(v, p, Building(id, d), Layer(0, BaseDir(0)));
    assert IsChain(Building(id, d).chain) && Possible(m, Go(p, Yes(0)));
    assert LookupTree(m.vols, ParentOf(Building(id, d).chain, 0)) == Some(map[]);
    if cfg.baseDirectory(Base(d)).None? {
      assert t' == t;
      assert StepLayer(cfg, m, p, Yes(0)) == At(m, p, Layer(0, UnpackTemp(0)));
    } else {
      assert StepLayer(cfg, m, p, Yes(0)) == At(WithTemp(m, Base(d), 0, t'), p, Layer(0, UnpackTemp(0)));
    }
  }

  lemma BaseIt(cfg: Config, s: State, u: State, p: Pid, id: ImageId, d: string)
    requires Buildable(cfg, d) && Prepared(cfg, Base(d)).Some?
    requires Connected(cfg, s, With(WithTemp(u, Base(d), 0, ChownRoot(cfg, EmptyVolume(cfg))), p, Building(id, d), Layer(0, BaseDir(0))))
    ensures Connected(cfg, s, With(WithTemp(u, Base(d), 0, Prepared(cfg, Base(d)).value), p, Building(id, d), Layer(0, UnpackTemp(0))))
  {
    BaseLeads(cfg, u, p, id, d);
    Onward(cfg, s, WithTemp(u, Base(d), 0, ChownRoot(cfg, EmptyVolume(cfg))), p, Building(id, d), Layer(0, BaseDir(0)), Yes(0),
           WithTemp(u, Base(d), 0, Prepared(cfg, Base(d)).value), Layer(0, UnpackTemp(0)));
  }

  lemma UnpackLeads(cfg: Config, u: State, p: Pid, id: ImageId, d: string)
    requires Buildable(cfg, d) && Prepared(cfg, Base(d)).Some?
    ensures Leads(cfg, WithTemp(u, Base(d), 0, Prepared(cfg, Base(d)).value), p, Building(id, d), Layer(0, UnpackTemp(0)), Yes(0),
                  WithTemp(u, Base(d), 0, Made(cfg, d)), Layer(0, HandleOpaque(0, cfg.size(Base(d)))))
  {
    BuildableFacts(cfg, d);
    TempTwice(u, Base(d), Prepared(cfg, Base(d)).value, Made(cfg, d));
  }

  lemma UnpackIt(cfg: Config, s: State, u: State, p: Pid, id: ImageId, d: string)
    requires Buildable(cfg, d) && Prepared(cfg, Base(d)).Some?
    requires Connected(cfg, s, With(WithTemp(u, Base(d), 0, Prepared(cfg, Base(d)).value), p, Building(id, d), Layer(0, UnpackTemp(0))))
    ensures Connected(cfg, s, With(WithTemp(u, Base(d), 0, Made(cfg, d)), p, Building(id, d), Layer(0, HandleOpaque(0, cfg.size(Base(d))))))
  {
    UnpackLeads(cfg, u, p, id, d);
    Onward(cfg, s, WithTemp(u, Base(d), 0, Prepared(cfg, Base(d)).value), p, Building(id, d), Layer(0, UnpackTemp(0)), Yes(0),
           WithTemp(u, Base(d), 0, Made(cfg, d)), Layer(0, HandleOpaque(0, cfg.size(Base(d)))));
  }

  function Built(cfg: Config, u: State, d: string): State
    requires Buildable(cfg, d)
  {
    var c := Base(d);
    u.(vols := u.vols[Live(Final(c)) := Made(cfg, d)], metas := u.metas[Final(c) := Size(cfg.size(c))])
  }

  lemma SettleIt(cfg: Config, s: State, w: State, p: Pid, id: ImageId, d: string, n: nat)
    requires Connected(cfg, s, With(w, p, Building(id, d), Layer(0, HandleOpaque(0, n))))
    ensures Connected(cfg, s, With(w, p, Building(id, d), Layer(0, WriteMeta(0, n))))
  {
    var job := Building(id, d);
    assert IsChain(job.chain);
    assert Leads(cfg, w, p, job, Layer(0, HandleOpaque(0, n)), Yes(0), w, Layer(0, WriteMeta(0, n)));
    Onward(cfg, s, w, p, job, Layer(0, HandleOpaque(0, n)), Yes(0), w, Layer(0, WriteMeta(0, n)));
  }

  lemma RecordIt(cfg: Config, s: State, w: State, p: Pid, id: ImageId, d: string, n: nat)
    requires Connected(cfg, s, With(w, p, Building(id, d), Layer(0, HandleOpaque(0, n))))
    ensures Connected(cfg, s, With(w.(metas := w.metas[Final(Base(d)) := Size(n)]), p, Building(id, d), Layer(0, Finalize(0))))
  {
    var job, x := Building(id, d), w.(metas := w.metas[Final(Base(d)) := Size(n)]);
    SettleIt(cfg, s, w, p, id, d, n);
    assert IsChain(job.chain);
    assert Leads(cfg, w, p, job, Layer(0, WriteMeta(0, n)), Yes(0), x, Layer(0, Finalize(0)));
    Onward(cfg, s, w, p, job, Layer(0, WriteMeta(0, n)), Yes(0), x, Layer(0, Finalize(0)));
  }

  lemma RenameIt(vols: Vols, c: ChainId, t: Tree)
    requires Live(Temp(c, 0)) !in vols && Live(Final(c)) !in vols
    ensures Moved(vols[Live(Temp(c, 0)) := t], Live(Temp(c, 0)), Live(Final(c))) == Some(vols[Live(Final(c)) := t])
  {
    assert (vols[Live(Temp(c, 0)) := t] - {Live(Temp(c, 0))})[Live(Final(c)) := t] == vols[Live(Final(c)) := t];
  }

  lemma FinishIt(cfg: Config, s: State, u: State, v: State, p: Pid, id: ImageId, d: string)
    requires Buildable(cfg, d)
    requires Connected(cfg, s, With(v, p, Building(id, d), Layer(0, Finalize(0))))
    requires Live(Temp(Base(d), 0)) !in u.vols && Live(Final(Base(d))) !in u.vols
    requires v == u.(vols := u.vols[Live(Temp(Base(d), 0)) := Made(cfg, d)], metas := u.metas[Final(Base(d)) := Size(cfg.size(Base(d)))])
    ensures Connected(cfg, s, With(Built(cfg, u, d), p, Building(id, d), Layer(0, UnlockLayer)))
  {
    var job := Building(id, d);
    assert IsChain(job.chain);
    RenameIt(u.vols, Base(d), Made(cfg, d));
    assert Leads(cfg, v, p, job, Layer(0, Finalize(0)), Yes(0), Built(cfg, u, d), Layer(0, UnlockLayer));
    Onward(cfg, s, v, p, job, Layer(0, Finalize(0)), Yes(0), Built(cfg, u, d), Layer(0, UnlockLayer));
  }

  /** From wanting the lock to having finished the volume. */
  lemma Build(cfg: Config, s: State, u: State, p: Pid, id: ImageId, d: string)
    requires Buildable(cfg, d)
    requires Connected(cfg, s, With(u, p, Building(id, d), Layer(0, LockLayer)))
    requires Base(d) !in u.flocks.layers && Live(Final(Base(d))) !in u.vols && Live(Temp(Base(d), 0)) !in u.vols
    ensures Connected(cfg, s, With(Built(cfg, Locked(u, p, Base(d)), d), p, Building(id, d), Layer(0, UnlockLayer)))
  {
    var v := Locked(u, p, Base(d));
    BuildableFacts(cfg, d);
    LockIt(cfg, s, u, p, id, d);
    RecheckIt(cfg, s, v, p, id, d);
    DownloadIt(cfg, s, v, p, id, d);
    CreateIt(cfg, s, v, p, id, d);
    ChownIt(cfg, s, v, p, id, d);
    BaseIt(cfg, s, v, p, id, d);
    UnpackIt(cfg, s, v, p, id, d);
    var w := WithTemp(v, Base(d), 0, Made(cfg, d));
    RecordIt(cfg, s, w, p, id, d, cfg.size(Base(d)));
    FinishIt(cfg, s, v, w.(metas := w.metas[Final(Base(d)) := Size(cfg.size(Base(d)))]), p, id, d);
  }

  // ----- a clean that stops just before it collects

  function Swept(s: State, c: ChainId): State
    requires Live(Final(c)) in s.vols
  {
    s.(vols := (s.vols - {Live(Final(c))})[Gc(Final(c)) := s.vols[Live(Final(c))]])
  }

  function Exclusive(s: State, q: Pid): State {
    s.(flocks := s.flocks.(exclusive := Some(q)))
  }

  lemma BeginIt(cfg: Config, s: State, u: State, q: Pid)
    requires Connected(cfg, s, u) && q !in u.procs && u.flocks.shared == {} && u.flocks.exclusive.None?
    ensures Connected(cfg, s, With(Exclusive(u, q), q, Clean([]), Cleaning(ListVolumes)))
  {
    var job, x := Clean([]), Exclusive(u, q);
    Extend(cfg, s, u, Spawn(q, job), With(u, q, job, Cleaning(Measure)));
    assert Leads(cfg, u, q, job, Cleaning(Measure), Yes(0), u, Cleaning(LockExclusive));
    Onward(cfg, s, u, q, job, Cleaning(Measure), Yes(0), u, Cleaning(LockExclusive));
    assert Leads(cfg, u, q, job, Cleaning(LockExclusive), Yes(0), x, Cleaning(ListVolumes));
    Onward(cfg, s, u, q, job, Cleaning(LockExclusive), Yes(0), x, Cleaning(ListVolumes));
  }

  lemma ListIt(cfg: Config, s: State, x: State, q: Pid, c: ChainId)
    requires Connected(cfg, s, With(x, q, Clean([]), Cleaning(ListVolumes)))
    requires x.vols.Keys == {Live(Final(c))}
    ensures Connected(cfg, s, With(x, q, Clean([]), Cleaning(ListImages({Final(c)}))))
  {
    assert (set v | v in x.vols && v.Live? :: v.id) == {Final(c)} by {
      assert Live(Final(c)) in x.vols;
    }
    assert Leads(cfg, x, q, Clean([]), Cleaning(ListVolumes), Yes(0), x, Cleaning(ListImages({Final(c)})));
    Onward(cfg, s, x, q, Clean([]), Cleaning(ListVolumes), Yes(0), x, Cleaning(ListImages({Final(c)})));
  }

  lemma ReadIt(cfg: Config, s: State, x: State, q: Pid, c: ChainId)
    requires Connected(cfg, s, With(x, q, Clean([]), Cleaning(ListImages({Final(c)}))))
    requires x.images == map[]
    ensures Connected(cfg, s, With(x, q, Clean([]), Cleaning(Mark({Final(c)}))))
  {
    var job := Clean([]);
    assert {Final(c)} - Finals([]) == {Final(c)};
    assert x.images.Keys == {};
    assert Leads(cfg, x, q, job, Cleaning(ListImages({Final(c)})), Yes(0), x, Cleaning(ReadRecords({Final(c)}, {})));
    Onward(cfg, s, x, q, job, Cleaning(ListImages({Final(c)})), Yes(0), x, Cleaning(ReadRecords({Final(c)}, {})));
    assert Leads(cfg, x, q, job, Cleaning(ReadRecords({Final(c)}, {})), Yes(0), x, Cleaning(Mark({Final(c)})));
    Onward(cfg, s, x, q, job, Cleaning(ReadRecords({Final(c)}, {})), Yes(0), x, Cleaning(Mark({Final(c)})));
  }

  lemma MarkIt(cfg: Config, s: State, x: State, q: Pid, c: ChainId)
    requires Connected(cfg, s, With(x, q, Clean([]), Cleaning(Mark({Final(c)}))))
    requires x.vols.Keys == {Live(Final(c))}
    ensures Connected(cfg, s, With(Swept(x, c), q, Clean([]), Cleaning(Mark({}))))
  {
    var pick := Yes(0).(volume := Final(c));
    assert {Final(c)} - {Final(c)} == {};
    assert Leads(cfg, x, q, Clean([]), Cleaning(Mark({Final(c)})), pick, Swept(x, c), Cleaning(Mark({})));
    Onward(cfg, s, x, q, Clean([]), Cleaning(Mark({Final(c)})), pick, Swept(x, c), Cleaning(Mark({})));
  }

  lemma ReleaseIt(cfg: Config, s: State, x: State, y: State, q: Pid)
    requires Connected(cfg, s, With(x, q, Clean([]), Cleaning(Mark({}))))
    requires y == x.(flocks := x.flocks.(exclusive := None))
    ensures Connected(cfg, s, With(y, q, Clean([]), Cleaning(ListCondemned)))
  {
    var job := Clean([]);
    assert Leads(cfg, x, q, job, Cleaning(Mark({})), Yes(0), x, Cleaning(UnlockExclusive));
    Onward(cfg, s, x, q, job, Cleaning(Mark({})), Yes(0), x, Cleaning(UnlockExclusive));
    assert Leads(cfg, x, q, job, Cleaning(UnlockExclusive), Yes(0), y, Cleaning(ListCondemned));
    Onward(cfg, s, x, q, job, Cleaning(UnlockExclusive), Yes(0), y, Cleaning(ListCondemned));
  }

  lemma CondemnIt(cfg: Config, s: State, y: State, q: Pid, c: ChainId)
    requires Connected(cfg, s, With(y, q, Clean([]), Cleaning(ListCondemned)))
    requires y.vols.Keys == {Gc(Final(c))}
    ensures Connected(cfg, s, With(y, q, Clean([]), Cleaning(Collect({Final(c)}, true))))
  {
    assert (set v | v in y.vols && v.Gc? :: v.id) == {Final(c)} by {
      assert Gc(Final(c)) in y.vols;
    }
    assert Leads(cfg, y, q, Clean([]), Cleaning(ListCondemned), Yes(0), y, Cleaning(Collect({Final(c)}, true)));
    Onward(cfg, s, y, q, Clean([]), Cleaning(ListCondemned), Yes(0), y, Cleaning(Collect({Final(c)}, true)));
  }

  // ----- a volume without metadata

  /** The store with one finished layer, built by a Create that died right after. */
  function Cached(cfg: Config, d: string): State
    requires Buildable(cfg, d)
  {
    INIT.(vols := map[Live(Final(Base(d))) := Made(cfg, d)], metas := map[Final(Base(d)) := Size(cfg.size(Base(d)))])
  }

  lemma CachedReachable(cfg: Config, d: string)
    requires Buildable(cfg, d)
    ensures Connected(cfg, INIT, Cached(cfg, d))
  {
    var c, job, u := Base(d), Building("a", d), Sharing(INIT, 0);
    Stay(cfg, INIT);
    Enter(cfg, INIT, INIT, 0, "a", d);
    WantIt(cfg, INIT, u, 0, "a", d);
    Build(cfg, INIT, u, 0, "a", d);
    var v := With(Built(cfg, Locked(u, 0, c), d), 0, job, Layer(0, UnlockLayer));
    assert Crashed(v, 0) == Cached(cfg, d) by {
      assert Crashed(v, 0).procs == map[];
      assert Crashed(v, 0).flocks == INIT.flocks;
      assert Crashed(v, 0).vols == Cached(cfg, d).vols && Crashed(v, 0).metas == Cached(cfg, d).metas;
    }
    Extend(cfg, INIT, v, Crash(0), Cached(cfg, d));
  }

  /** The same store with the layer condemned. */
  function Doomed(cfg: Config, d: string): State
    requires Buildable(cfg, d)
  {
    INIT.(vols := map[Gc(Final(Base(d))) := Made(cfg, d)], metas := map[Final(Base(d)) := Size(cfg.size(Base(d)))])
  }

  /** And a Clean about to collect it. */
  function Collecting(s: State, d: string): State {
    With(s, 1, Clean([]), Cleaning(Collect({Final(Base(d))}, true)))
  }

  lemma DoomedReachable(cfg: Config, d: string)
    requires Buildable(cfg, d)
    ensures Connected(cfg, INIT, Collecting(Doomed(cfg, d), d))
  {
    var c, s := Base(d), Cached(cfg, d);
    var x := Exclusive(s, 1);
    CachedReachable(cfg, d);
    BeginIt(cfg, INIT, s, 1);
    ListIt(cfg, INIT, x, 1, c);
    ReadIt(cfg, INIT, x, 1, c);
    MarkIt(cfg, INIT, x, 1, c);
    assert Swept(x, c).vols == Doomed(cfg, d).vols;
    ReleaseIt(cfg, INIT, Swept(x, c), Doomed(cfg, d), 1);
    CondemnIt(cfg, INIT, Doomed(cfg, d), 1, c);
  }

  lemma RebuiltReachable(cfg: Config, d: string)
    requires Buildable(cfg, d)
    ensures
      var u := Sharing(Collecting(Doomed(cfg, d), d), 2);
      Connected(cfg, INIT, With(Built(cfg, Locked(u, 2, Base(d)), d), 2, Building("b", d), Layer(0, UnlockLayer)))
  {
    var s := Collecting(Doomed(cfg, d), d);
    var u := Sharing(s, 2);
    DoomedReachable(cfg, d);
    Enter(cfg, INIT, s, 2, "b", d);
    WantIt(cfg, INIT, u, 2, "b", d);
    Build(cfg, INIT, u, 2, "b", d);
  }

  /** A layer is built, its Create dies, a Clean condemns it; before the Clean collects, another Create
      builds the layer afresh; the Clean then removes the metadata that the two share. No call failed. */
  lemma MetadataCanGoMissing(cfg: Config, d: string) returns (s: State)
    requires Buildable(cfg, d)
    ensures Reachable(cfg, s)
    ensures Live(Final(Base(d))) in s.vols && Final(Base(d)) !in s.metas
  {
    var u := Sharing(Collecting(Doomed(cfg, d), d), 2);
    var m := With(Built(cfg, Locked(u, 2, Base(d)), d), 2, Building("b", d), Layer(0, UnlockLayer));
    RebuiltReachable(cfg, d);
    var pick := Yes(0).(volume := Final(Base(d)));
    assert m.procs[1] == Proc(Clean([]), Cleaning(Collect({Final(Base(d))}, true)));
    s := Exec(cfg, m, 1, pick);
    GoStep(cfg, INIT, m, 1, pick, s);
  }

  // ----- imaging

  function WithImage(u: State, id: ImageId, root: Option<Tree>): State {
    u.(images := u.images[id := Image(root)])
  }

  lemma UnlockIt(cfg: Config, s: State, u: State, p: Pid, id: ImageId, d: string, v: State)
    requires Connected(cfg, s, With(u, p, Building(id, d), Layer(0, UnlockLayer)))
    requires v == u.(flocks := u.flocks.(layers := u.flocks.layers - {Base(d)}))
    ensures Connected(cfg, s, With(v, p, Building(id, d), Imaging(MakeImageDir)))
  {
    var job := Building(id, d);
    assert IsChain(job.chain);
    assert Leads(cfg, u, p, job, Layer(0, UnlockLayer), Yes(0), v, Imaging(MakeImageDir));
    Onward(cfg, s, u, p, job, Layer(0, UnlockLayer), Yes(0), v, Imaging(MakeImageDir));
  }

  lemma FoundIt(cfg: Config, s: State, u: State, p: Pid, id: ImageId, d: string)
    requires Connected(cfg, s, With(u, p, Building(id, d), Layer(0, Probe))) && Live(Final(Base(d))) in u.vols
    ensures Connected(cfg, s, With(u, p, Building(id, d), Imaging(MakeImageDir)))
  {
    var job := Building(id, d);
    assert IsChain(job.chain);
    assert Leads(cfg, u, p, job, Layer(0, Probe), Yes(0), u, Imaging(MakeImageDir));
    Onward(cfg, s, u, p, job, Layer(0, Probe), Yes(0), u, Imaging(MakeImageDir));
  }

  lemma MakeIt(cfg: Config, s: State, v: State, p: Pid, id: ImageId, d: string)
    requires Connected(cfg, s, With(v, p, Building(id, d), Imaging(MakeImageDir))) && id !in v.images
    ensures Connected(cfg, s, With(WithImage(v, id, None), p, Building(id, d), Imaging(SnapshotImage)))
  {
    var job, w := Building(id, d), WithImage(v, id, None);
    assert IsChain(job.chain);
    assert Leads(cfg, v, p, job, Imaging(MakeImageDir), Yes(0), w, Imaging(SnapshotImage));
    Onward(cfg, s, v, p, job, Imaging(MakeImageDir), Yes(0), w, Imaging(SnapshotImage));
  }

  lemma SnapIt(cfg: Config, s: State, v: State, p: Pid, id: ImageId, d: string)
    requires Connected(cfg, s, With(v, p, Building(id, d), Imaging(MakeImageDir)))
    requires id !in v.images && Live(Final(Base(d))) in v.vols
    ensures Connected(cfg, s, With(WithImage(v, id, Some(v.vols[Live(Final(Base(d)))])), p, Building(id, d), Imaging(FinishImage)))
  {
    var job := Building(id, d);
    var w, x := WithImage(v, id, None), WithImage(v, id, Some(v.vols[Live(Final(Base(d)))]));
    MakeIt(cfg, s, v, p, id, d);
    assert IsChain(job.chain);
    assert w.images[id := x.images[id]] == x.images;
    assert Leads(cfg, w, p, job, Imaging(SnapshotImage), Yes(0), x, Imaging(FinishImage));
    Onward(cfg, s, w, p, job, Imaging(SnapshotImage), Yes(0), x, Imaging(FinishImage));
  }

  function Registered(w: State, id: ImageId, d: string): State {
    w.(records := w.records[id := Complete([Base(d)])], committed := w.committed[id := [Base(d)]])
  }

  lemma OpenIt(cfg: Config, s: State, w: State, p: Pid, id: ImageId, d: string)
    requires Connected(cfg, s, With(w, p, Building(id, d), Imaging(FinishImage)))
    ensures Connected(cfg, s, With(w.(records := w.records[id := Partial]), p, Building(id, d), Imaging(WriteRecord)))
  {
    var job, x := Building(id, d), w.(records := w.records[id := Partial]);
    assert IsChain(job.chain);
    assert Leads(cfg, w, p, job, Imaging(FinishImage), Yes(0), w, Imaging(OpenRecord));
    Onward(cfg, s, w, p, job, Imaging(FinishImage), Yes(0), w, Imaging(OpenRecord));
    assert Leads(cfg, w, p, job, Imaging(OpenRecord), Yes(0), x, Imaging(WriteRecord));
    Onward(cfg, s, w, p, job, Imaging(OpenRecord), Yes(0), x, Imaging(WriteRecord));
  }

  lemma RegisterIt(cfg: Config, s: State, w: State, p: Pid, id: ImageId, d: string)
    requires Connected(cfg, s, With(w, p, Building(id, d), Imaging(FinishImage)))
    ensures Connected(cfg, s, With(Registered(w, id, d), p, Building(id, d), UnlockShared))
  {
    var job := Building(id, d);
    assert IsChain(job.chain);
    var x := w.(records := w.records[id := Partial]);
    OpenIt(cfg, s, w, p, id, d);
    assert x.records[id := Complete([Base(d)])] == Registered(w, id, d).records;
    assert Leads(cfg, x, p, job, Imaging(WriteRecord), Yes(0), Registered(w, id, d), UnlockShared);
    Onward(cfg, s, x, p, job, Imaging(WriteRecord), Yes(0), Registered(w, id, d), UnlockShared);
  }

  /** `p` lets go of the shared lock and is gone. */
  lemma LeaveIt(cfg: Config, s: State, u: State, p: Pid, id: ImageId, d: string)
    requires Connected(cfg, s, With(u, p, Building(id, d), UnlockShared)) && p !in u.procs
    ensures Connected(cfg, s, u.(flocks := u.flocks.(shared := u.flocks.shared - {p})))
  {
    var m := With(u, p, Building(id, d), UnlockShared);
    var s' := u.(flocks := u.flocks.(shared := u.flocks.shared - {p}));
    assert IsChain(Building(id, d).chain);
    assert m.procs - {p} == u.procs;
    GoStep(cfg, s, m, p, Yes(0), s');
  }

  // ----- a wrong answer to the second existence check

  /** Both have checked that the layer is missing; one has built it and registered its image since. */
  ghost predicate Raced(cfg: Config, s: State, d: string)
    requires Buildable(cfg, d)
  {
    && s.vols == map[Live(Final(Base(d))) := Made(cfg, d)]
    && s.flocks.layers == map[] && s.committed == map["b" := [Base(d)]]
    && 0 in s.procs && s.procs[0] == Proc(Building("a", d), Layer(0, LockLayer))
  }

  lemma BothWant(cfg: Config, d: string) returns (u: State)
    ensures Connected(cfg, INIT, With(u, 1, Building("b", d), Layer(0, LockLayer)))
    ensures u == Sharing(With(Sharing(INIT, 0), 0, Building("a", d), Layer(0, LockLayer)), 1)
  {
    var t := Sharing(INIT, 0);
    Stay(cfg, INIT);
    Enter(cfg, INIT, INIT, 0, "a", d);
    WantIt(cfg, INIT, t, 0, "a", d);
    var s1 := With(t, 0, Building("a", d), Layer(0, LockLayer));
    Enter(cfg, INIT, s1, 1, "b", d);
    u := Sharing(s1, 1);
    WantIt(cfg, INIT, u, 1, "b", d);
  }

  lemma RacedReachable(cfg: Config, d: string) returns (s: State)
    requires Buildable(cfg, d)
    ensures Connected(cfg, INIT, s) && Raced(cfg, s, d)
  {
    var c := Base(d);
    var u := BothWant(cfg, d);
    Build(cfg, INIT, u, 1, "b", d);
    var built := Built(cfg, Locked(u, 1, c), d);
    var v := built.(flocks := built.flocks.(layers := built.flocks.layers - {c}));
    UnlockIt(cfg, INIT, built, 1, "b", d, v);
    SnapIt(cfg, INIT, v, 1, "b", d);
    var w := WithImage(v, "b", Some(v.vols[Live(Final(c))]));
    RegisterIt(cfg, INIT, w, 1, "b", d);
    s := With(Registered(w, "b", d), 1, Building("b", d), UnlockShared);
    assert s.vols == map[Live(Final(c)) := Made(cfg, d)];
    assert s.flocks.layers == map[];
  }

  lemma FailIt(cfg: Config, s: State, u: State, d: string)
    requires Connected(cfg, s, With(u, 0, Building("a", d), Layer(0, UnpackTemp(0))))
    requires Live(Temp(Base(d), 0)) in u.vols
    ensures Connected(cfg, s, With(WithTemp(u, Base(d), 0, map[]), 0, Building("a", d), Layer(0, DropMeta)))
  {
    var job, v := Building("a", d), WithTemp(u, Base(d), 0, map[]);
    assert IsChain(job.chain);
    assert Leads(cfg, u, 0, job, Layer(0, UnpackTemp(0)), No(), v, Layer(0, DropMeta));
    Onward(cfg, s, u, 0, job, Layer(0, UnpackTemp(0)), No(), v, Layer(0, DropMeta));
  }

  lemma SkipIt(cfg: Config, s: State, v: State, d: string)
    requires Connected(cfg, s, With(v, 0, Building("a", d), Layer(0, DropMeta)))
    ensures Connected(cfg, s, With(v, 0, Building("a", d), Layer(0, DropFinal)))
  {
    var job := Building("a", d);
    assert IsChain(job.chain);
    assert Leads(cfg, v, 0, job, Layer(0, DropMeta), No(), v, Layer(0, DropFinal));
    Onward(cfg, s, v, 0, job, Layer(0, DropMeta), No(), v, Layer(0, DropFinal));
  }

  lemma DropIt(cfg: Config, s: State, v: State, d: string)
    requires Connected(cfg, s, With(v, 0, Building("a", d), Layer(0, DropFinal)))
    ensures Connected(cfg, s, With(v.(vols := v.vols - {Live(Final(Base(d)))}), 0, Building("a", d), Layer(0, Unwind)))
  {
    var job, w := Building("a", d), v.(vols := v.vols - {Live(Final(Base(d)))});
    assert IsChain(job.chain);
    assert Leads(cfg, v, 0, job, Layer(0, DropFinal), Yes(0), w, Layer(0, Unwind));
    Onward(cfg, s, v, 0, job, Layer(0, DropFinal), Yes(0), w, Layer(0, Unwind));
  }

  /** The truthfulness of the second check is needed: in a reachable state with a registered image, one
      check that says "absent" of a volume that is there, and an unpack that fails, and the cleanup of the
      failed unpack destroys the registered image's volume. */
  lemma WrongCheckLosesVolume(cfg: Config, d: string) returns (s: State, e: Event, s': State)
    requires Buildable(cfg, d)
    ensures Reachable(cfg, s) && Possible(s, e) && !Truthful(s, e) && Connected(cfg, Next(cfg, s, e), s')
    ensures "b" in s.committed && s.committed["b"] == [Base(d)] && s'.committed == s.committed
    ensures Live(Final(Base(d))) in s.vols && Live(Final(Base(d))) !in s'.vols
  {
    var c, job := Base(d), Building("a", d);
    var r := RacedReachable(cfg, d);
    assert IsChain(job.chain);
    var u := Locked(r, 0, c);
    s := With(u, 0, job, Layer(0, Reprobe));
    assert r == With(r, 0, job, Layer(0, LockLayer));
    LockIt(cfg, INIT, r, 0, "a", d);
    e := Go(0, No());
    var t := With(u, 0, job, Layer(0, Download));
    assert Next(cfg, s, e) == t;
    s' := DoubtedBuild(cfg, t, u, d);
  }

  lemma DoubtedBuild(cfg: Config, t: State, u: State, d: string) returns (s': State)
    requires Buildable(cfg, d) && t == With(u, 0, Building("a", d), Layer(0, Download)) && Live(Temp(Base(d), 0)) !in u.vols
    ensures Connected(cfg, t, s') && s'.committed == u.committed && Live(Final(Base(d))) !in s'.vols
  {
    BuildableFacts(cfg, d);
    Stay(cfg, t);
    DownloadIt(cfg, t, u, 0, "a", d);
    CreateIt(cfg, t, u, 0, "a", d);
    ChownIt(cfg, t, u, 0, "a", d);
    BaseIt(cfg, t, u, 0, "a", d);
    var w := WithTemp(u, Base(d), 0, Prepared(cfg, Base(d)).value);
    FailIt(cfg, t, w, d);
    var x := WithTemp(w, Base(d), 0, map[]);
    SkipIt(cfg, t, x, d);
    DropIt(cfg, t, x, d);
    s' := With(x.(vols := x.vols - {Live(Final(Base(d)))}), 0, Building("a", d), Layer(0, Unwind));
  }
}
