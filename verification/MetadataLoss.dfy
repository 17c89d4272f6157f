/** When rebuilding a layer costs it its metadata: exactly when its predecessor is still to be collected. */
module MetadataLoss {
  import opened Options
  import opened ChainIds
  import opened Names
  import opened Contents
  import opened Volumes
  import opened Protocol
  import opened Invariant
  import opened Metadata
  import opened Paths
  import Safety

  /** The volume stands and its metadata is gone. */
  predicate Lost(s: State, c: ChainId) {
    Live(Final(c)) in s.vols && Final(c) !in s.metas
  }

  /** From `s` the system can come to `s'` without rebuilding the layer while it is condemned, and without a
      wrong second check of it. */
  ghost predicate Quietly(cfg: Config, c: ChainId, s: State, s': State) {
    exists states, events :: IsQuiet(cfg, c, states, events) && states[0] == s && states[|events|] == s'
  }

  ghost predicate IsQuiet(cfg: Config, c: ChainId, states: seq<State>, events: seq<Event>) {
    && |states| == |events| + 1
    && forall k | 0 <= k < |events| ::
         Step(cfg, states[k], events[k], states[k + 1]) && NoRebuild(states[k], events[k], c) && !Errs(states[k], events[k], c)
  }

  lemma QuietStay(cfg: Config, c: ChainId, s: State)
    ensures Quietly(cfg, c, s, s)
  {
    assert IsQuiet(cfg, c, [s], []);
  }

  lemma QuietExtend(cfg: Config, c: ChainId, s: State, m: State, e: Event, s': State)
    requires Quietly(cfg, c, s, m) && Step(cfg, m, e, s') && NoRebuild(m, e, c) && !Errs(m, e, c)
    ensures Quietly(cfg, c, s, s')
  {
    var states, events :| IsQuiet(cfg, c, states, events) && states[0] == s && states[|events|] == m;
    var longer, more := states + [s'], events + [e];
    forall k | 0 <= k < |more|
      ensures Step(cfg, longer[k], more[k], longer[k + 1]) && NoRebuild(longer[k], more[k], c) && !Errs(longer[k], more[k], c)
    {
      if k < |events| {
        assert Step(cfg, states[k], events[k], states[k + 1]) && NoRebuild(states[k], events[k], c);
      }
    }
    assert IsQuiet(cfg, c, longer, more) && longer[|more|] == s';
  }

  // ----- an uncondemned layer keeps its metadata

  lemma {:induction false} QuietKeeps(cfg: Config, c: ChainId, states: seq<State>, events: seq<Event>, k: nat)
    requires IsQuiet(cfg, c, states, events) && k < |states| && Inv(cfg, iset{c}, states[0]) && MetaOkAt(states[0], c)
    ensures Inv(cfg, iset{c}, states[k]) && MetaOkAt(states[k], c)
  {
    if k > 0 {
      QuietKeeps(cfg, c, states, events, k - 1);
      assert Step(cfg, states[k - 1], events[k - 1], states[k]) && NoRebuild(states[k - 1], events[k - 1], c);
      Safety.StepInv(cfg, iset{c}, states[k - 1], events[k - 1], states[k]);
      EventMeta(cfg, states[k - 1], events[k - 1], states[k], c);
    }
  }

  lemma UncondemnedKeeps(cfg: Config, s: State, p: Pid, a: Answer, c: ChainId, s': State)
    requires Inv(cfg, iset{c}, s) && Possible(s, Go(p, a)) && Rebuilds(s, Go(p, a), c) && !Condemned(s, Final(c))
    requires Quietly(cfg, c, Next(cfg, s, Go(p, a)), s')
    ensures !Lost(s', c)
  {
    var s1 := Next(cfg, s, Go(p, a));
    NotSettledByOthers(cfg, s, p, c);
    assert ProcOk(cfg, iset{c}, s, s.procs[p]);
    WriteMetaMeta(cfg, s, p, a, c);
    Safety.StepInv(cfg, iset{c}, s, Go(p, a), s1);
    var states, events :| IsQuiet(cfg, c, states, events) && states[0] == s1 && states[|events|] == s';
    QuietKeeps(cfg, c, states, events, |events|);
    assert Live(Final(c)) in s'.vols ==> Settled(s', c);
  }

  // ----- a condemned one can lose it

  lemma QuietGo(cfg: Config, c: ChainId, s: State, m: State, p: Pid, a: Answer, s': State)
    requires Quietly(cfg, c, s, m) && Possible(m, Go(p, a)) && Truthful(m, Go(p, a)) && s' == Exec(cfg, m, p, a)
    requires m.procs[p].pc.Layer? ==> !m.procs[p].pc.work.WriteMeta?
    ensures Quietly(cfg, c, s, s')
  {
    QuietExtend(cfg, c, s, m, Go(p, a), s');
  }

  lemma QuietOnward(cfg: Config, c: ChainId, s: State, m: State, p: Pid, job: Job, pc: PC, a: Answer, u: State, pc': PC)
    requires Quietly(cfg, c, s, With(m, p, job, pc)) && Leads(cfg, m, p, job, pc, a, u, pc') && !pc.Layer?
    ensures Quietly(cfg, c, s, With(u, p, job, pc'))
  {
    assert At(With(u, p, job, pc), p, pc') == With(u, p, job, pc') by {
      assert u.procs[p := Proc(job, pc)][p := Proc(job, pc')] == u.procs[p := Proc(job, pc')];
    }
    QuietGo(cfg, c, s, With(m, p, job, pc), p, a, With(u, p, job, pc'));
  }

  /** The rebuilt volume is finished, whoever else is there. */
  lemma Finish(cfg: Config, s: State, p: Pid, a: Answer, c: ChainId) returns (s': State)
    requires Inv(cfg, iset{c}, s) && Possible(s, Go(p, a)) && Rebuilds(s, Go(p, a), c)
    ensures Quietly(cfg, c, Next(cfg, s, Go(p, a)), s') && Inv(cfg, iset{c}, s')
    ensures Live(Final(c)) in s'.vols && (Gc(Final(c)) in s.vols ==> Gc(Final(c)) in s'.vols)
    ensures forall q | q in s.procs && q != p :: q in s'.procs && s'.procs[q] == s.procs[q]
  {
    var i, n := s.procs[p].pc.i, s.procs[p].pc.work.n;
    assert ProcOk(cfg, iset{c}, s, s.procs[p]);
    var s1 := Next(cfg, s, Go(p, a));
    Safety.StepInv(cfg, iset{c}, s, Go(p, a), s1);
    QuietStay(cfg, c, s1);
    assert s1 == At(s.(metas := s.metas[Final(c) := Size(s.procs[p].pc.work.bytes)]), p, Layer(i, Finalize(n)));
    s' := Renamed(cfg, s1, p, c, i, n);
    QuietGo(cfg, c, s1, s1, p, Yes(0), s');
    Safety.StepInv(cfg, iset{c}, s1, Go(p, Yes(0)), s');
  }

  lemma Renamed(cfg: Config, s: State, p: Pid, c: ChainId, i: nat, n: nat) returns (s': State)
    requires Inv(cfg, iset{c}, s) && p in s.procs && s.procs[p].pc == Layer(i, Finalize(n)) && s.procs[p].job.Create?
    requires i < |s.procs[p].job.chain| && s.procs[p].job.chain[i] == c
    ensures Possible(s, Go(p, Yes(0))) && s' == Exec(cfg, s, p, Yes(0))
    ensures Live(Final(c)) in s'.vols && (Gc(Final(c)) in s.vols ==> Gc(Final(c)) in s'.vols)
    ensures forall q | q in s.procs && q != p :: q in s'.procs && s'.procs[q] == s.procs[q]
  {
    assert ProcOk(cfg, iset{c}, s, s.procs[p]);
    assert Live(Final(c)) !in s.vols && Live(Temp(c, n)) in s.vols;
    var vols := (s.vols - {Live(Temp(c, n))})[Live(Final(c)) := s.vols[Live(Temp(c, n))]];
    s' := At(s.(vols := vols), p, Layer(i, UnlockLayer));
  }

  /** A collector that has the volume on its list takes the metadata next. */
  lemma CollectorTakes(cfg: Config, c: ChainId, s0: State, s: State, q: Pid, todo: set<VolumeId>, good: bool) returns (s': State)
    requires Quietly(cfg, c, s0, s) && Live(Final(c)) in s.vols
    requires q in s.procs && Fits(s.procs[q]) && s.procs[q].pc == Cleaning(Collect(todo, good)) && Final(c) in todo
    ensures Quietly(cfg, c, s0, s') && Lost(s', c)
  {
    var a := Yes(0).(volume := Final(c));
    s' := ToClean(s.(metas := s.metas - {Final(c)}), q, CollectVolume(todo - {Final(c)}, Final(c), good));
    QuietGo(cfg, c, s0, s, q, a, s');
  }

  lemma PendingTakes(cfg: Config, c: ChainId, s0: State, s: State, q: Pid) returns (s': State)
    requires Quietly(cfg, c, s0, s) && Live(Final(c)) in s.vols
    requires q in s.procs && Fits(s.procs[q]) && Final(c) in Pending(s.procs[q])
    ensures Quietly(cfg, c, s0, s') && Lost(s', c)
  {
    match s.procs[q].pc.clean {
      case Collect(todo, good) => s' := CollectorTakes(cfg, c, s0, s, q, todo, good);
      case CollectVolume(todo, v, good) =>
        var m := ToClean(s, q, Collect(todo, false));
        assert StepClean(s, q, No()) == m;
        QuietGo(cfg, c, s0, s, q, No(), m);
        s' := CollectorTakes(cfg, c, s0, m, q, todo, false);
    }
  }

  /** Everyone dies; the store stays as it is. */
  lemma {:induction false} CrashAll(cfg: Config, c: ChainId, s0: State, s: State) returns (s': State)
    requires Quietly(cfg, c, s0, s) && Inv(cfg, iset{c}, s)
    ensures Quietly(cfg, c, s0, s') && s'.vols == s.vols && s'.procs == map[] && s'.flocks == INIT.flocks
    decreases s.procs.Keys
  {
    if s.procs == map[] {
      assert GlobalOk(s) && LayersOk(s);
      assert s.flocks.shared == {};
      assert s.flocks.layers == map[];
      s' := s;
    } else {
      var p :| p in s.procs;
      var m := Crashed(s, p);
      QuietExtend(cfg, c, s0, s, Crash(p), m);
      Safety.StepInv(cfg, iset{c}, s, Crash(p), m);
      s' := CrashAll(cfg, c, s0, m);
    }
  }

  /** A Clean begins and gets as far as the exclusive lock. */
  lemma CleanBegins(cfg: Config, c: ChainId, s0: State, s: State)
    requires Quietly(cfg, c, s0, s) && s.procs == map[] && s.flocks == INIT.flocks
    ensures Quietly(cfg, c, s0, With(s.(flocks := s.flocks.(exclusive := Some(0))), 0, Clean([]), Cleaning(ListVolumes)))
  {
    var job, x := Clean([]), s.(flocks := s.flocks.(exclusive := Some(0)));
    QuietExtend(cfg, c, s0, s, Spawn(0, job), With(s, 0, job, Cleaning(Measure)));
    assert Leads(cfg, s, 0, job, Cleaning(Measure), Yes(0), s, Cleaning(LockExclusive));
    QuietOnward(cfg, c, s0, s, 0, job, Cleaning(Measure), Yes(0), s, Cleaning(LockExclusive));
    assert Leads(cfg, s, 0, job, Cleaning(LockExclusive), Yes(0), x, Cleaning(ListVolumes));
    QuietOnward(cfg, c, s0, s, 0, job, Cleaning(LockExclusive), Yes(0), x, Cleaning(ListVolumes));
  }

  /** It cannot list the volumes, marks nothing, and goes on to collect. */
  lemma CleanSkips(cfg: Config, c: ChainId, s0: State, s: State, x: State)
    requires Quietly(cfg, c, s0, With(x, 0, Clean([]), Cleaning(ListVolumes))) && s == x.(flocks := x.flocks.(exclusive := None))
    ensures Quietly(cfg, c, s0, With(s, 0, Clean([]), Cleaning(ListCondemned)))
  {
    var job := Clean([]);
    assert Leads(cfg, x, 0, job, Cleaning(ListVolumes), No(), x, Cleaning(Mark({})));
    QuietOnward(cfg, c, s0, x, 0, job, Cleaning(ListVolumes), No(), x, Cleaning(Mark({})));
    CleanReleases(cfg, c, s0, s, x);
  }

  lemma CleanReleases(cfg: Config, c: ChainId, s0: State, s: State, x: State)
    requires Quietly(cfg, c, s0, With(x, 0, Clean([]), Cleaning(Mark({})))) && s == x.(flocks := x.flocks.(exclusive := None))
    ensures Quietly(cfg, c, s0, With(s, 0, Clean([]), Cleaning(ListCondemned)))
  {
    var job := Clean([]);
    assert Leads(cfg, x, 0, job, Cleaning(Mark({})), Yes(0), x, Cleaning(UnlockExclusive));
    QuietOnward(cfg, c, s0, x, 0, job, Cleaning(Mark({})), Yes(0), x, Cleaning(UnlockExclusive));
    assert Leads(cfg, x, 0, job, Cleaning(UnlockExclusive), Yes(0), s, Cleaning(ListCondemned));
    QuietOnward(cfg, c, s0, x, 0, job, Cleaning(UnlockExclusive), Yes(0), s, Cleaning(ListCondemned));
  }

  lemma NewCleanTakes(cfg: Config, c: ChainId, s0: State, s: State) returns (s': State)
    requires Quietly(cfg, c, s0, s) && s.procs == map[] && s.flocks == INIT.flocks
    requires Live(Final(c)) in s.vols && Gc(Final(c)) in s.vols
    ensures Quietly(cfg, c, s0, s') && Lost(s', c)
  {
    var job, todo := Clean([]), set v | v in s.vols && v.Gc? :: v.id;
    CleanBegins(cfg, c, s0, s);
    CleanSkips(cfg, c, s0, s, s.(flocks := s.flocks.(exclusive := Some(0))));
    assert Leads(cfg, s, 0, job, Cleaning(ListCondemned), Yes(0), s, Cleaning(Collect(todo, true)));
    QuietOnward(cfg, c, s0, s, 0, job, Cleaning(ListCondemned), Yes(0), s, Cleaning(Collect(todo, true)));
    assert Gc(Final(c)).id in todo;
    s' := CollectorTakes(cfg, c, s0, With(s, 0, job, Cleaning(Collect(todo, true))), 0, todo, true);
  }

  lemma CondemnedLoses(cfg: Config, s: State, p: Pid, a: Answer, c: ChainId) returns (s': State)
    requires Inv(cfg, iset{c}, s) && Possible(s, Go(p, a)) && Rebuilds(s, Go(p, a), c) && Condemned(s, Final(c))
    ensures Quietly(cfg, c, Next(cfg, s, Go(p, a)), s') && Lost(s', c)
  {
    var s0 := Next(cfg, s, Go(p, a));
    var m := Finish(cfg, s, p, a, c);
    if Gc(Final(c)) in s.vols {
      var quiet := CrashAll(cfg, c, s0, m);
      s' := NewCleanTakes(cfg, c, s0, quiet);
    } else {
      var q :| q in s.procs && Final(c) in Pending(s.procs[q]);
      assert q != p;
      s' := PendingTakes(cfg, c, s0, m, q);
    }
  }

  /** After a layer's metadata has been written anew, some way the system can go on without a further such
      rebuild leaves the finished volume without metadata, exactly when the layer was condemned at that moment:
      its old volume still there under its condemned name, or on the list of a collector. */
  lemma RebuildLosesMetadataIff(cfg: Config, s: State, p: Pid, a: Answer, c: ChainId)
    requires Inv(cfg, iset{c}, s) && Possible(s, Go(p, a)) && Rebuilds(s, Go(p, a), c)
    ensures (exists s' :: Quietly(cfg, c, Next(cfg, s, Go(p, a)), s') && Lost(s', c)) <==> Condemned(s, Final(c))
  {
    if Condemned(s, Final(c)) {
      var s' := CondemnedLoses(cfg, s, p, a, c);
      assert Quietly(cfg, c, Next(cfg, s, Go(p, a)), s') && Lost(s', c);
    } else {
      forall s' | Quietly(cfg, c, Next(cfg, s, Go(p, a)), s') ensures !Lost(s', c) {
        UncondemnedKeeps(cfg, s, p, a, c, s');
      }
    }
  }
}
