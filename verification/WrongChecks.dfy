/** What a wrong answer to the second existence check can cost: exactly the volume it is about. */
module WrongChecks {
  import opened ChainIds
  import opened Names
  import opened Contents
  import opened Protocol
  import opened Invariant
  import opened LayerProgress
  import Liveness
  import Safety

  // ----- what may happen while `p` stays in the shared section

  ghost predicate IsHeld(cfg: Config, trusted: LayerSet, p: Pid, states: seq<State>, events: seq<Event>) {
    && |states| == |events| + 1
    && (forall k | 0 <= k < |events| :: Step(cfg, states[k], events[k], states[k + 1]) && Sound(trusted, states[k], events[k]))
    && (forall k | 0 <= k < |states| :: p in states[k].procs && InShared(states[k].procs[p].pc))
  }

  /** From `s` the system can come to `s'`, `p` never leaving the shared section, and without a further wrong
      check of a trusted layer. */
  ghost predicate Held(cfg: Config, trusted: LayerSet, p: Pid, s: State, s': State) {
    exists states, events :: IsHeld(cfg, trusted, p, states, events) && states[0] == s && states[|events|] == s'
  }

  lemma HeldStay(cfg: Config, trusted: LayerSet, p: Pid, s: State)
    requires p in s.procs && InShared(s.procs[p].pc)
    ensures Held(cfg, trusted, p, s, s)
  {
    assert IsHeld(cfg, trusted, p, [s], []);
  }

  lemma HeldExtend(cfg: Config, trusted: LayerSet, p: Pid, s: State, m: State, e: Event, s': State)
    requires Held(cfg, trusted, p, s, m) && Step(cfg, m, e, s') && Sound(trusted, m, e)
    requires p in s'.procs && InShared(s'.procs[p].pc)
    ensures Held(cfg, trusted, p, s, s')
  {
    var states, events :| IsHeld(cfg, trusted, p, states, events) && states[0] == s && states[|events|] == m;
    var longer, more := states + [s'], events + [e];
    forall k | 0 <= k < |more| ensures Step(cfg, longer[k], more[k], longer[k + 1]) && Sound(trusted, longer[k], more[k]) {
      if k < |events| {
        assert Step(cfg, states[k], events[k], states[k + 1]) && Sound(trusted, states[k], events[k]);
      }
    }
    forall k | 0 <= k < |longer| ensures p in longer[k].procs && InShared(longer[k].procs[p].pc) {
      assert k < |states| ==> longer[k] == states[k];
    }
    assert IsHeld(cfg, trusted, p, longer, more) && longer[|more|] == s';
  }

  // ----- after a right answer

  lemma {:induction false} HeldPins(cfg: Config, trusted: LayerSet, p: Pid, states: seq<State>, events: seq<Event>, k: nat, c: ChainId)
    requires IsHeld(cfg, trusted, p, states, events) && k < |states| && Inv(cfg, trusted, states[0])
    requires c in trusted && Live(Final(c)) in states[0].vols
    ensures Inv(cfg, trusted, states[k]) && Live(Final(c)) in states[k].vols
  {
    if k > 0 {
      HeldPins(cfg, trusted, p, states, events, k - 1, c);
      assert Step(cfg, states[k - 1], events[k - 1], states[k]) && Sound(trusted, states[k - 1], events[k - 1]);
      Safety.SharedSectionPinsVolumes(cfg, trusted, states[k - 1], events[k - 1], states[k], p);
      Safety.StepInv(cfg, trusted, states[k - 1], events[k - 1], states[k]);
    }
  }

  /** The volume is there to stay. */
  lemma RightAnswerKeeps(cfg: Config, trusted: LayerSet, s: State, p: Pid, a: Answer, c: ChainId, s': State)
    requires Inv(cfg, trusted, s) && Possible(s, Go(p, a)) && Safety.WorksOn(s, p, c, Reprobe)
    requires c in trusted && Live(Final(c)) in s.vols && a.ok
    requires Held(cfg, trusted, p, Next(cfg, s, Go(p, a)), s')
    ensures Live(Final(c)) in s'.vols
  {
    var s1 := Next(cfg, s, Go(p, a));
    Safety.StepInv(cfg, trusted, s, Go(p, a), s1);
    var states, events :| IsHeld(cfg, trusted, p, states, events) && states[0] == s1 && states[|events|] == s';
    HeldPins(cfg, trusted, p, states, events, |events|, c);
  }

  // ----- after a wrong one

  /** Everyone else dies. */
  lemma {:induction false} CrashOthers(cfg: Config, trusted: LayerSet, sure: LayerSet, p: Pid, s0: State, s: State) returns (s': State)
    requires Held(cfg, trusted, p, s0, s) && Inv(cfg, sure, s) && p in s.procs && InShared(s.procs[p].pc)
    ensures Held(cfg, trusted, p, s0, s') && Inv(cfg, sure, s')
    ensures s'.procs == map[p := s.procs[p]]
    decreases s.procs.Keys
  {
    if q :| q in s.procs && q != p {
      var m := Crashed(s, q);
      HeldExtend(cfg, trusted, p, s0, s, Crash(q), m);
      Safety.StepInv(cfg, sure, s, Crash(q), m);
      s' := CrashOthers(cfg, trusted, sure, p, s0, m);
    } else {
      s' := s;
    }
  }

  /** What holds for some layers holds for fewer. */
  lemma Fewer(cfg: Config, trusted: LayerSet, sure: LayerSet, s: State)
    requires Inv(cfg, trusted, s) && forall c | c in sure :: c in trusted
    ensures Inv(cfg, sure, s)
  {
    forall c ensures FinalOk(cfg, sure, s, c) {
      assert FinalOk(cfg, trusted, s, c);
    }
    forall id | id in s.committed ensures ImageOk(cfg, sure, s, id, s.committed[id]) {
      assert ImageOk(cfg, trusted, s, id, s.committed[id]);
    }
    forall q | q in s.procs ensures ProcOk(cfg, sure, s, s.procs[q]) {
      assert ProcOk(cfg, trusted, s, s.procs[q]);
    }
  }

  lemma {:induction false} LowerDenote(cfg: Config, cs: seq<ChainId>, i: nat, j: nat)
    requires IsChain(cs) && j <= i < |cs| && Denote(cfg, cs[i]).Some?
    ensures Denote(cfg, cs[j]).Some?
    decreases i
  {
    if j < i {
      assert Start(cfg, cs[i]) == Denote(cfg, cs[i - 1]);
      LowerDenote(cfg, cs, i - 1, j);
    }
  }

  /** On the way, through the layers below, to unpacking layer `i`. */
  predicate Bound(pc: PC, i: nat) {
    && pc.Layer? && Good(pc)
    && (pc.i < i || (pc.i == i && (pc.work.Download? || pc.work.CreateTemp? || pc.work.ChownTemp? || pc.work.BaseDir? || pc.work.UnpackTemp?)))
  }

  /** Alone in the store, with the layers up to `i` applicable, and all below it trusted. */
  ghost predicate Climbs(cfg: Config, sure: LayerSet, s: State, p: Pid, job: Job, i: nat) {
    && Inv(cfg, sure, s) && s.procs.Keys == {p} && s.procs[p].job == job && job.Create? && i < |job.chain|
    && Bound(s.procs[p].pc, i) && Denote(cfg, job.chain[i]).Some?
    && forall j | 0 <= j < i :: job.chain[j] in sure
  }

  lemma AloneWaitsForNobody(cfg: Config, sure: LayerSet, s: State, p: Pid, q: Pid)
    requires Inv(cfg, sure, s) && s.procs.Keys == {p} && s.procs[p].pc.Layer?
    ensures !Liveness.WaitsFor(s, p, q)
  {
    if Liveness.WaitsFor(s, p, q) {
      Liveness.WaitingDescends(cfg, sure, s, p, q);
    }
  }

  lemma NextBound(n: nat, pc: PC, next: PC, i: nat)
    requires Bound(pc, i) && !(pc.i == i && pc.work.UnpackTemp?) && i < n
    requires Liveness.LayerNext(n, pc.i, pc.work, next) && Good(next)
    ensures Bound(next, i)
  {
  }

  lemma OneStepUp(cfg: Config, trusted: LayerSet, sure: LayerSet, p: Pid, s0: State, s: State, job: Job, i: nat) returns (s': State)
    requires Held(cfg, trusted, p, s0, s) && Climbs(cfg, sure, s, p, job, i)
    requires !(s.procs[p].pc.i == i && s.procs[p].pc.work.UnpackTemp?)
    ensures Held(cfg, trusted, p, s0, s') && Climbs(cfg, sure, s', p, job, i)
    ensures Fits(s.procs[p]) && Fits(s'.procs[p])
    ensures Liveness.Closer(Liveness.DistanceToEnd(s'.procs[p]), Liveness.DistanceToEnd(s.procs[p]))
  {
    var a := NextAnswer(cfg, sure, s, p);
    s' := StepLayer(cfg, s, p, a);
    var next := GoesUp(cfg, sure, s, p, job, i, a);
    Liveness.LayerCloser(s.procs[p], next);
    HeldExtend(cfg, trusted, p, s0, s, Go(p, a), s');
    Safety.StepInv(cfg, sure, s, Go(p, a), s');
  }

  lemma NextAnswer(cfg: Config, sure: LayerSet, s: State, p: Pid) returns (a: Answer)
    requires Inv(cfg, sure, s) && s.procs.Keys == {p} && s.procs[p].pc.Layer?
    ensures a.ok && Possible(s, Go(p, a)) && Truthful(s, Go(p, a))
  {
    forall q ensures !Liveness.WaitsFor(s, p, q) {
      AloneWaitsForNobody(cfg, sure, s, p, q);
    }
    a := Liveness.CanStep(cfg, sure, s, p);
  }

  lemma GoesUp(cfg: Config, sure: LayerSet, s: State, p: Pid, job: Job, i: nat, a: Answer) returns (next: PC)
    requires Climbs(cfg, sure, s, p, job, i) && Possible(s, Go(p, a)) && a.ok
    requires !(s.procs[p].pc.i == i && s.procs[p].pc.work.UnpackTemp?)
    ensures Fits(s.procs[p]) && Liveness.GoesTo(s, StepLayer(cfg, s, p, a), p, next) && Bound(next, i)
    ensures Liveness.LayerNext(|job.chain|, s.procs[p].pc.i, s.procs[p].pc.work, next)
  {
    LowerDenote(cfg, job.chain, i, s.procs[p].pc.i);
    StaysGood(cfg, sure, s, p, a);
    next := Liveness.LayerGoesTo(cfg, s, p, a);
    NextBound(|job.chain|, s.procs[p].pc, next, i);
  }

  lemma {:induction false} Climb(cfg: Config, trusted: LayerSet, sure: LayerSet, p: Pid, s0: State, s: State, job: Job, i: nat) returns (s': State)
    requires Held(cfg, trusted, p, s0, s) && Climbs(cfg, sure, s, p, job, i) && Fits(s.procs[p])
    ensures Held(cfg, trusted, p, s0, s') && Climbs(cfg, sure, s', p, job, i)
    ensures s'.procs[p].pc.i == i && s'.procs[p].pc.work.UnpackTemp?
    decreases Liveness.DistanceToEnd(s.procs[p]).phase, Liveness.DistanceToEnd(s.procs[p]).big, Liveness.DistanceToEnd(s.procs[p]).small
  {
    if s.procs[p].pc.i == i && s.procs[p].pc.work.UnpackTemp? {
      s' := s;
    } else {
      var m := OneStepUp(cfg, trusted, sure, p, s0, s, job, i);
      s' := Climb(cfg, trusted, sure, p, s0, m, job, i);
    }
  }

  function Yes(): Answer {
    Answer(true, false, 0, map[], Final(Base("")), "")
  }

  lemma UnpackFails(cfg: Config, s: State, p: Pid, a: Answer, i: nat, n: nat)
    requires p in s.procs && Fits(s.procs[p]) && s.procs[p].pc == Layer(i, UnpackTemp(n)) && !a.ok
    ensures StepLayer(cfg, s, p, a).procs == s.procs[p := s.procs[p].(pc := Layer(i, DropMeta))]
  {
  }

  /** The unpack fails, and its cleanup destroys the final name. */
  lemma FailsAndDrops(cfg: Config, trusted: LayerSet, p: Pid, s0: State, s: State, i: nat, n: nat, c: ChainId) returns (s': State)
    requires Held(cfg, trusted, p, s0, s) && p in s.procs && Fits(s.procs[p]) && s.procs[p].pc == Layer(i, UnpackTemp(n))
    requires s.procs[p].job.chain[i] == c
    ensures Held(cfg, trusted, p, s0, s') && Live(Final(c)) !in s'.vols
  {
    var no := Yes().(ok := false);
    var m := StepLayer(cfg, s, p, no);
    UnpackFails(cfg, s, p, no, i, n);
    HeldExtend(cfg, trusted, p, s0, s, Go(p, no), m);
    s' := Drops(cfg, trusted, p, s0, m, i, c);
  }

  lemma Drops(cfg: Config, trusted: LayerSet, p: Pid, s0: State, s: State, i: nat, c: ChainId) returns (s': State)
    requires Held(cfg, trusted, p, s0, s) && p in s.procs && Fits(s.procs[p]) && s.procs[p].pc == Layer(i, DropMeta)
    requires s.procs[p].job.chain[i] == c
    ensures Held(cfg, trusted, p, s0, s') && Live(Final(c)) !in s'.vols
  {
    var m := StepLayer(cfg, s, p, Yes());
    assert m.procs[p].pc == Layer(i, DropFinal);
    HeldExtend(cfg, trusted, p, s0, s, Go(p, Yes()), m);
    s' := StepLayer(cfg, m, p, Yes());
    assert s'.procs[p].pc == Layer(i, Unwind);
    HeldExtend(cfg, trusted, p, s0, m, Go(p, Yes()), s');
  }

  /** The others die, the layers below are built if they are missing, and the volume goes. */
  lemma WrongAnswerLoses(cfg: Config, trusted: LayerSet, s: State, p: Pid, a: Answer, c: ChainId) returns (s': State)
    requires Inv(cfg, trusted, s) && Possible(s, Go(p, a)) && Safety.WorksOn(s, p, c, Reprobe)
    requires forall j | 0 <= j <= s.procs[p].pc.i :: s.procs[p].job.chain[j] in trusted
    requires Live(Final(c)) in s.vols && !a.ok
    ensures Held(cfg, trusted, p, Next(cfg, s, Go(p, a)), s') && Live(Final(c)) !in s'.vols
  {
    var i, job := s.procs[p].pc.i, s.procs[p].job;
    var sure: LayerSet := iset d | d in trusted && d != c;
    var s1 := Next(cfg, s, Go(p, a));
    Deceived(cfg, trusted, sure, s, p, a, c);
    s' := DeceivedLoses(cfg, trusted, sure, s1, p, job, i);
  }

  lemma Deceived(cfg: Config, trusted: LayerSet, sure: LayerSet, s: State, p: Pid, a: Answer, c: ChainId)
    requires Inv(cfg, trusted, s) && Possible(s, Go(p, a)) && Safety.WorksOn(s, p, c, Reprobe)
    requires forall j | 0 <= j <= s.procs[p].pc.i :: s.procs[p].job.chain[j] in trusted
    requires Live(Final(c)) in s.vols && !a.ok && sure == iset d | d in trusted && d != c
    ensures
      var i, job, s1 := s.procs[p].pc.i, s.procs[p].job, Next(cfg, s, Go(p, a));
      && Inv(cfg, sure, s1) && p in s1.procs && s1.procs[p].job == job && job.Create? && Bound(s1.procs[p].pc, i)
      && Denote(cfg, c).Some? && forall j | 0 <= j < i :: job.chain[j] in sure
  {
    var i := s.procs[p].pc.i;
    assert FinalOk(cfg, trusted, s, c);
    Fewer(cfg, trusted, sure, s);
    Safety.StepInv(cfg, sure, s, Go(p, a), Next(cfg, s, Go(p, a)));
    LowerAreSure(s.procs[p].job.chain, i, trusted, sure);
  }

  /** The process believes the volume absent. */
  lemma DeceivedLoses(cfg: Config, trusted: LayerSet, sure: LayerSet, s: State, p: Pid, job: Job, i: nat) returns (s': State)
    requires Inv(cfg, sure, s) && p in s.procs && s.procs[p].job == job && job.Create? && i < |job.chain|
    requires Bound(s.procs[p].pc, i) && Denote(cfg, job.chain[i]).Some?
    requires forall j | 0 <= j < i :: job.chain[j] in sure
    ensures Held(cfg, trusted, p, s, s') && Live(Final(job.chain[i])) !in s'.vols
  {
    HeldStay(cfg, trusted, p, s);
    var alone := CrashOthers(cfg, trusted, sure, p, s, s);
    assert alone.procs.Keys == {p};
    var m := Climb(cfg, trusted, sure, p, s, alone, job, i);
    s' := FailsAndDrops(cfg, trusted, p, s, m, i, m.procs[p].pc.work.n, job.chain[i]);
  }

  lemma LowerAreSure(cs: seq<ChainId>, i: nat, trusted: LayerSet, sure: LayerSet)
    requires IsChain(cs) && i < |cs| && sure == iset d | d in trusted && d != cs[i]
    requires forall j | 0 <= j <= i :: cs[j] in trusted
    ensures forall j | 0 <= j < i :: cs[j] in sure
  {
    forall j | 0 <= j < i ensures cs[j] != cs[i] {
      assert Depth(cs[j]) == j + 1 && Depth(cs[i]) == i + 1;
    }
  }

  /** When the second check of a layer whose volume is there has been answered, some way the system can go on
      removes the volume while the process is still in the shared section, exactly when the answer was wrong. */
  lemma WrongCheckLosesIff(cfg: Config, trusted: LayerSet, s: State, p: Pid, a: Answer, c: ChainId)
    requires Inv(cfg, trusted, s) && Possible(s, Go(p, a)) && Safety.WorksOn(s, p, c, Reprobe)
    requires forall j | 0 <= j <= s.procs[p].pc.i :: s.procs[p].job.chain[j] in trusted
    requires Live(Final(c)) in s.vols
    ensures (exists s' :: Held(cfg, trusted, p, Next(cfg, s, Go(p, a)), s') && Live(Final(c)) !in s'.vols) <==> !a.ok
  {
    if a.ok {
      forall s' | Held(cfg, trusted, p, Next(cfg, s, Go(p, a)), s') ensures Live(Final(c)) in s'.vols {
        RightAnswerKeeps(cfg, trusted, s, p, a, c, s');
      }
    } else {
      var s' := WrongAnswerLoses(cfg, trusted, s, p, a, c);
      assert Held(cfg, trusted, p, Next(cfg, s, Go(p, a)), s') && Live(Final(c)) !in s'.vols;
    }
  }
}
