/** Stretches of a run, put together step by step. */
module Paths {
  import opened ChainIds
  import opened Names
  import opened Contents
  import opened Protocol

  ghost predicate TruthfulStepAt(cfg: Config, states: seq<State>, events: seq<Event>, k: nat)
    requires k < |events| && |states| == |events| + 1
  {
    Step(cfg, states[k], events[k], states[k + 1]) && Truthful(states[k], events[k])
  }

  ghost predicate IsPath(cfg: Config, states: seq<State>, events: seq<Event>) {
    && |states| == |events| + 1
    && forall k | 0 <= k < |events| :: TruthfulStepAt(cfg, states, events, k)
  }

  /** `s'` follows from `s` by steps whose second existence checks are all answered truthfully. */
  ghost predicate Connected(cfg: Config, s: State, s': State) {
    exists states, events :: IsPath(cfg, states, events) && states[0] == s && states[|events|] == s'
  }

  /** Some such run leads to `s`. */
  ghost predicate Reachable(cfg: Config, s: State) {
    Connected(cfg, INIT, s)
  }

  /** It is a run, and it is sound for every layer. */
  lemma PathsAreSoundRuns(cfg: Config, states: seq<State>, events: seq<Event>, trusted: LayerSet)
    requires IsPath(cfg, states, events) && states[0] == INIT
    ensures IsRun(cfg, states, events) && SoundRun(trusted, states, events)
  {
    forall k | 0 <= k < |events| ensures StepAt(cfg, states, events, k) && Sound(trusted, states[k], events[k]) {
      assert TruthfulStepAt(cfg, states, events, k);
    }
  }

  lemma Stay(cfg: Config, s: State)
    ensures Connected(cfg, s, s)
  {
    assert IsPath(cfg, [s], []);
  }

  lemma PathLonger(cfg: Config, states: seq<State>, events: seq<Event>, e: Event, s': State)
    requires IsPath(cfg, states, events) && Step(cfg, states[|events|], e, s') && Truthful(states[|events|], e)
    ensures IsPath(cfg, states + [s'], events + [e])
  {
    var longer, more := states + [s'], events + [e];
    forall k | 0 <= k < |more| ensures TruthfulStepAt(cfg, longer, more, k) {
      if k < |events| {
        assert TruthfulStepAt(cfg, states, events, k);
      }
    }
  }

  lemma Extend(cfg: Config, s: State, m: State, e: Event, s': State)
    requires Connected(cfg, s, m) && Step(cfg, m, e, s') && Truthful(m, e)
    ensures Connected(cfg, s, s')
  {
    var states, events :| IsPath(cfg, states, events) && states[0] == s && states[|events|] == m;
    PathLonger(cfg, states, events, e, s');
    assert (states + [s'])[0] == s && (states + [s'])[|events + [e]|] == s';
  }

  // ----- steps with a process in plain sight

  /** The answer "yes", with the stamp `n` for whoever needs one. */
  function Yes(n: nat): Answer {
    Answer(true, false, n, map[], Final(Base("")), "")
  }

  function No(): Answer {
    Yes(0).(ok := false)
  }

  function With(s: State, p: Pid, job: Job, pc: PC): State {
    s.(procs := s.procs[p := Proc(job, pc)])
  }

  lemma GoStep(cfg: Config, s: State, m: State, p: Pid, a: Answer, s': State)
    requires Connected(cfg, s, m)
    requires Possible(m, Go(p, a)) && Truthful(m, Go(p, a)) && s' == Exec(cfg, m, p, a)
    ensures Connected(cfg, s, s')
  {
    Extend(cfg, s, m, Go(p, a), s');
  }

  /** The step of `p` from `pc`, over the rest `m` of the state, leads to `pc'` over `u`. */
  ghost predicate Leads(cfg: Config, m: State, p: Pid, job: Job, pc: PC, a: Answer, u: State, pc': PC) {
    && Possible(With(m, p, job, pc), Go(p, a)) && Truthful(With(m, p, job, pc), Go(p, a))
    && Exec(cfg, With(m, p, job, pc), p, a) == At(With(u, p, job, pc), p, pc')
  }

  /** One step of `p` on the way from `s`. */
  lemma Onward(cfg: Config, s: State, m: State, p: Pid, job: Job, pc: PC, a: Answer, u: State, pc': PC)
    requires Connected(cfg, s, With(m, p, job, pc)) && Leads(cfg, m, p, job, pc, a, u, pc')
    ensures Connected(cfg, s, With(u, p, job, pc'))
  {
    assert At(With(u, p, job, pc), p, pc') == With(u, p, job, pc') by {
      assert u.procs[p := Proc(job, pc)][p := Proc(job, pc')] == u.procs[p := Proc(job, pc')];
    }
    Extend(cfg, s, With(m, p, job, pc), Go(p, a), With(u, p, job, pc'));
  }
}
