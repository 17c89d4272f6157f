/** The course of a Create: it cleans before it pulls if it was asked to, and otherwise not. */
module Courses {
  import opened ChainIds
  import opened Contents
  import opened Protocol
  import Leftovers
  import Liveness
  import Safety

  predicate Before(pc: PC) {
    pc.CheckId? || pc.FetchInfo?
  }

  /** Past the clean, if there is one. */
  predicate Pulling(pc: PC) {
    pc.LockShared? || pc.CheckQuota? || pc.Layer? || pc.Imaging? || pc.UnlockShared?
  }

  predicate Measures(s: State, p: Pid) {
    p in s.procs && s.procs[p].pc == Cleaning(Measure)
  }

  /** The process takes the first step of a clean. */
  predicate Begins(s: State, e: Event, p: Pid) {
    e.Go? && e.p == p && Measures(s, p)
  }

  /** Between `j` and `k` the process began a clean. */
  ghost predicate Cleaned(states: seq<State>, events: seq<Event>, j: nat, k: nat, p: Pid)
    requires k <= |states| && k <= |events|
  {
    exists i | j <= i < k :: Begins(states[i], events[i], p)
  }

  predicate OnCourse(job: Job, pc: PC, cleaned: bool)
    requires job.Create?
  {
    && (Before(pc) ==> !cleaned)
    && (pc.Cleaning? ==> job.cleanFirst && (cleaned <==> !pc.clean.Measure?))
    && (Pulling(pc) ==> (cleaned <==> job.cleanFirst))
    && !pc.Deleting?
  }

  predicate Keeps(s: State, s': State, p: Pid, cleaned: bool) {
    p in s.procs && s.procs[p].job.Create? &&
    (p in s'.procs ==> s'.procs[p].job == s.procs[p].job && OnCourse(s.procs[p].job, s'.procs[p].pc, cleaned))
  }

  ghost predicate Going(s: State, p: Pid, cleaned: bool) {
    p in s.procs && Fits(s.procs[p]) && s.procs[p].job.Create? && OnCourse(s.procs[p].job, s.procs[p].pc, cleaned)
  }

  lemma EdgeKeeps(s: State, p: Pid, a: Answer, cleaned: bool)
    requires Going(s, p, cleaned)
    requires var pc := s.procs[p].pc; !pc.Cleaning? && !pc.Deleting? && !pc.Layer? && !pc.Imaging?
    ensures Keeps(s, StepEdge(s, p, a), p, cleaned)
  {
  }

  lemma ReadKeeps(s: State, p: Pid, a: Answer, cleaned: bool)
    requires Going(s, p, cleaned) && s.procs[p].pc.Cleaning?
    requires var pc := s.procs[p].pc.clean; pc.ListVolumes? || pc.ListImages? || pc.ReadRecords? || pc.Mark?
    ensures Keeps(s, StepClean(s, p, a), p, true)
  {
  }

  lemma CollectKeeps(s: State, p: Pid, a: Answer, cleaned: bool)
    requires Going(s, p, cleaned) && s.procs[p].pc.Cleaning?
    requires var pc := s.procs[p].pc.clean; pc.UnlockExclusive? || pc.ListCondemned? || pc.Collect? || pc.CollectVolume?
    ensures Keeps(s, StepClean(s, p, a), p, true)
  {
  }

  lemma LockKeeps(s: State, p: Pid, a: Answer, cleaned: bool)
    requires Going(s, p, cleaned) && s.procs[p].pc.Cleaning?
    requires s.procs[p].pc.clean.Measure? || s.procs[p].pc.clean.LockExclusive?
    ensures Keeps(s, StepClean(s, p, a), p, true)
  {
  }

  lemma LayerKeeps(cfg: Config, s: State, p: Pid, a: Answer, cleaned: bool)
    requires Going(s, p, cleaned) && s.procs[p].pc.Layer?
    ensures Keeps(s, StepLayer(cfg, s, p, a), p, cleaned)
  {
    var pc := Liveness.LayerGoesTo(cfg, s, p, a);
    assert Pulling(pc);
  }

  lemma ImageKeeps(s: State, p: Pid, a: Answer, cleaned: bool)
    requires Going(s, p, cleaned) && s.procs[p].pc.Imaging?
    requires var pc := s.procs[p].pc.image; pc.MakeImageDir? || pc.SnapshotImage? || pc.FinishImage?
    ensures Keeps(s, StepImage(s, p, a), p, cleaned)
  {
  }

  lemma RecordKeeps(s: State, p: Pid, a: Answer, cleaned: bool)
    requires Going(s, p, cleaned) && s.procs[p].pc.Imaging?
    requires var pc := s.procs[p].pc.image; pc.OpenRecord? || pc.WriteRecord? || pc.DropImage?
    ensures Keeps(s, StepImage(s, p, a), p, cleaned)
  {
  }

  lemma OwnKeeps(cfg: Config, s: State, p: Pid, a: Answer, cleaned: bool)
    requires Going(s, p, cleaned) && Possible(s, Go(p, a))
    ensures Keeps(s, Exec(cfg, s, p, a), p, cleaned || Measures(s, p))
  {
    match s.procs[p].pc {
      case Cleaning(pc) =>
        if pc.Measure? || pc.LockExclusive? {
          LockKeeps(s, p, a, cleaned);
        } else if pc.ListVolumes? || pc.ListImages? || pc.ReadRecords? || pc.Mark? {
          ReadKeeps(s, p, a, cleaned);
        } else {
          CollectKeeps(s, p, a, cleaned);
        }
      case Layer(_, _) => LayerKeeps(cfg, s, p, a, cleaned);
      case Imaging(pc) =>
        if pc.MakeImageDir? || pc.SnapshotImage? || pc.FinishImage? {
          ImageKeeps(s, p, a, cleaned);
        } else {
          RecordKeeps(s, p, a, cleaned);
        }
      case _ => EdgeKeeps(s, p, a, cleaned);
    }
  }

  /** As long as the process is there. */
  ghost predicate There(states: seq<State>, j: nat, k: nat, p: Pid) {
    j <= k < |states| && forall i | j <= i <= k :: p in states[i].procs
  }

  lemma CleanedNext(states: seq<State>, events: seq<Event>, j: nat, k: nat, p: Pid)
    requires j <= k < |states| && k < |events|
    ensures Cleaned(states, events, j, k + 1, p) <==> Cleaned(states, events, j, k, p) || Begins(states[k], events[k], p)
  {
    if Cleaned(states, events, j, k, p) {
      var i :| j <= i < k && Begins(states[i], events[i], p);
      assert j <= i < k + 1;
    }
  }

  lemma NextOnCourse(cfg: Config, states: seq<State>, events: seq<Event>, k: nat, p: Pid, cleaned: bool)
    requires IsRun(cfg, states, events) && k < |events|
    requires Going(states[k], p, cleaned) && p in states[k + 1].procs
    ensures Keeps(states[k], states[k + 1], p, cleaned || Begins(states[k], events[k], p))
  {
    Safety.AnyRunInv(cfg, states, events, k);
    assert StepAt(cfg, states, events, k);
    if events[k].p == p {
      OwnKeeps(cfg, states[k], p, events[k].answer, cleaned);
    } else if states[k].procs[p].job.Create? {
      Leftovers.OthersKeep(cfg, states[k], events[k], states[k + 1], p);
    }
  }

  lemma FitsInRun(cfg: Config, states: seq<State>, events: seq<Event>, k: nat, p: Pid)
    requires IsRun(cfg, states, events) && k < |states| && p in states[k].procs
    ensures Fits(states[k].procs[p])
  {
    Safety.AnyRunInv(cfg, states, events, k);
  }

  ghost predicate OnCourseAt(states: seq<State>, events: seq<Event>, j: nat, k: nat, p: Pid, job: Job)
    requires j <= k < |states| && |states| == |events| + 1 && job.Create?
  {
    && p in states[k].procs && Fits(states[k].procs[p]) && states[k].procs[p].job == job
    && OnCourse(job, states[k].procs[p].pc, Cleaned(states, events, j, k, p))
  }

  lemma CourseNext(cfg: Config, states: seq<State>, events: seq<Event>, j: nat, k: nat, p: Pid, job: Job)
    requires IsRun(cfg, states, events) && j <= k < |events| && job.Create?
    requires OnCourseAt(states, events, j, k, p, job) && p in states[k + 1].procs
    ensures OnCourseAt(states, events, j, k + 1, p, job)
  {
    NextOnCourse(cfg, states, events, k, p, Cleaned(states, events, j, k, p));
    CleanedNext(states, events, j, k, p);
    FitsInRun(cfg, states, events, k + 1, p);
  }

  lemma {:induction false} StaysOnCourse(cfg: Config, states: seq<State>, events: seq<Event>, j: nat, k: nat, p: Pid, job: Job)
    requires IsRun(cfg, states, events) && There(states, j, k, p)
    requires states[j].procs[p] == Proc(job, CheckId) && job.Create?
    ensures OnCourseAt(states, events, j, k, p, job)
    decreases k
  {
    if j < k {
      StaysOnCourse(cfg, states, events, j, k - 1, p, job);
      CourseNext(cfg, states, events, j, k - 1, p, job);
    } else {
      FitsInRun(cfg, states, events, k, p);
    }
  }

  /** A Create that has come as far as the shared lock has begun a clean on the way exactly if it was asked to;
      and if it was not, it is at no moment cleaning. */
  lemma CleansIffAsked(cfg: Config, states: seq<State>, events: seq<Event>, j: nat, k: nat, p: Pid, id: ImageId, chain: seq<ChainId>, cleanFirst: bool)
    requires IsRun(cfg, states, events) && There(states, j, k, p)
    requires states[j].procs[p] == Proc(Create(id, chain, cleanFirst), CheckId)
    ensures states[k].procs[p].pc.LockShared? || InShared(states[k].procs[p].pc) ==>
      (Cleaned(states, events, j, k, p) <==> cleanFirst)
    ensures !cleanFirst ==> !states[k].procs[p].pc.Cleaning?
  {
    StaysOnCourse(cfg, states, events, j, k, p, Create(id, chain, cleanFirst));
  }
}
