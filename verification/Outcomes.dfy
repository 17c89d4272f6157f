/** How a Create or a Delete ends whose own calls all succeed, whatever the others do meanwhile. */
module Outcomes {
  import opened Options
  import opened Names
  import opened Contents
  import opened Protocol
  import opened Invariant
  import LayerProgress
  import Leftovers
  import Liveness
  import Safety

  /** The call that the step makes succeeds; destroying a volume that is not there does not. */
  predicate Succeeds(s: State, p: Pid, a: Answer)
    requires p in s.procs
  {
    var pc := s.procs[p].pc;
    a.ok && (pc.Cleaning? && pc.clean.CollectVolume? ==> Gc(pc.clean.volume) in s.vols)
  }

  /** Nothing has gone wrong so far. */
  predicate OnTrack(s: State, proc: Proc)
    requires !proc.job.Clean?
  {
    var id := proc.job.id;
    match proc.pc
    case Deleting(CheckImage) => id in s.images
    case Deleting(_) => true
    case UnlockShared => proc.job.Create? && id in s.committed && s.committed[id] == proc.job.chain
    case Imaging(work) => !work.DropImage? && (work.MakeImageDir? ==> id !in s.images)
    case Layer(_, work) => !work.DropMeta? && !work.DropFinal? && !work.Unwind? && id !in s.images
    case Cleaning(Collect(_, good)) => good && id !in s.images
    case Cleaning(CollectVolume(_, _, good)) => good && id !in s.images
    case _ => id !in s.images
  }

  /** What a successful job leaves behind: a registered image, or neither image nor record. */
  predicate Accomplished(s: State, job: Job) {
    match job
    case Create(id, chain, _) => id in s.committed && s.committed[id] == chain
    case Delete(id) => id !in s.images && id !in s.records
    case Clean(_) => true
  }

  ghost predicate Fares(s: State, s': State, p: Pid) {
    && p in s.procs && !s.procs[p].job.Clean?
    && if p in s'.procs then s'.procs[p].job == s.procs[p].job && OnTrack(s', s'.procs[p]) else Accomplished(s', s.procs[p].job)
  }

  /** The layers that the job builds on are trusted. */
  ghost predicate Relies(trusted: LayerSet, job: Job) {
    job.Create? ==> forall c | c in job.chain :: c in trusted
  }

  ghost predicate AtWork(cfg: Config, trusted: LayerSet, s: State, p: Pid, a: Answer) {
    && Inv(cfg, trusted, s) && Possible(s, Go(p, a)) && Succeeds(s, p, a) && Relies(trusted, s.procs[p].job)
    && !s.procs[p].job.Clean? && OnTrack(s, s.procs[p])
  }

  /** All layers of the image can be applied. */
  ghost predicate Applicable(cfg: Config, job: Job) {
    job.Create? ==> forall c | c in job.chain :: Denote(cfg, c).Some?
  }

  /** A move to `pc` that keeps the images as they are. */
  lemma MoveFares(s: State, s': State, p: Pid, pc: PC)
    requires p in s.procs && !s.procs[p].job.Clean?
    requires s'.procs == s.procs[p := s.procs[p].(pc := pc)] && s'.images == s.images && s'.committed == s.committed
    requires OnTrack(s, s.procs[p].(pc := pc))
    ensures Fares(s, s', p)
  {
  }

  ghost predicate InClean(s: State, p: Pid, a: Answer) {
    && p in s.procs && Fits(s.procs[p]) && s.procs[p].job.Create? && s.procs[p].pc.Cleaning?
    && Succeeds(s, p, a) && OnTrack(s, s.procs[p])
  }

  lemma AfterCleanFares(s: State, p: Pid)
    requires p in s.procs && s.procs[p].job.Create? && s.procs[p].job.id !in s.images
    ensures Fares(s, AfterClean(s, p, true), p)
  {
  }

  lemma ListingFares(s: State, p: Pid, a: Answer)
    requires InClean(s, p, a)
    requires var pc := s.procs[p].pc.clean; pc.ListVolumes? || pc.ListImages?
    ensures Fares(s, StepClean(s, p, a), p)
  {
    MoveFares(s, StepClean(s, p, a), p, StepClean(s, p, a).procs[p].pc);
  }

  lemma ReadingFares(s: State, p: Pid, a: Answer)
    requires InClean(s, p, a) && s.procs[p].pc.clean.ReadRecords?
    ensures Fares(s, StepClean(s, p, a), p)
  {
    MoveFares(s, StepClean(s, p, a), p, StepClean(s, p, a).procs[p].pc);
  }

  lemma MarkingFares(s: State, p: Pid, a: Answer, todo: set<VolumeId>)
    requires InClean(s, p, a) && s.procs[p].pc.clean == Mark(todo)
    ensures Fares(s, StepClean(s, p, a), p)
  {
    MoveFares(s, StepClean(s, p, a), p, Cleaning(if todo == {} then UnlockExclusive else Mark(todo - {a.volume})));
  }

  lemma CollectingFares(s: State, p: Pid, a: Answer)
    requires InClean(s, p, a)
    requires var pc := s.procs[p].pc.clean; pc.UnlockExclusive? || pc.ListCondemned? || pc.Collect? || pc.CollectVolume?
    ensures Fares(s, StepClean(s, p, a), p)
  {
    if s.procs[p].pc.clean.Collect? && s.procs[p].pc.clean.todo == {} {
      AfterCleanFares(s, p);
    } else {
      MoveFares(s, StepClean(s, p, a), p, StepClean(s, p, a).procs[p].pc);
    }
  }

  lemma CleanFares(s: State, p: Pid, a: Answer)
    requires InClean(s, p, a)
    ensures Fares(s, StepClean(s, p, a), p)
  {
    match s.procs[p].pc.clean {
      case Measure =>
        if a.alt { AfterCleanFares(s, p); } else { MoveFares(s, StepClean(s, p, a), p, Cleaning(LockExclusive)); }
      case LockExclusive => MoveFares(s, StepClean(s, p, a), p, Cleaning(ListVolumes));
      case ReadRecords(_, _) => ReadingFares(s, p, a);
      case ListVolumes => ListingFares(s, p, a);
      case ListImages(_) => ListingFares(s, p, a);
      case Mark(todo) => MarkingFares(s, p, a, todo);
      case _ => CollectingFares(s, p, a);
    }
  }

  lemma EdgeFares(s: State, p: Pid, a: Answer)
    requires p in s.procs && Fits(s.procs[p]) && s.procs[p].job.Create? && a.ok && OnTrack(s, s.procs[p])
    requires var pc := s.procs[p].pc; !pc.Cleaning? && !pc.Deleting? && !pc.Layer? && !pc.Imaging?
    ensures Fares(s, StepEdge(s, p, a), p)
  {
    var job := s.procs[p].job;
    match s.procs[p].pc {
      case CheckId => MoveFares(s, StepEdge(s, p, a), p, FetchInfo);
      case FetchInfo => MoveFares(s, StepEdge(s, p, a), p, if job.cleanFirst then Cleaning(Measure) else LockShared);
      case LockShared => MoveFares(s, StepEdge(s, p, a), p, CheckQuota);
      case CheckQuota => MoveFares(s, StepEdge(s, p, a), p, Layer(|job.chain| - 1, Probe));
      case UnlockShared =>
    }
  }

  lemma SnapshotFares(s: State, p: Pid, a: Answer)
    requires p in s.procs && Fits(s.procs[p]) && s.procs[p].pc.Imaging? && a.ok && OnTrack(s, s.procs[p])
    requires var chain := s.procs[p].job.chain; Live(Final(chain[|chain| - 1])) in s.vols
    requires var pc := s.procs[p].pc.image; pc.MakeImageDir? || pc.SnapshotImage? || pc.FinishImage?
    ensures Fares(s, StepImage(s, p, a), p)
  {
  }

  lemma ImageFares(s: State, p: Pid, a: Answer)
    requires p in s.procs && Fits(s.procs[p]) && s.procs[p].pc.Imaging? && a.ok && OnTrack(s, s.procs[p])
    requires var chain := s.procs[p].job.chain; Live(Final(chain[|chain| - 1])) in s.vols
    ensures Fares(s, StepImage(s, p, a), p)
  {
    if s.procs[p].pc.image.MakeImageDir? || s.procs[p].pc.image.SnapshotImage? || s.procs[p].pc.image.FinishImage? {
      SnapshotFares(s, p, a);
    }
  }

  lemma DeleteFares(s: State, p: Pid, a: Answer)
    requires p in s.procs && Fits(s.procs[p]) && s.procs[p].pc.Deleting? && a.ok && OnTrack(s, s.procs[p])
    requires s.procs[p].pc.delete.Deregister? ==> s.procs[p].job.id !in s.images
    ensures Fares(s, StepDelete(s, p, a), p)
  {
  }

  lemma LayerFares(cfg: Config, trusted: LayerSet, s: State, p: Pid, a: Answer)
    requires AtWork(cfg, trusted, s, p, a) && s.procs[p].pc.Layer? && Applicable(cfg, s.procs[p].job)
    ensures Fares(s, StepLayer(cfg, s, p, a), p)
  {
    var pc := Liveness.LayerGoesTo(cfg, s, p, a);
    LayerProgress.StaysGood(cfg, trusted, s, p, a);
    Leftovers.LayerSparesImages(cfg, s, p, a);
    MoveFares(s, StepLayer(cfg, s, p, a), p, pc);
  }

  lemma OwnStepFares(cfg: Config, trusted: LayerSet, s: State, p: Pid, a: Answer)
    requires AtWork(cfg, trusted, s, p, a) && Applicable(cfg, s.procs[p].job)
    ensures Fares(s, Exec(cfg, s, p, a), p)
  {
    assert ProcOk(cfg, trusted, s, s.procs[p]);
    match s.procs[p].pc {
      case Cleaning(_) => CleanFares(s, p, a);
      case Layer(_, _) => LayerFares(cfg, trusted, s, p, a);
      case Imaging(_) => ImageFares(s, p, a);
      case Deleting(_) => DeleteFares(s, p, a);
      case _ => EdgeFares(s, p, a);
    }
  }

  /** The steps of the others, arrivals and crashes included, do not take `p` off its track. */
  lemma OthersHarmless(cfg: Config, trusted: LayerSet, s: State, e: Event, s': State, p: Pid)
    requires Inv(cfg, trusted, s) && Step(cfg, s, e, s') && Sound(trusted, s, e) && e.p != p
    requires p in s.procs && !s.procs[p].job.Clean? && OnTrack(s, s.procs[p])
    ensures Fares(s, s', p) && p in s'.procs
  {
    Safety.EventKept(cfg, trusted, s, e);
    Safety.StepInv(cfg, trusted, s, e, s');
    assert s.procs[p].job.Names(s.procs[p].job.id);
    assert SameId(s, s', s.procs[p].job.id);
    if s.procs[p].pc.UnlockShared? {
      var id := s.procs[p].job.id;
      assert ImageOk(cfg, trusted, s, id, s.committed[id]) && ImageOk(cfg, trusted, s', id, s'.committed[id]);
    }
  }

  /** From `j` to `k` the process neither crashes nor has a call fail, and its layers can be applied. */
  ghost predicate Untroubled(cfg: Config, states: seq<State>, events: seq<Event>, j: nat, k: nat, p: Pid) {
    && j <= k < |states| && |states| == |events| + 1
    && forall i | j <= i < k ::
         && p in states[i].procs
         && (events[i].p == p ==> events[i].Go? && Succeeds(states[i], p, events[i].answer))
  }

  /** No second check of a layer that the job builds on has erred. */
  ghost predicate ChecksHold(states: seq<State>, events: seq<Event>, k: nat, job: Job)
    requires k <= |states| && k <= |events|
  {
    job.Create? ==> forall c | c in job.chain :: Safety.NeverErred(states, events, k, c)
  }

  /** No interference fails a process: a Create whose ID is free and whose layers can be applied, or a Delete
      whose image is there, is on track at every moment as long as its own calls succeed, and ends with the
      image registered, or with neither image nor record, whatever the other processes do meanwhile, short of
      a wrong second check of one of its layers. */
  lemma {:induction false} SuccessfulCallsSuffice(cfg: Config, states: seq<State>, events: seq<Event>, j: nat, k: nat, p: Pid)
    requires IsRun(cfg, states, events) && Untroubled(cfg, states, events, j, k, p)
    requires p in states[j].procs
    requires var proc := states[j].procs[p];
      !proc.job.Clean? && proc.pc == Entry(proc.job) && Applicable(cfg, proc.job)
      && (proc.job.Create? <==> proc.job.id !in states[j].images)
      && ChecksHold(states, events, k, proc.job)
    ensures
      var job := states[j].procs[p].job;
      if p in states[k].procs then states[k].procs[p].job == job && OnTrack(states[k], states[k].procs[p])
      else Accomplished(states[k], job)
    decreases k
  {
    if j < k {
      SuccessfulCallsSuffice(cfg, states, events, j, k - 1, p);
      OneEventFares(cfg, states, events, k - 1, p, states[j].procs[p].job);
    }
  }

  lemma OneEventFares(cfg: Config, states: seq<State>, events: seq<Event>, k: nat, p: Pid, job: Job)
    requires IsRun(cfg, states, events) && k < |events| && ChecksHold(states, events, k + 1, job)
    requires p in states[k].procs && states[k].procs[p].job == job && !job.Clean? && OnTrack(states[k], states[k].procs[p])
    requires Applicable(cfg, job)
    requires events[k].p == p ==> events[k].Go? && Succeeds(states[k], p, events[k].answer)
    ensures Fares(states[k], states[k + 1], p)
  {
    var trusted: LayerSet := iset c | job.Create? && c in job.chain;
    Safety.RunInv(cfg, trusted, states, events, k);
    assert StepAt(cfg, states, events, k);
    if events[k].p == p {
      OwnStepFares(cfg, trusted, states[k], p, events[k].answer);
    } else {
      assert Sound(trusted, states[k], events[k]) by {
        forall c | c in trusted ensures !Errs(states[k], events[k], c) {
          assert Safety.NeverErred(states, events, k + 1, c);
        }
      }
      OthersHarmless(cfg, trusted, states[k], events[k], states[k + 1], p);
    }
  }

  // ----- locks

  /** Only a process at work holds a lock, so a store without processes is unlocked. */
  lemma LocksEndWithTheirProcess(cfg: Config, states: seq<State>, events: seq<Event>, k: nat, p: Pid)
    requires IsRun(cfg, states, events) && k < |states| && p !in states[k].procs
    ensures
      var f := states[k].flocks;
      p !in f.shared && f.exclusive != Some(p) && forall c | c in f.layers :: f.layers[c] != p
  {
    Safety.AnyRunInv(cfg, states, events, k);
    assert GlobalOk(states[k]) && LayersOk(states[k]);
  }
}
