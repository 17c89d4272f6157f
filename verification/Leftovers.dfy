/** What a Create that does not succeed leaves behind, and what that does to every clean until it is deleted. */
module Leftovers {
  import opened Options
  import opened Trees
  import opened ChainIds
  import opened Names
  import opened Contents
  import opened Protocol
  import opened Invariant
  import Liveness
  import Safety

  function RecordOf(s: State, id: ImageId): Option<Record> {
    if id in s.records then Some(s.records[id]) else None
  }

  /** The event is the call that `p` makes at `pc`, answered so. */
  predicate Answered(s: State, e: Event, p: Pid, pc: ImagePC, ok: bool) {
    e.Go? && e.p == p && p in s.procs && s.procs[p].pc == Imaging(pc) && e.answer.ok == ok
  }

  /** Between `j` and `k` the process made that call and was answered so. */
  ghost predicate Had(states: seq<State>, events: seq<Event>, j: nat, k: nat, p: Pid, pc: ImagePC, ok: bool)
    requires k <= |states| && k <= |events|
  {
    exists i | j <= i < k :: Answered(states[i], events[i], p, pc, ok)
  }

  /** What has happened to the image so far: its directory made, its ownership calls failed, its cleanup
      failed, its record opened. */
  datatype History = History(made: bool, stuck: bool, undropped: bool, recorded: bool)

  ghost function HistoryOf(states: seq<State>, events: seq<Event>, j: nat, k: nat, p: Pid): History
    requires k <= |states| && k <= |events|
  {
    History(Had(states, events, j, k, p, MakeImageDir, true), Had(states, events, j, k, p, FinishImage, false),
            Had(states, events, j, k, p, DropImage, false), Had(states, events, j, k, p, OpenRecord, true))
  }

  function After(h: History, s: State, e: Event, p: Pid): History {
    History(h.made || Answered(s, e, p, MakeImageDir, true), h.stuck || Answered(s, e, p, FinishImage, false),
            h.undropped || Answered(s, e, p, DropImage, false), h.recorded || Answered(s, e, p, OpenRecord, true))
  }

  lemma HistoryGrows(states: seq<State>, events: seq<Event>, j: nat, k: nat, p: Pid)
    requires j <= k < |states| && k < |events|
    ensures HistoryOf(states, events, j, k + 1, p) == After(HistoryOf(states, events, j, k, p), states[k], events[k], p)
  {
    forall pc, ok ensures Had(states, events, j, k + 1, p, pc, ok) <==> Had(states, events, j, k, p, pc, ok) || Answered(states[k], events[k], p, pc, ok) {
      if Had(states, events, j, k, p, pc, ok) {
        var i :| j <= i < k && Answered(states[i], events[i], p, pc, ok);
        assert j <= i < k + 1;
      }
    }
  }

  predicate Left(s: State, id: ImageId, h: History) {
    id in s.images <==> h.stuck || (h.made && h.undropped)
  }

  /** How far a Create is that found its ID free. */
  predicate Traced(s: State, proc: Proc, h: History, record: Option<Record>)
    requires proc.job.Create?
  {
    var id := proc.job.id;
    && (!h.recorded ==> RecordOf(s, id) == record)
    && (h.stuck ==> !h.recorded)
    && match proc.pc
       case Imaging(pc) =>
         && !h.stuck && !h.undropped && (id in s.images <==> h.made) && (h.recorded ==> pc.WriteRecord? || pc.DropImage?) && (pc.WriteRecord? ==> h.recorded)
         && (pc.MakeImageDir? ==> !h.made) && (!pc.MakeImageDir? && !pc.DropImage? ==> h.made)
       case UnlockShared => id in s.committed || Left(s, id, h)
       case _ => id !in s.images && h == History(false, false, false, false)
  }

  predicate TracedEnd(s: State, id: ImageId, h: History, record: Option<Record>) {
    && (!h.recorded ==> RecordOf(s, id) == record)
    && (h.stuck ==> !h.recorded)
    && (id in s.committed || Left(s, id, h))
  }

  ghost predicate Continues(s: State, e: Event, s': State, p: Pid, h: History, record: Option<Record>) {
    && p in s.procs && s.procs[p].job.Create?
    && var h' := After(h, s, e, p);
       if p in s'.procs then s'.procs[p].job == s.procs[p].job && Traced(s', s'.procs[p], h', record)
       else TracedEnd(s', s.procs[p].job.id, h', record)
  }

  ghost predicate OnItsWay(s: State, p: Pid, h: History, record: Option<Record>) {
    p in s.procs && Fits(s.procs[p]) && s.procs[p].job.Create? && Traced(s, s.procs[p], h, record)
  }

  /** A step that leaves images and records alone, and does not lead into or out of the image's own work. */
  lemma PlainContinues(s: State, e: Event, s': State, p: Pid, h: History, record: Option<Record>)
    requires OnItsWay(s, p, h, record) && !s.procs[p].pc.Imaging? && !s.procs[p].pc.UnlockShared?
    requires Alone(s, s', p)
    ensures Continues(s, e, s', p, h, record)
  {
  }

  // ----- what each kind of step touches

  /** Images, records and registrations stay; `p` ends or goes on with the same job, perhaps to its image. */
  ghost predicate Alone(s: State, s': State, p: Pid) {
    && p in s.procs && SameImages(s, s')
    && (s'.procs == s.procs - {p} || exists pc :: GoesAlone(s, s', p, pc))
  }

  predicate GoesAlone(s: State, s': State, p: Pid, pc: PC) {
    Liveness.GoesTo(s, s', p, pc) && !pc.CheckId? && (pc.Imaging? ==> pc.image.MakeImageDir?)
  }

  predicate SameImages(s: State, s': State) {
    s'.images == s.images && s'.records == s.records && s'.committed == s.committed
  }

  lemma GateSparesImages(cfg: Config, s: State, p: Pid, a: Answer)
    requires p in s.procs && Fits(s.procs[p]) && s.procs[p].pc.Layer?
    requires var w := s.procs[p].pc.work; w.Probe? || w.LockLayer? || w.Reprobe? || w.Download? || w.UnlockLayer? || w.Unwind?
    ensures SameImages(s, StepLayer(cfg, s, p, a))
  {
  }

  lemma TempSpares(s: State, p: Pid, c: ChainId, n: nat, t: Tree, pc: PC)
    requires p in s.procs
    ensures SameImages(s, At(WithTemp(s, c, n, t), p, pc)) && SameImages(s, At(s, p, pc))
  {
  }

  lemma CreateSparesImages(cfg: Config, s: State, p: Pid, a: Answer)
    requires p in s.procs && Fits(s.procs[p]) && s.procs[p].pc.Layer? && s.procs[p].pc.work.CreateTemp?
    ensures SameImages(s, StepLayer(cfg, s, p, a))
  {
  }

  lemma ChownSparesImages(cfg: Config, s: State, p: Pid, a: Answer)
    requires p in s.procs && Fits(s.procs[p]) && s.procs[p].pc.Layer? && s.procs[p].pc.work.ChownTemp?
    ensures SameImages(s, StepLayer(cfg, s, p, a))
  {
  }

  lemma BaseSparesImages(cfg: Config, s: State, p: Pid, a: Answer)
    requires p in s.procs && Fits(s.procs[p]) && s.procs[p].pc.Layer? && s.procs[p].pc.work.BaseDir?
    ensures SameImages(s, StepLayer(cfg, s, p, a))
  {
    var i, n, cs := s.procs[p].pc.i, s.procs[p].pc.work.n, s.procs[p].job.chain;
    var parent := LookupTree(s.vols, ParentOf(cs, i));
    if cfg.baseDirectory(cs[i]).None? {
      TempSpares(s, p, cs[i], n, a.junk, Layer(i, UnpackTemp(n)));
    } else if parent.None? || Live(Temp(cs[i], n)) !in s.vols {
      TempSpares(s, p, cs[i], n, a.junk, Layer(i, Unwind));
    } else {
      var result := Prepare(cfg, cs[i], s.vols[Live(Temp(cs[i], n))], parent.value);
      if a.ok && result.Some? {
        TempSpares(s, p, cs[i], n, result.value, Layer(i, UnpackTemp(n)));
      } else {
        TempSpares(s, p, cs[i], n, a.junk, Layer(i, Unwind));
      }
    }
  }

  lemma UnpackSparesImages(cfg: Config, s: State, p: Pid, a: Answer)
    requires p in s.procs && Fits(s.procs[p]) && s.procs[p].pc.Layer? && s.procs[p].pc.work.UnpackTemp?
    ensures SameImages(s, StepLayer(cfg, s, p, a))
  {
    var i, n, c := s.procs[p].pc.i, s.procs[p].pc.work.n, s.procs[p].job.chain[s.procs[p].pc.i];
    if Live(Temp(c, n)) !in s.vols {
      TempSpares(s, p, c, n, a.junk, Layer(i, DropMeta));
    } else {
      var result := cfg.unpack(c, s.vols[Live(Temp(c, n))]);
      if a.ok && result.Some? {
        TempSpares(s, p, c, n, result.value, Layer(i, HandleOpaque(n, cfg.size(c))));
      } else {
        TempSpares(s, p, c, n, a.junk, Layer(i, DropMeta));
      }
    }
  }

  lemma FinishSparesImages(cfg: Config, s: State, p: Pid, a: Answer)
    requires p in s.procs && Fits(s.procs[p]) && s.procs[p].pc.Layer?
    requires var w := s.procs[p].pc.work; w.DropMeta? || w.DropFinal? || w.HandleOpaque? || w.WriteMeta? || w.Finalize?
    ensures SameImages(s, StepLayer(cfg, s, p, a))
  {
  }

  lemma LayerSparesImages(cfg: Config, s: State, p: Pid, a: Answer)
    requires p in s.procs && Fits(s.procs[p]) && s.procs[p].pc.Layer?
    ensures SameImages(s, StepLayer(cfg, s, p, a))
  {
    var w := s.procs[p].pc.work;
    if w.Probe? || w.LockLayer? || w.Reprobe? || w.Download? || w.UnlockLayer? || w.Unwind? {
      GateSparesImages(cfg, s, p, a);
    } else if w.CreateTemp? {
      CreateSparesImages(cfg, s, p, a);
    } else if w.ChownTemp? {
      ChownSparesImages(cfg, s, p, a);
    } else if w.UnpackTemp? {
      UnpackSparesImages(cfg, s, p, a);
    } else if w.BaseDir? {
      BaseSparesImages(cfg, s, p, a);
    } else {
      FinishSparesImages(cfg, s, p, a);
    }
  }

  lemma LayerAlone(cfg: Config, s: State, p: Pid, a: Answer)
    requires p in s.procs && Fits(s.procs[p]) && s.procs[p].pc.Layer?
    ensures Alone(s, StepLayer(cfg, s, p, a), p)
  {
    LayerSparesImages(cfg, s, p, a);
    var pc := Liveness.LayerGoesTo(cfg, s, p, a);
    assert GoesAlone(s, StepLayer(cfg, s, p, a), p, pc);
  }

  lemma AfterCleanAlone(s: State, p: Pid, good: bool)
    requires p in s.procs && s.procs[p].pc.Cleaning?
    ensures Alone(s, AfterClean(s, p, good), p)
  {
    if s.procs[p].job.Create? && good {
      assert GoesAlone(s, AfterClean(s, p, good), p, LockShared);
    }
  }

  /** A clean goes on cleaning, or is over. */
  lemma ToCleanAlone(s: State, x: State, p: Pid, pc: CleanPC)
    requires p in s.procs && x.procs == s.procs && x.images == s.images && x.records == s.records && x.committed == s.committed
    ensures Alone(s, ToClean(x, p, pc), p)
  {
    assert GoesAlone(s, ToClean(x, p, pc), p, Cleaning(pc));
  }

  lemma ReadingAlone(s: State, p: Pid, a: Answer)
    requires p in s.procs && s.procs[p].pc.Cleaning?
    requires var pc := s.procs[p].pc.clean; pc.ListVolumes? || pc.ListImages? || pc.ReadRecords?
    ensures Alone(s, StepClean(s, p, a), p)
  {
    ToCleanAlone(s, s, p, StepClean(s, p, a).procs[p].pc.clean);
  }

  lemma MarkingAlone(s: State, p: Pid, a: Answer)
    requires p in s.procs && s.procs[p].pc.Cleaning?
    requires var pc := s.procs[p].pc.clean; pc.Mark? || pc.UnlockExclusive? || pc.CollectVolume? || (pc.Collect? && pc.todo != {})
    ensures Alone(s, StepClean(s, p, a), p)
  {
    var s' := StepClean(s, p, a);
    ToCleanAlone(s, s'.(procs := s.procs), p, s'.procs[p].pc.clean);
  }

  lemma CleanAlone(s: State, p: Pid, a: Answer)
    requires p in s.procs && s.procs[p].pc.Cleaning?
    ensures Alone(s, StepClean(s, p, a), p)
  {
    match s.procs[p].pc.clean {
      case Measure => if a.ok && !a.alt { ToCleanAlone(s, s, p, LockExclusive); } else { AfterCleanAlone(s, p, a.ok); }
      case LockExclusive =>
        if a.ok { ToCleanAlone(s, s.(flocks := s.flocks.(exclusive := Some(p))), p, ListVolumes); } else { AfterCleanAlone(s, p, false); }
      case ListCondemned =>
        if a.ok { ToCleanAlone(s, s, p, Collect(set v | v in s.vols && v.Gc? :: v.id, true)); } else { AfterCleanAlone(s, p, false); }
      case Collect(todo, good) => if todo == {} { AfterCleanAlone(s, p, good); } else { MarkingAlone(s, p, a); }
      case ListVolumes => ReadingAlone(s, p, a);
      case ListImages(_) => ReadingAlone(s, p, a);
      case ReadRecords(_, _) => ReadingAlone(s, p, a);
      case _ => MarkingAlone(s, p, a);
    }
  }

  lemma AtAlone(s: State, x: State, p: Pid, pc: PC)
    requires p in s.procs && x.procs == s.procs && SameImages(s, x) && !pc.CheckId? && !pc.Imaging?
    ensures Alone(s, At(x, p, pc), p)
  {
    assert GoesAlone(s, At(x, p, pc), p, pc);
  }

  lemma EdgeAlone(s: State, p: Pid, a: Answer)
    requires p in s.procs && Fits(s.procs[p])
    requires var pc := s.procs[p].pc; !pc.Cleaning? && !pc.Deleting? && !pc.Layer? && !pc.Imaging?
    ensures Alone(s, StepEdge(s, p, a), p)
  {
    var job := s.procs[p].job;
    match s.procs[p].pc {
      case CheckId => if a.ok && job.id !in s.images { AtAlone(s, s, p, FetchInfo); }
      case FetchInfo => if a.ok { AtAlone(s, s, p, if job.cleanFirst then Cleaning(Measure) else LockShared); }
      case LockShared => if a.ok { AtAlone(s, s.(flocks := s.flocks.(shared := s.flocks.shared + {p})), p, CheckQuota); }
      case CheckQuota => AtAlone(s, s, p, if a.ok then Layer(|job.chain| - 1, Probe) else UnlockShared);
      case UnlockShared =>
    }
  }

  // ----- every unregistered end

  lemma MakeContinues(s: State, p: Pid, a: Answer, h: History, record: Option<Record>)
    requires OnItsWay(s, p, h, record) && s.procs[p].pc == Imaging(MakeImageDir)
    ensures Continues(s, Go(p, a), StepImage(s, p, a), p, h, record)
  {
    assert s.procs[p].job.id !in s.images;
  }

  lemma SnapshotContinues(s: State, p: Pid, a: Answer, h: History, record: Option<Record>)
    requires OnItsWay(s, p, h, record) && s.procs[p].pc == Imaging(SnapshotImage)
    ensures Continues(s, Go(p, a), StepImage(s, p, a), p, h, record)
  {
    var s' := StepImage(s, p, a);
    assert s'.images.Keys == s.images.Keys;
    assert After(h, s, Go(p, a), p) == h;
    assert s'.records == s.records && s'.procs[p].job == s.procs[p].job;
  }

  lemma FinishContinues(s: State, p: Pid, a: Answer, h: History, record: Option<Record>)
    requires OnItsWay(s, p, h, record) && s.procs[p].pc == Imaging(FinishImage)
    ensures Continues(s, Go(p, a), StepImage(s, p, a), p, h, record)
  {
    assert StepImage(s, p, a).records == s.records && StepImage(s, p, a).images == s.images;
    assert RecordOf(s, s.procs[p].job.id) == record;
  }

  lemma RecordContinues(s: State, p: Pid, a: Answer, h: History, record: Option<Record>)
    requires OnItsWay(s, p, h, record) && s.procs[p].pc.Imaging?
    requires var pc := s.procs[p].pc.image; pc.OpenRecord? || pc.WriteRecord? || pc.DropImage?
    ensures Continues(s, Go(p, a), StepImage(s, p, a), p, h, record)
  {
  }

  lemma LastContinues(s: State, p: Pid, a: Answer, h: History, record: Option<Record>)
    requires OnItsWay(s, p, h, record) && s.procs[p].pc.UnlockShared?
    ensures Continues(s, Go(p, a), StepEdge(s, p, a), p, h, record)
  {
    EdgeAlone(s, p, a);
  }

  lemma OwnContinues(cfg: Config, s: State, p: Pid, a: Answer, h: History, record: Option<Record>)
    requires OnItsWay(s, p, h, record) && Possible(s, Go(p, a))
    ensures Continues(s, Go(p, a), Exec(cfg, s, p, a), p, h, record)
  {
    match s.procs[p].pc {
      case Imaging(pc) =>
        match pc {
          case MakeImageDir => MakeContinues(s, p, a, h, record);
          case SnapshotImage => SnapshotContinues(s, p, a, h, record);
          case FinishImage => FinishContinues(s, p, a, h, record);
          case _ => RecordContinues(s, p, a, h, record);
        }
      case Layer(_, _) =>
        LayerAlone(cfg, s, p, a);
        PlainContinues(s, Go(p, a), StepLayer(cfg, s, p, a), p, h, record);
      case Cleaning(_) =>
        CleanAlone(s, p, a);
        PlainContinues(s, Go(p, a), StepClean(s, p, a), p, h, record);
      case UnlockShared => LastContinues(s, p, a, h, record);
      case Deleting(_) =>
      case _ =>
        EdgeAlone(s, p, a);
        PlainContinues(s, Go(p, a), StepEdge(s, p, a), p, h, record);
    }
  }

  /** What belongs to the image is as it was, and so is the process. */
  lemma SameContinues(s: State, e: Event, s': State, p: Pid, h: History, record: Option<Record>)
    requires OnItsWay(s, p, h, record) && e.p != p
    requires p in s'.procs && s'.procs[p] == s.procs[p] && SameId(s, s', s.procs[p].job.id)
    ensures Continues(s, e, s', p, h, record)
  {
    assert After(h, s, e, p) == h;
  }

  lemma OthersContinue(cfg: Config, s: State, e: Event, s': State, p: Pid, h: History, record: Option<Record>)
    requires Inv(cfg, iset{}, s) && Step(cfg, s, e, s') && e.p != p && OnItsWay(s, p, h, record)
    ensures Continues(s, e, s', p, h, record)
  {
    OthersKeep(cfg, s, e, s', p);
    SameContinues(s, e, s', p, h, record);
  }

  lemma OthersKeep(cfg: Config, s: State, e: Event, s': State, p: Pid)
    requires Inv(cfg, iset{}, s) && Step(cfg, s, e, s') && e.p != p && p in s.procs && !s.procs[p].job.Clean?
    ensures p in s'.procs && s'.procs[p] == s.procs[p] && SameId(s, s', s.procs[p].job.id)
  {
    Safety.EventKept(cfg, iset{}, s, e);
    assert s.procs[p].job.Names(s.procs[p].job.id);
  }

  /** From `j` to `k` the process is there and does not crash. */
  ghost predicate Uncrashed(states: seq<State>, events: seq<Event>, j: nat, k: nat, p: Pid) {
    && j <= k < |states| && |states| == |events| + 1
    && forall i | j <= i < k :: p in states[i].procs && events[i] != Crash(p)
  }

  ghost predicate TracedBetween(states: seq<State>, events: seq<Event>, j: nat, k: nat, p: Pid, job: Job)
    requires j <= k < |states| && |states| == |events| + 1 && job.Create?
  {
    var h, record := HistoryOf(states, events, j, k, p), RecordOf(states[j], job.id);
    if p in states[k].procs then states[k].procs[p].job == job && Traced(states[k], states[k].procs[p], h, record)
    else TracedEnd(states[k], job.id, h, record) && Unnamed(states[k], job.id)
  }

  lemma StartTraced(states: seq<State>, events: seq<Event>, j: nat, p: Pid, job: Job)
    requires j < |states| && |states| == |events| + 1 && job.Create?
    requires p in states[j].procs && states[j].procs[p] == Proc(job, CheckId) && job.id !in states[j].images
    ensures TracedBetween(states, events, j, j, p, job)
  {
  }

  lemma NextTraced(cfg: Config, states: seq<State>, events: seq<Event>, j: nat, k: nat, p: Pid, job: Job)
    requires IsRun(cfg, states, events) && j <= k < |events| && job.Create?
    requires TracedBetween(states, events, j, k, p, job) && p in states[k].procs && events[k] != Crash(p)
    ensures TracedBetween(states, events, j, k + 1, p, job)
  {
    var h, record := HistoryOf(states, events, j, k, p), RecordOf(states[j], job.id);
    OneEventContinues(cfg, states, events, k, p, h, record);
    HistoryGrows(states, events, j, k, p);
    if p !in states[k + 1].procs {
      GoneUnnamed(cfg, states, events, k, p, job.id);
    }
  }

  lemma {:induction false} CreateTraced(cfg: Config, states: seq<State>, events: seq<Event>, j: nat, k: nat, p: Pid, job: Job)
    requires IsRun(cfg, states, events) && Uncrashed(states, events, j, k, p)
    requires p in states[j].procs && states[j].procs[p] == Proc(job, CheckId) && job.Create? && job.id !in states[j].images
    ensures TracedBetween(states, events, j, k, p, job)
    decreases k
  {
    if j < k {
      assert p in states[k - 1].procs && events[k - 1] != Crash(p);
      CreateTraced(cfg, states, events, j, k - 1, p, job);
      NextTraced(cfg, states, events, j, k - 1, p, job);
    } else {
      StartTraced(states, events, j, p, job);
    }
  }

  lemma OneEventContinues(cfg: Config, states: seq<State>, events: seq<Event>, k: nat, p: Pid, h: History, record: Option<Record>)
    requires IsRun(cfg, states, events) && k < |events|
    requires p in states[k].procs && states[k].procs[p].job.Create? && Traced(states[k], states[k].procs[p], h, record)
    requires events[k] != Crash(p)
    ensures Continues(states[k], events[k], states[k + 1], p, h, record)
  {
    Safety.AnyRunInv(cfg, states, events, k);
    assert StepAt(cfg, states, events, k);
    if events[k].p == p {
      OwnContinues(cfg, states[k], p, events[k].answer, h, record);
    } else {
      OthersContinue(cfg, states[k], events[k], states[k + 1], p, h, record);
    }
  }

  /** A Create that found its ID free, did not crash, and ended without registering leaves an image behind
      exactly when its ownership or volume-source calls failed, or its cleanup failed once the directory was
      made. After the former the record is whatever it was when the Create began. */
  lemma FailedCreateLeavesIff(cfg: Config, states: seq<State>, events: seq<Event>, j: nat, k: nat, p: Pid)
    requires IsRun(cfg, states, events) && Uncrashed(states, events, j, k, p)
    requires p in states[j].procs && states[j].procs[p].job.Create? && states[j].procs[p].pc.CheckId?
    requires states[j].procs[p].job.id !in states[j].images
    requires p !in states[k].procs && states[j].procs[p].job.id !in states[k].committed
    ensures
      var id := states[j].procs[p].job.id;
      && (id in states[k].images <==>
            Had(states, events, j, k, p, FinishImage, false) ||
            (Had(states, events, j, k, p, MakeImageDir, true) && Had(states, events, j, k, p, DropImage, false)))
      && (Had(states, events, j, k, p, FinishImage, false) ==> RecordOf(states[k], id) == RecordOf(states[j], id))
      && Unnamed(states[k], id)
  {
    CreateTraced(cfg, states, events, j, k, p, states[j].procs[p].job);
  }

  // ----- an image without a readable record

  /** The image has no complete record, and nobody works on it but Creates yet to find it there. */
  ghost predicate Abandoned(s: State, id: ImageId) {
    && id in s.images && !(id in s.records && s.records[id].Complete?)
    && forall p | p in s.procs && s.procs[p].job.Names(id) :: s.procs[p].pc.CheckId?
  }

  predicate Unchanged(s: State, s': State, id: ImageId) {
    id in s.images && id in s'.images && s'.images[id] == s.images[id] && RecordOf(s', id) == RecordOf(s, id)
  }

  /** What the step of a process that does not name the image does not touch. */
  lemma ForeignSnapshot(s: State, p: Pid, a: Answer, id: ImageId)
    requires id in s.images && p in s.procs && Fits(s.procs[p]) && s.procs[p].pc.Imaging? && !s.procs[p].job.Names(id)
    requires var pc := s.procs[p].pc.image; pc.MakeImageDir? || pc.SnapshotImage? || pc.FinishImage?
    ensures Unchanged(s, StepImage(s, p, a), id)
  {
  }

  lemma ForeignRecord(s: State, p: Pid, a: Answer, id: ImageId)
    requires id in s.images && p in s.procs && Fits(s.procs[p]) && s.procs[p].pc.Imaging? && !s.procs[p].job.Names(id)
    requires var pc := s.procs[p].pc.image; pc.OpenRecord? || pc.WriteRecord? || pc.DropImage?
    ensures Unchanged(s, StepImage(s, p, a), id)
  {
  }

  lemma ForeignDelete(s: State, p: Pid, a: Answer, id: ImageId)
    requires id in s.images && p in s.procs && Fits(s.procs[p]) && s.procs[p].pc.Deleting? && !s.procs[p].job.Names(id)
    ensures Unchanged(s, StepDelete(s, p, a), id)
  {
  }

  lemma UnchangedAbandoned(s: State, s': State, p: Pid, id: ImageId)
    requires Abandoned(s, id) && Unchanged(s, s', id) && Liveness.Shortens(s, s', p) && !s.procs[p].job.Names(id)
    ensures Abandoned(s', id)
  {
    assert forall q | q in s'.procs :: q in s.procs && s'.procs[q].job == s.procs[q].job && (q != p ==> s'.procs[q] == s.procs[q]);
  }

  lemma AloneForeign(s: State, s': State, p: Pid, id: ImageId)
    requires Abandoned(s, id) && Alone(s, s', p) && (s.procs[p].job.Names(id) ==> p !in s'.procs)
    ensures Abandoned(s', id) && Unchanged(s, s', id)
  {
    assert forall q | q in s'.procs && q != p :: q in s.procs && s'.procs[q] == s.procs[q];
  }

  lemma StepLeavesAbandoned(cfg: Config, s: State, p: Pid, a: Answer, id: ImageId)
    requires Abandoned(s, id) && Possible(s, Go(p, a))
    ensures Abandoned(Exec(cfg, s, p, a), id) && Unchanged(s, Exec(cfg, s, p, a), id)
  {
    match s.procs[p].pc {
      case Imaging(pc) =>
        if pc.MakeImageDir? || pc.SnapshotImage? || pc.FinishImage? {
          ForeignSnapshot(s, p, a, id);
        } else {
          ForeignRecord(s, p, a, id);
        }
        Liveness.ImageShortens(s, p, a);
        UnchangedAbandoned(s, StepImage(s, p, a), p, id);
      case Deleting(_) =>
        ForeignDelete(s, p, a, id);
        Liveness.DeleteShortens(s, p, a);
        UnchangedAbandoned(s, StepDelete(s, p, a), p, id);
      case Layer(_, _) =>
        LayerAlone(cfg, s, p, a);
        AloneForeign(s, StepLayer(cfg, s, p, a), p, id);
      case Cleaning(_) =>
        CleanAlone(s, p, a);
        AloneForeign(s, StepClean(s, p, a), p, id);
      case _ =>
        EdgeAlone(s, p, a);
        AloneForeign(s, StepEdge(s, p, a), p, id);
    }
  }

  lemma EventLeavesAbandoned(cfg: Config, s: State, e: Event, s': State, id: ImageId)
    requires Abandoned(s, id) && Step(cfg, s, e, s')
    requires !(e.Spawn? && e.job == Delete(id))
    ensures Abandoned(s', id) && Unchanged(s, s', id)
  {
    match e {
      case Go(p, a) => StepLeavesAbandoned(cfg, s, p, a, id);
      case Crash(p) => assert forall q | q in s'.procs :: q in s.procs && s'.procs[q] == s.procs[q];
      case Spawn(p, job) => assert forall q | q in s'.procs && q != p :: q in s.procs && s'.procs[q] == s.procs[q];
    }
  }

  /** The image that a Create leaves behind because its ownership or volume-source calls failed is such an
      image exactly when no complete record of a predecessor was there when the Create began. */
  lemma StuckCreateAbandonsIff(cfg: Config, states: seq<State>, events: seq<Event>, j: nat, k: nat, p: Pid)
    requires IsRun(cfg, states, events) && Uncrashed(states, events, j, k, p)
    requires p in states[j].procs && states[j].procs[p].job.Create? && states[j].procs[p].pc.CheckId?
    requires states[j].procs[p].job.id !in states[j].images
    requires p !in states[k].procs && states[j].procs[p].job.id !in states[k].committed
    requires Had(states, events, j, k, p, FinishImage, false)
    ensures
      var id := states[j].procs[p].job.id;
      Abandoned(states[k], id) <==> !(id in states[j].records && states[j].records[id].Complete?)
  {
    var id := states[j].procs[p].job.id;
    FailedCreateLeavesIff(cfg, states, events, j, k, p);
    assert id in states[k].images && RecordOf(states[k], id) == RecordOf(states[j], id);
    AbandonedIf(states[k], id);
  }

  predicate Unnamed(s: State, id: ImageId) {
    forall q | q in s.procs :: !s.procs[q].job.Names(id)
  }

  lemma AbandonedIf(s: State, id: ImageId)
    requires id in s.images && Unnamed(s, id)
    ensures Abandoned(s, id) <==> !(RecordOf(s, id).Some? && RecordOf(s, id).value.Complete?)
  {
  }

  /** Once the process has gone, nobody names its image. */
  lemma GoneUnnamed(cfg: Config, states: seq<State>, events: seq<Event>, k: nat, p: Pid, id: ImageId)
    requires IsRun(cfg, states, events) && k < |events|
    requires p in states[k].procs && states[k].procs[p].job.Names(id) && p !in states[k + 1].procs
    ensures Unnamed(states[k + 1], id)
  {
    Safety.AnyRunInv(cfg, states, events, k);
    assert StepAt(cfg, states, events, k);
    StepUnnamed(cfg, states[k], events[k], states[k + 1], p, id);
  }

  lemma StepUnnamed(cfg: Config, s: State, e: Event, s': State, p: Pid, id: ImageId)
    requires Inv(cfg, iset{}, s) && Step(cfg, s, e, s')
    requires p in s.procs && s.procs[p].job.Names(id) && p !in s'.procs
    ensures Unnamed(s', id)
  {
    Safety.EventKept(cfg, iset{}, s, e);
    assert e.p == p;
    forall q | q in s'.procs ensures !s'.procs[q].job.Names(id) {
      assert q in s'.procs.Keys - {p};
      assert q in s.procs && s'.procs[q] == s.procs[q];
    }
  }

  /** Such an image stays as it is until a Delete of it starts, and as long as it is there no clean has
      anything to mark. */
  lemma {:induction false} AbandonedBlocksCleans(cfg: Config, states: seq<State>, events: seq<Event>, j: nat, k: nat, id: ImageId)
    requires IsRun(cfg, states, events) && j <= k < |states|
    requires Abandoned(states[j], id)
    requires forall i | j <= i < k :: !(events[i].Spawn? && events[i].job == Delete(id))
    ensures Abandoned(states[k], id) && Unchanged(states[j], states[k], id)
    ensures forall p, todo | p in states[k].procs && states[k].procs[p].pc == Cleaning(Mark(todo)) :: todo == {}
    decreases k
  {
    if j < k {
      AbandonedBlocksCleans(cfg, states, events, j, k - 1, id);
      assert StepAt(cfg, states, events, k - 1);
      EventLeavesAbandoned(cfg, states[k - 1], events[k - 1], states[k], id);
    }
    forall p, todo | p in states[k].procs && states[k].procs[p].pc == Cleaning(Mark(todo)) ensures todo == {} {
      if v :| v in todo {
        Safety.MarkingSparesEveryImage(cfg, states, events, k, p, v, id);
      }
    }
  }
}
