/** No deadlock: waiting is acyclic, at the end of every chain of waiting someone can go on, and every process
    that goes on comes to an end. */
module Liveness {
  import opened Options
  import opened ChainIds
  import opened Names
  import opened Contents
  import opened Protocol
  import opened Invariant
  import Safety

  // ----- who waits for whom

  predicate WaitsForLayer(s: State, p: Pid, q: Pid) {
    && p in s.procs && Fits(s.procs[p]) && s.procs[p].pc.Layer? && s.procs[p].pc.work.LockLayer?
    && s.procs[p].job.chain[s.procs[p].pc.i] in s.flocks.layers
    && s.flocks.layers[s.procs[p].job.chain[s.procs[p].pc.i]] == q
  }

  predicate WaitsForGlobal(s: State, p: Pid, q: Pid) {
    && p in s.procs
    && ((s.procs[p].pc.LockShared? && s.flocks.exclusive == Some(q)) ||
        (s.procs[p].pc == Cleaning(LockExclusive) && (s.flocks.exclusive == Some(q) || q in s.flocks.shared)))
  }

  predicate WaitsFor(s: State, p: Pid, q: Pid) {
    WaitsForLayer(s, p, q) || WaitsForGlobal(s, p, q)
  }

  /** Waiters for the global lock come first, then waiters for a layer by the depth of the layer they want. */
  function Urgency(proc: Proc): (u: (nat, nat)) {
    match proc.pc
    case LockShared => (1, 0)
    case Cleaning(LockExclusive) => (1, 0)
    case Layer(i, LockLayer) => (0, i + 1)
    case _ => (0, 0)
  }

  predicate Below(u: (nat, nat), v: (nat, nat)) {
    u.0 < v.0 || (u.0 == v.0 && u.1 < v.1)
  }

  /** A process in the way holds what it holds before asking for anything less deep, or for nothing. */
  lemma WaitingDescends(cfg: Config, trusted: LayerSet, s: State, p: Pid, q: Pid)
    requires Inv(cfg, trusted, s) && WaitsFor(s, p, q)
    ensures q in s.procs && Below(Urgency(s.procs[q]), Urgency(s.procs[p]))
  {
    if WaitsForLayer(s, p, q) {
      var c := s.procs[p].job.chain[s.procs[p].pc.i];
      assert Holder(s, c, q);
      assert Depth(c) == s.procs[p].pc.i + 1;
      assert HeldFrom(s.procs[q]) < Depth(c);
    } else {
      assert GlobalOk(s);
    }
  }

  lemma {:induction false} WaitingChainDescends(cfg: Config, trusted: LayerSet, s: State, path: seq<Pid>)
    requires Inv(cfg, trusted, s) && |path| >= 2
    requires forall k | 0 <= k < |path| - 1 :: WaitsFor(s, path[k], path[k + 1])
    ensures path[0] in s.procs && path[|path| - 1] in s.procs
    ensures Below(Urgency(s.procs[path[|path| - 1]]), Urgency(s.procs[path[0]]))
    decreases |path|
  {
    assert WaitsFor(s, path[0], path[1]);
    WaitingDescends(cfg, trusted, s, path[0], path[1]);
    if |path| > 2 {
      forall k | 0 <= k < |path[1..]| - 1 ensures WaitsFor(s, path[1..][k], path[1..][k + 1]) {
        assert WaitsFor(s, path[k + 1], path[k + 1 + 1]);
      }
      WaitingChainDescends(cfg, trusted, s, path[1..]);
    }
  }

  /** No deadlock: in every reachable state the wait-for graph has no cycle, whatever layers the images share. */
  lemma NoWaitingCycle(cfg: Config, states: seq<State>, events: seq<Event>, n: nat, path: seq<Pid>)
    requires IsRun(cfg, states, events) && n < |states|
    requires |path| >= 2 && forall k | 0 <= k < |path| - 1 :: WaitsFor(states[n], path[k], path[k + 1])
    ensures path[0] != path[|path| - 1]
  {
    Safety.AnyRunInv(cfg, states, events, n);
    WaitingChainDescends(cfg, iset{}, states[n], path);
  }

  // ----- someone can go on

  lemma {:induction false} StampBound(names: set<VolName>) returns (n: nat)
    ensures forall v | v in names && v.id.Temp? :: v.id.stamp < n
    decreases |names|
  {
    n := 0;
    if names != {} {
      var v :| v in names;
      n := StampBound(names - {v});
      if v.id.Temp? && v.id.stamp >= n {
        n := v.id.stamp + 1;
      }
    }
  }

  /** A process that waits for nobody can take its next step with the answer "yes". */
  lemma CanStep(cfg: Config, trusted: LayerSet, s: State, p: Pid) returns (a: Answer)
    requires Inv(cfg, trusted, s) && p in s.procs
    requires forall q :: !WaitsFor(s, p, q)
    ensures a.ok && Possible(s, Go(p, a)) && Truthful(s, Go(p, a))
  {
    var n := StampBound(s.vols.Keys);
    a := Answer(true, false, n, map[], Final(Base("")), "");
    var pc := s.procs[p].pc;
    match pc {
      case Cleaning(ReadRecords(_, ids)) =>
        if ids != {} { var id :| id in ids; a := a.(image := id); }
      case Cleaning(Mark(todo)) =>
        if todo != {} { var v :| v in todo; a := a.(volume := v); }
      case Cleaning(Collect(todo, _)) =>
        if todo != {} { var v :| v in todo; a := a.(volume := v); }
      case Cleaning(LockExclusive) =>
        assert s.flocks.exclusive.Some? ==> WaitsFor(s, p, s.flocks.exclusive.value);
        if s.flocks.shared != {} { var q :| q in s.flocks.shared; assert WaitsFor(s, p, q); }
      case LockShared =>
        assert s.flocks.exclusive.Some? ==> WaitsFor(s, p, s.flocks.exclusive.value);
      case Layer(i, LockLayer) =>
        var c := s.procs[p].job.chain[i];
        assert c in s.flocks.layers ==> WaitsFor(s, p, s.flocks.layers[c]);
      case _ =>
    }
  }

  /** Each waits for the next. */
  predicate IsWaitingChain(s: State, path: seq<Pid>) {
    path != [] && forall k | 0 <= k < |path| - 1 :: WaitsFor(s, path[k], path[k + 1])
  }

  /** Whoever `p` waits for waits in turn for another, and so on, but only up to someone whose next call can
      succeed now. */
  lemma {:induction false} Progress(cfg: Config, trusted: LayerSet, s: State, p: Pid) returns (path: seq<Pid>, a: Answer)
    requires Inv(cfg, trusted, s) && p in s.procs
    ensures IsWaitingChain(s, path) && path[0] == p
    ensures var q := path[|path| - 1]; a.ok && q in s.procs && Possible(s, Go(q, a)) && Truthful(s, Go(q, a))
    decreases Urgency(s.procs[p]).0, Urgency(s.procs[p]).1
  {
    if next :| WaitsFor(s, p, next) {
      WaitingDescends(cfg, trusted, s, p, next);
      var rest;
      rest, a := Progress(cfg, trusted, s, next);
      path := [p] + rest;
      forall k | 0 <= k < |path| - 1 ensures WaitsFor(s, path[k], path[k + 1]) {
        if k > 0 { assert WaitsFor(s, rest[k - 1], rest[k - 1 + 1]); }
      }
    } else {
      path := [p];
      a := CanStep(cfg, trusted, s, p);
    }
  }

  // ----- everyone ends

  /** How far a process is from its end, in lexicographic order. */
  datatype Distance = Distance(phase: nat, big: nat, small: nat)

  predicate Closer(d: Distance, e: Distance) {
    d.phase < e.phase || (d.phase == e.phase && (d.big < e.big || (d.big == e.big && d.small < e.small)))
  }

  function CleanDistance(pc: CleanPC): Distance {
    match pc
    case Measure => Distance(18, 0, 0)
    case LockExclusive => Distance(17, 0, 0)
    case ListVolumes => Distance(16, 0, 0)
    case ListImages(_) => Distance(15, 0, 0)
    case ReadRecords(_, ids) => Distance(14, |ids|, 0)
    case Mark(todo) => Distance(13, |todo|, 0)
    case UnlockExclusive => Distance(12, 0, 0)
    case ListCondemned => Distance(11, 0, 0)
    case Collect(todo, _) => Distance(10, |todo|, 0)
    case CollectVolume(todo, _, _) => Distance(10, |todo|, 1)
  }

  function LayerDistance(n: nat, i: nat, work: LayerPC): Distance
    requires i < n
  {
    match work
    case Probe => Distance(7, i, 2)
    case LockLayer => Distance(7, i, 1)
    case Reprobe => Distance(7, i, 0)
    case Download => Distance(6, n - i, 11)
    case CreateTemp => Distance(6, n - i, 10)
    case ChownTemp(_) => Distance(6, n - i, 9)
    case BaseDir(_) => Distance(6, n - i, 8)
    case UnpackTemp(_) => Distance(6, n - i, 7)
    case HandleOpaque(_, _) => Distance(6, n - i, 6)
    case WriteMeta(_, _) => Distance(6, n - i, 5)
    case Finalize(_) => Distance(6, n - i, 4)
    case UnlockLayer => Distance(6, n - i, 3)
    case DropMeta => Distance(6, n - i, 2)
    case DropFinal => Distance(6, n - i, 1)
    case Unwind => Distance(4, n - i, 0)
  }

  function ImageDistance(pc: ImagePC): Distance {
    match pc
    case MakeImageDir => Distance(5, 5, 0)
    case SnapshotImage => Distance(5, 4, 0)
    case FinishImage => Distance(5, 3, 0)
    case OpenRecord => Distance(5, 2, 0)
    case WriteRecord => Distance(5, 1, 0)
    case DropImage => Distance(5, 0, 0)
  }

  function DistanceToEnd(proc: Proc): Distance
    requires Fits(proc)
  {
    match proc.pc
    case CheckId => Distance(20, 0, 0)
    case FetchInfo => Distance(19, 0, 0)
    case Cleaning(pc) => CleanDistance(pc)
    case LockShared => Distance(9, 0, 0)
    case CheckQuota => Distance(8, 0, 0)
    case Layer(i, work) => LayerDistance(|proc.job.chain|, i, work)
    case Imaging(pc) => ImageDistance(pc)
    case UnlockShared => Distance(1, 0, 0)
    case Deleting(pc) => Distance(2, match pc case CheckImage => 2 case DestroyImage => 1 case Deregister => 0, 0)
  }

  /** The step leads `p` out, or to `pc`. */
  predicate GoesTo(s: State, s': State, p: Pid, pc: PC) {
    p in s.procs && s'.procs == s.procs[p := s.procs[p].(pc := pc)]
  }

  ghost predicate Shortens(s: State, s': State, p: Pid) {
    && p in s.procs && Fits(s.procs[p])
    && (s'.procs == s.procs - {p} ||
        exists pc :: GoesTo(s, s', p, pc) && Fits(s.procs[p].(pc := pc))
          && Closer(DistanceToEnd(s.procs[p].(pc := pc)), DistanceToEnd(s.procs[p])))
  }

  lemma Shorter(s: State, s': State, p: Pid, pc: PC)
    requires p in s.procs && Fits(s.procs[p]) && Fits(s.procs[p].(pc := pc)) && GoesTo(s, s', p, pc)
    requires Closer(DistanceToEnd(s.procs[p].(pc := pc)), DistanceToEnd(s.procs[p]))
    ensures Shortens(s, s', p)
  {
  }

  /** The work that may follow on the same layer, or nothing. */
  predicate SameLayerNext(work: LayerPC, work': LayerPC) {
    match work
    case Probe => work'.LockLayer?
    case LockLayer => work'.Reprobe?
    case Reprobe => work'.UnlockLayer? || work'.Download?
    case Download => work'.CreateTemp? || work'.Unwind?
    case CreateTemp => work'.ChownTemp? || work'.Unwind?
    case ChownTemp(_) => work'.BaseDir? || work'.Unwind?
    case BaseDir(_) => work'.UnpackTemp? || work'.Unwind?
    case UnpackTemp(_) => work'.HandleOpaque? || work'.DropMeta?
    case DropMeta => work'.DropFinal?
    case DropFinal => work'.Unwind?
    case HandleOpaque(_, _) => work'.WriteMeta? || work'.Unwind?
    case WriteMeta(_, _) => work'.Finalize? || work'.Unwind?
    case Finalize(_) => work'.UnlockLayer? || work'.Unwind?
    case _ => false
  }

  predicate LayerNext(n: nat, i: nat, work: LayerPC, pc: PC) {
    || (pc.Layer? && pc.i == i && SameLayerNext(work, pc.work))
    || ((work.Probe? || work.UnlockLayer?) && pc == Resume(n, i))
    || ((work.LockLayer? || work.Unwind?) && pc == Above(n, i))
    || (work.Reprobe? && i > 0 && pc == Layer(i - 1, Probe))
  }

  lemma GateGoesTo(cfg: Config, s: State, p: Pid, a: Answer) returns (pc: PC)
    requires p in s.procs && Fits(s.procs[p]) && s.procs[p].pc.Layer?
    requires s.procs[p].pc.work.Probe? || s.procs[p].pc.work.LockLayer? || s.procs[p].pc.work.Reprobe? || s.procs[p].pc.work.Download?
    ensures GoesTo(s, StepLayer(cfg, s, p, a), p, pc)
    ensures LayerNext(|s.procs[p].job.chain|, s.procs[p].pc.i, s.procs[p].pc.work, pc)
  {
    pc := StepLayer(cfg, s, p, a).procs[p].pc;
  }

  lemma CreateGoesTo(cfg: Config, s: State, p: Pid, a: Answer) returns (pc: PC)
    requires p in s.procs && Fits(s.procs[p]) && s.procs[p].pc.Layer?
    requires s.procs[p].pc.work.CreateTemp? || s.procs[p].pc.work.ChownTemp?
    ensures GoesTo(s, StepLayer(cfg, s, p, a), p, pc)
    ensures LayerNext(|s.procs[p].job.chain|, s.procs[p].pc.i, s.procs[p].pc.work, pc)
  {
    pc := StepLayer(cfg, s, p, a).procs[p].pc;
  }

  lemma BaseDirGoesTo(cfg: Config, s: State, p: Pid, a: Answer) returns (pc: PC)
    requires p in s.procs && Fits(s.procs[p]) && s.procs[p].pc.Layer? && s.procs[p].pc.work.BaseDir?
    ensures GoesTo(s, StepLayer(cfg, s, p, a), p, pc)
    ensures LayerNext(|s.procs[p].job.chain|, s.procs[p].pc.i, s.procs[p].pc.work, pc)
  {
    var i, n, cs := s.procs[p].pc.i, s.procs[p].pc.work.n, s.procs[p].job.chain;
    var parent := LookupTree(s.vols, ParentOf(cs, i));
    if cfg.baseDirectory(cs[i]).None? {
      pc := Layer(i, UnpackTemp(n));
    } else if parent.None? || Live(Temp(cs[i], n)) !in s.vols {
      pc := Layer(i, Unwind);
    } else {
      var result := Prepare(cfg, cs[i], s.vols[Live(Temp(cs[i], n))], parent.value);
      pc := Layer(i, if a.ok && result.Some? then UnpackTemp(n) else Unwind);
    }
  }

  lemma UnpackGoesTo(cfg: Config, s: State, p: Pid, a: Answer) returns (pc: PC)
    requires p in s.procs && Fits(s.procs[p]) && s.procs[p].pc.Layer? && s.procs[p].pc.work.UnpackTemp?
    ensures GoesTo(s, StepLayer(cfg, s, p, a), p, pc)
    ensures LayerNext(|s.procs[p].job.chain|, s.procs[p].pc.i, s.procs[p].pc.work, pc)
  {
    pc := StepLayer(cfg, s, p, a).procs[p].pc;
  }

  lemma FailGoesTo(cfg: Config, s: State, p: Pid, a: Answer) returns (pc: PC)
    requires p in s.procs && Fits(s.procs[p]) && s.procs[p].pc.Layer?
    requires s.procs[p].pc.work.DropMeta? || s.procs[p].pc.work.DropFinal? || s.procs[p].pc.work.HandleOpaque? || s.procs[p].pc.work.WriteMeta?
    ensures GoesTo(s, StepLayer(cfg, s, p, a), p, pc)
    ensures LayerNext(|s.procs[p].job.chain|, s.procs[p].pc.i, s.procs[p].pc.work, pc)
  {
    pc := StepLayer(cfg, s, p, a).procs[p].pc;
  }

  lemma CloseGoesTo(cfg: Config, s: State, p: Pid, a: Answer) returns (pc: PC)
    requires p in s.procs && Fits(s.procs[p]) && s.procs[p].pc.Layer?
    requires s.procs[p].pc.work.Finalize? || s.procs[p].pc.work.UnlockLayer? || s.procs[p].pc.work.Unwind?
    ensures GoesTo(s, StepLayer(cfg, s, p, a), p, pc)
    ensures LayerNext(|s.procs[p].job.chain|, s.procs[p].pc.i, s.procs[p].pc.work, pc)
  {
    pc := StepLayer(cfg, s, p, a).procs[p].pc;
  }

  lemma LayerCloser(proc: Proc, pc: PC)
    requires Fits(proc) && proc.pc.Layer? && LayerNext(|proc.job.chain|, proc.pc.i, proc.pc.work, pc)
    ensures Fits(proc.(pc := pc)) && Closer(DistanceToEnd(proc.(pc := pc)), DistanceToEnd(proc))
  {
  }

  lemma LayerGoesTo(cfg: Config, s: State, p: Pid, a: Answer) returns (pc: PC)
    requires p in s.procs && Fits(s.procs[p]) && s.procs[p].pc.Layer?
    ensures GoesTo(s, StepLayer(cfg, s, p, a), p, pc)
    ensures LayerNext(|s.procs[p].job.chain|, s.procs[p].pc.i, s.procs[p].pc.work, pc)
  {
    var w := s.procs[p].pc.work;
    if w.Probe? || w.LockLayer? || w.Reprobe? || w.Download? {
      pc := GateGoesTo(cfg, s, p, a);
    } else if w.CreateTemp? || w.ChownTemp? {
      pc := CreateGoesTo(cfg, s, p, a);
    } else if w.BaseDir? {
      pc := BaseDirGoesTo(cfg, s, p, a);
    } else if w.UnpackTemp? {
      pc := UnpackGoesTo(cfg, s, p, a);
    } else if w.DropMeta? || w.DropFinal? || w.HandleOpaque? || w.WriteMeta? {
      pc := FailGoesTo(cfg, s, p, a);
    } else {
      pc := CloseGoesTo(cfg, s, p, a);
    }
  }

  lemma LayerShortens(cfg: Config, s: State, p: Pid, a: Answer)
    requires p in s.procs && Fits(s.procs[p]) && s.procs[p].pc.Layer?
    ensures Shortens(s, StepLayer(cfg, s, p, a), p)
  {
    var pc := LayerGoesTo(cfg, s, p, a);
    LayerCloser(s.procs[p], pc);
    Shorter(s, StepLayer(cfg, s, p, a), p, pc);
  }

  lemma ReadingShortens(s: State, p: Pid, a: Answer)
    requires p in s.procs && Fits(s.procs[p]) && s.procs[p].pc.Cleaning? && Enabled(s, p, a)
    requires s.procs[p].pc.clean.ReadRecords?
    ensures Shortens(s, StepClean(s, p, a), p)
  {
  }

  lemma ListingShortens(s: State, p: Pid, a: Answer)
    requires p in s.procs && Fits(s.procs[p]) && s.procs[p].pc.Cleaning?
    requires s.procs[p].pc.clean.ListVolumes? || s.procs[p].pc.clean.ListImages?
    ensures Shortens(s, StepClean(s, p, a), p)
  {
  }

  lemma MarkingShortens(s: State, p: Pid, a: Answer)
    requires p in s.procs && Fits(s.procs[p]) && s.procs[p].pc.Cleaning? && Enabled(s, p, a)
    requires s.procs[p].pc.clean.Mark?
    ensures Shortens(s, StepClean(s, p, a), p)
  {
    var todo := s.procs[p].pc.clean.todo;
    Shorter(s, StepClean(s, p, a), p, Cleaning(if todo == {} then UnlockExclusive else Mark(todo - {a.volume})));
  }

  lemma CollectingShortens(s: State, p: Pid, a: Answer)
    requires p in s.procs && Fits(s.procs[p]) && s.procs[p].pc.Cleaning? && Enabled(s, p, a)
    requires s.procs[p].pc.clean.Collect? || s.procs[p].pc.clean.CollectVolume?
    ensures Shortens(s, StepClean(s, p, a), p)
  {
    var s' := StepClean(s, p, a);
    if s.procs[p].pc.clean.Collect? && s.procs[p].pc.clean.todo == {} {
      AfterShortens(s, p, s.procs[p].pc.clean.good);
    } else {
      Shorter(s, s', p, s'.procs[p].pc);
    }
  }

  lemma LockingShortens(s: State, p: Pid, a: Answer)
    requires p in s.procs && Fits(s.procs[p]) && s.procs[p].pc.Cleaning? && Enabled(s, p, a)
    requires var pc := s.procs[p].pc.clean; pc.Measure? || pc.LockExclusive? || pc.UnlockExclusive? || pc.ListCondemned?
    ensures Shortens(s, StepClean(s, p, a), p)
  {
    var s' := StepClean(s, p, a);
    match s.procs[p].pc.clean {
      case Measure =>
        if a.ok && !a.alt { Shorter(s, s', p, Cleaning(LockExclusive)); } else { AfterShortens(s, p, a.ok); }
      case LockExclusive =>
        if a.ok { Shorter(s, s', p, Cleaning(ListVolumes)); } else { AfterShortens(s, p, false); }
      case UnlockExclusive => Shorter(s, s', p, Cleaning(ListCondemned));
      case ListCondemned =>
        if a.ok { Shorter(s, s', p, s'.procs[p].pc); } else { AfterShortens(s, p, false); }
    }
  }

  lemma CleanShortens(s: State, p: Pid, a: Answer)
    requires p in s.procs && Fits(s.procs[p]) && s.procs[p].pc.Cleaning? && Enabled(s, p, a)
    ensures Shortens(s, StepClean(s, p, a), p)
  {
    match s.procs[p].pc.clean {
      case Collect(_, _) => CollectingShortens(s, p, a);
      case CollectVolume(_, _, _) => CollectingShortens(s, p, a);
      case ListVolumes => ListingShortens(s, p, a);
      case ListImages(_) => ListingShortens(s, p, a);
      case ReadRecords(_, _) => ReadingShortens(s, p, a);
      case Mark(_) => MarkingShortens(s, p, a);
      case _ => LockingShortens(s, p, a);
    }
  }

  lemma AfterShortens(s: State, p: Pid, good: bool)
    requires p in s.procs && Fits(s.procs[p]) && s.procs[p].pc.Cleaning?
    ensures Shortens(s, AfterClean(s, p, good), p)
  {
  }

  lemma SnapshotShortens(s: State, p: Pid, a: Answer)
    requires p in s.procs && Fits(s.procs[p]) && s.procs[p].pc.Imaging?
    requires s.procs[p].pc.image.MakeImageDir? || s.procs[p].pc.image.SnapshotImage? || s.procs[p].pc.image.FinishImage?
    ensures Shortens(s, StepImage(s, p, a), p)
  {
    Shorter(s, StepImage(s, p, a), p, StepImage(s, p, a).procs[p].pc);
  }

  lemma ImageShortens(s: State, p: Pid, a: Answer)
    requires p in s.procs && Fits(s.procs[p]) && s.procs[p].pc.Imaging?
    ensures Shortens(s, StepImage(s, p, a), p)
  {
    var s' := StepImage(s, p, a);
    match s.procs[p].pc.image {
      case OpenRecord => Shorter(s, s', p, Imaging(if a.ok then WriteRecord else DropImage));
      case WriteRecord => Shorter(s, s', p, if a.ok then UnlockShared else Imaging(DropImage));
      case DropImage => Shorter(s, s', p, UnlockShared);
      case _ => SnapshotShortens(s, p, a);
    }
  }

  lemma DeleteShortens(s: State, p: Pid, a: Answer)
    requires p in s.procs && Fits(s.procs[p]) && s.procs[p].pc.Deleting?
    ensures Shortens(s, StepDelete(s, p, a), p)
  {
    var s' := StepDelete(s, p, a);
    match s.procs[p].pc.delete {
      case CheckImage => if p in s'.procs { Shorter(s, s', p, Deleting(DestroyImage)); }
      case DestroyImage => if a.ok { Shorter(s, s', p, Deleting(Deregister)); }
      case Deregister =>
    }
  }

  lemma EdgeShortens(s: State, p: Pid, a: Answer)
    requires p in s.procs && Fits(s.procs[p])
    requires var pc := s.procs[p].pc; !pc.Layer? && !pc.Cleaning? && !pc.Imaging? && !pc.Deleting?
    ensures Shortens(s, StepEdge(s, p, a), p)
  {
    var s' := StepEdge(s, p, a);
    var job := s.procs[p].job;
    match s.procs[p].pc {
      case CheckId => if a.ok && job.id !in s.images { Shorter(s, s', p, FetchInfo); }
      case FetchInfo => if a.ok { Shorter(s, s', p, if job.cleanFirst then Cleaning(Measure) else LockShared); }
      case LockShared => if a.ok { Shorter(s, s', p, CheckQuota); }
      case CheckQuota => Shorter(s, s', p, if a.ok then Layer(|job.chain| - 1, Probe) else UnlockShared);
      case UnlockShared =>
    }
  }

  /** Whatever it is answered, every step brings a process closer to its end. */
  lemma StepShortens(cfg: Config, s: State, p: Pid, a: Answer)
    requires Possible(s, Go(p, a))
    ensures Shortens(s, Exec(cfg, s, p, a), p)
  {
    match s.procs[p].pc {
      case Layer(_, _) => LayerShortens(cfg, s, p, a);
      case Cleaning(_) => CleanShortens(s, p, a);
      case Imaging(_) => ImageShortens(s, p, a);
      case Deleting(_) => DeleteShortens(s, p, a);
      case _ => EdgeShortens(s, p, a);
    }
  }

  // ----- the whole system ends

  function Plus(d: Distance, e: Distance): Distance {
    Distance(d.phase + e.phase, d.big + e.big, d.small + e.small)
  }

  ghost predicate AllFit(procs: map<Pid, Proc>) {
    forall p | p in procs :: Fits(procs[p])
  }

  ghost function Sum(ds: map<Pid, Distance>): Distance
    decreases ds.Keys
  {
    if ds == map[] then Distance(0, 0, 0)
    else
      var p :| p in ds;
      Plus(ds[p], Sum(ds - {p}))
  }

  ghost function Total(procs: map<Pid, Proc>): Distance
    requires AllFit(procs)
  {
    Sum(map p | p in procs :: Share(procs[p]))
  }

  /** A process counts for its distance, and for being there at all. */
  function Share(proc: Proc): Distance
    requires Fits(proc)
  {
    Plus(Distance(1, 0, 0), DistanceToEnd(proc))
  }

  lemma {:induction false} SumWithout(ds: map<Pid, Distance>, p: Pid)
    requires p in ds
    ensures Sum(ds) == Plus(ds[p], Sum(ds - {p}))
    decreases ds.Keys
  {
    var q :| q in ds && Sum(ds) == Plus(ds[q], Sum(ds - {q}));
    if q != p {
      SumWithout(ds - {q}, p);
      SumWithout(ds - {p}, q);
      assert ds - {q} - {p} == ds - {p} - {q};
      PlusSwap(ds[q], ds[p], Sum(ds - {q} - {p}));
    }
  }

  lemma PlusSwap(d: Distance, e: Distance, f: Distance)
    ensures Plus(d, Plus(e, f)) == Plus(e, Plus(d, f))
  {
  }

  lemma PlusCloser(d: Distance, e: Distance, f: Distance)
    requires Closer(d, e)
    ensures Closer(Plus(Plus(Distance(1, 0, 0), d), f), Plus(Plus(Distance(1, 0, 0), e), f))
  {
  }

  lemma TotalWithout(procs: map<Pid, Proc>, p: Pid)
    requires AllFit(procs) && p in procs
    ensures Total(procs) == Plus(Share(procs[p]), Total(procs - {p}))
  {
    var ds := map q | q in procs :: Share(procs[q]);
    SumWithout(ds, p);
    assert ds - {p} == map q | q in procs - {p} :: Share((procs - {p})[q]);
  }

  lemma TotalReplaced(procs: map<Pid, Proc>, p: Pid, proc: Proc)
    requires AllFit(procs) && p in procs && Fits(proc) && Closer(DistanceToEnd(proc), DistanceToEnd(procs[p]))
    ensures AllFit(procs[p := proc]) && Closer(Total(procs[p := proc]), Total(procs))
  {
    TotalWithout(procs[p := proc], p);
    assert procs[p := proc] - {p} == procs - {p};
    TotalWithout(procs, p);
    PlusCloser(DistanceToEnd(proc), DistanceToEnd(procs[p]), Total(procs - {p}));
  }

  lemma TotalShrinks(s: State, s': State, p: Pid)
    requires FitsOk(s) && Shortens(s, s', p)
    ensures AllFit(s'.procs) && Closer(Total(s'.procs), Total(s.procs))
  {
    if s'.procs == s.procs - {p} {
      TotalWithout(s.procs, p);
    } else {
      var pc :| GoesTo(s, s', p, pc) && Fits(s.procs[p].(pc := pc))
          && Closer(DistanceToEnd(s.procs[p].(pc := pc)), DistanceToEnd(s.procs[p]));
      TotalReplaced(s.procs, p, s.procs[p].(pc := pc));
    }
  }

  /** A run from `s`: each step by a process at work, each call answered "yes". */
  ghost predicate IsSmoothRun(cfg: Config, states: seq<State>, events: seq<Event>) {
    && |states| == |events| + 1
    && forall k | 0 <= k < |events| ::
         events[k].Go? && events[k].answer.ok && Step(cfg, states[k], events[k], states[k + 1])
  }

  /** From every reachable state, the processes there are can all be run to their ends without a single
      failure, crash or retry: no lock is ever in the way for good. */
  lemma {:induction false} Drains(cfg: Config, trusted: LayerSet, s: State) returns (states: seq<State>, events: seq<Event>)
    requires Inv(cfg, trusted, s)
    ensures IsSmoothRun(cfg, states, events) && states[0] == s && states[|events|].procs == map[]
    decreases Total(s.procs).phase, Total(s.procs).big, Total(s.procs).small
  {
    if s.procs == map[] {
      states, events := [s], [];
    } else {
      var p :| p in s.procs;
      var path, a := Progress(cfg, trusted, s, p);
      var q := path[|path| - 1];
      var e := Go(q, a);
      var s' := Next(cfg, s, e);
      Safety.StepInv(cfg, trusted, s, e, s');
      StepShortens(cfg, s, q, a);
      TotalShrinks(s, s', q);
      var states', events' := Drains(cfg, trusted, s');
      Prepend(cfg, s, e, states', events');
      states, events := [s] + states', [e] + events';
    }
  }

  lemma Prepend(cfg: Config, s: State, e: Event, states: seq<State>, events: seq<Event>)
    requires IsSmoothRun(cfg, states, events)
    requires e.Go? && e.answer.ok && Step(cfg, s, e, states[0])
    ensures IsSmoothRun(cfg, [s] + states, [e] + events)
  {
  }
}
