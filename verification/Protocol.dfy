/** The store protocol: Create, Clean and Delete as interleaved atomic steps. */
module Protocol {
  import opened Options
  import opened Trees
  import opened ChainIds
  import opened Names
  import opened Contents
  import opened Volumes

  type Pid = nat
  type ImageId = string

  /** A dependency file, possibly cut short. */
  datatype Record = Complete(chain: seq<ChainId>) | Partial

  /** An image directory and the snapshot in it, if there is one. */
  datatype Image = Image(root: Option<Tree>)

  /** The flock table: the global lock in its two modes, and one exclusive lock per chain ID. */
  datatype Flocks = Flocks(shared: set<Pid>, exclusive: Option<Pid>, layers: map<ChainId, Pid>)

  datatype Job =
    | Create(id: ImageId, chain: seq<ChainId>, cleanFirst: bool)
    | Clean(preserve: seq<ChainId>)
    | Delete(id: ImageId)
  {
    predicate Names(i: ImageId) {
      !Clean? && id == i
    }

    function Preserved(): seq<ChainId> {
      match this
      case Create(_, chain, _) => chain
      case Clean(preserve) => preserve
      case Delete(_) => []
    }
  }

  /** Clean, its second half under the exclusive lock. */
  datatype CleanPC =
    | Measure
    | LockExclusive
    | ListVolumes
    | ListImages(orphans: set<VolumeId>)
    | ReadRecords(orphans: set<VolumeId>, ids: set<ImageId>)
    | Mark(todo: set<VolumeId>)
    | UnlockExclusive
    | ListCondemned
    | Collect(todo: set<VolumeId>, good: bool)
    | CollectVolume(todo: set<VolumeId>, volume: VolumeId, good: bool)

  /** buildLayer for one layer; `n` is the stamp of its temporary volume. */
  datatype LayerPC =
    | Probe
    | LockLayer
    | Reprobe
    | Download
    | CreateTemp
    | ChownTemp(n: nat)
    | BaseDir(n: nat)
    | UnpackTemp(n: nat)
    | DropMeta
    | DropFinal
    | HandleOpaque(n: nat, bytes: nat)
    | WriteMeta(n: nat, bytes: nat)
    | Finalize(n: nat)
    | UnlockLayer
    | Unwind

  /** The image and its dependency record. */
  datatype ImagePC = MakeImageDir | SnapshotImage | FinishImage | OpenRecord | WriteRecord | DropImage

  datatype DeletePC = CheckImage | DestroyImage | Deregister

  /** Where a process stands. A Create passes CheckId, FetchInfo, perhaps Clean, then works under the
      shared lock: its layers, its image. */
  datatype PC =
    | CheckId
    | FetchInfo
    | Cleaning(clean: CleanPC)
    | LockShared
    | CheckQuota
    | Layer(i: nat, work: LayerPC)
    | Imaging(image: ImagePC)
    | UnlockShared
    | Deleting(delete: DeletePC)

  datatype Proc = Proc(job: Job, pc: PC)

  /** `committed` is history: the images whose Create has registered them and whose Delete has not begun. */
  datatype State = State(
    vols: Vols,
    metas: Metas,
    images: map<ImageId, Image>,
    records: map<ImageId, Record>,
    flocks: Flocks,
    procs: map<Pid, Proc>,
    committed: map<ImageId, seq<ChainId>>)

  /** What the world answers to the one call a step makes: success or not, which of several partial
      effects a failure has, the random stamp, the remains of a failed unpack, and what a directory
      listing yields next. */
  datatype Answer = Answer(ok: bool, alt: bool, stamp: nat, junk: Tree, volume: VolumeId, image: ImageId)

  datatype Event = Spawn(p: Pid, job: Job) | Crash(p: Pid) | Go(p: Pid, answer: Answer)

  // ----- classes of program points

  predicate InShared(pc: PC) {
    pc.CheckQuota? || pc.Layer? || pc.Imaging? || pc.UnlockShared?
  }

  predicate InExclusive(pc: PC) {
    pc.Cleaning? && !pc.clean.Measure? && !pc.clean.LockExclusive?
    && !pc.clean.ListCondemned? && !pc.clean.Collect? && !pc.clean.CollectVolume?
  }

  /** The program point belongs to the job, and its layer to the image. */
  predicate Fits(proc: Proc) {
    && (proc.job.Create? ==> IsChain(proc.job.chain) && !proc.pc.Deleting?)
    && (proc.job.Clean? ==> proc.pc.Cleaning?)
    && (proc.job.Delete? ==> proc.pc.Deleting?)
    && (proc.pc.Layer? ==> proc.pc.i < |proc.job.chain|)
  }

  /** The layers from this index up are locked by the process. */
  function HeldFrom(proc: Proc): nat
    requires proc.job.Create?
  {
    match proc.pc
    case Layer(i, work) => if work.Probe? || work.LockLayer? then i + 1 else i
    case _ => |proc.job.chain|
  }

  predicate HoldsLayer(proc: Proc, c: ChainId) {
    && proc.job.Create?
    && HeldFrom(proc) < Depth(c) <= |proc.job.chain|
    && proc.job.chain[Depth(c) - 1] == c
  }

  // ----- one step of one process

  function At(s: State, p: Pid, pc: PC): State
    requires p in s.procs
  {
    s.(procs := s.procs[p := s.procs[p].(pc := pc)])
  }

  function Ended(s: State, p: Pid): State {
    s.(procs := s.procs - {p})
  }

  predicate Enabled(s: State, p: Pid, a: Answer)
    requires p in s.procs && Fits(s.procs[p])
  {
    var proc := s.procs[p];
    match proc.pc
    case Cleaning(LockExclusive) => a.ok ==> s.flocks.exclusive.None? && s.flocks.shared == {}
    case LockShared => a.ok ==> s.flocks.exclusive.None?
    case Layer(i, LockLayer) => a.ok ==> proc.job.chain[i] !in s.flocks.layers
    case Layer(i, CreateTemp) => Live(Temp(proc.job.chain[i], a.stamp)) !in s.vols
    case Cleaning(ReadRecords(_, ids)) => ids != {} ==> a.image in ids
    case Cleaning(Mark(todo)) => todo != {} ==> a.volume in todo
    case Cleaning(Collect(todo, _)) => todo != {} ==> a.volume in todo
    case _ => true
  }

  function Finals(cs: seq<ChainId>): (ids: set<VolumeId>)
    ensures forall c :: c in cs <==> Final(c) in ids
    ensures forall id | id in ids :: id.Final?
  {
    set c | c in cs :: Final(c)
  }

  /** Clean is over: the job ends, or a Create goes on to pull. */
  function AfterClean(s: State, p: Pid, good: bool): State
    requires p in s.procs
  {
    if s.procs[p].job.Create? && good then At(s, p, LockShared) else Ended(s, p)
  }

  function ToClean(s: State, p: Pid, pc: CleanPC): State
    requires p in s.procs
  {
    At(s, p, Cleaning(pc))
  }

  function StepClean(s: State, p: Pid, a: Answer): State
    requires p in s.procs && s.procs[p].pc.Cleaning?
  {
    match s.procs[p].pc.clean
    case Measure =>
      if !a.ok then AfterClean(s, p, false)
      else if a.alt then AfterClean(s, p, true)
      else ToClean(s, p, LockExclusive)
    case LockExclusive =>
      if !a.ok then AfterClean(s, p, false)
      else ToClean(s.(flocks := s.flocks.(exclusive := Some(p))), p, ListVolumes)
    case ListVolumes =>
      if !a.ok then ToClean(s, p, Mark({}))
      else ToClean(s, p, ListImages(set v | v in s.vols && v.Live? :: v.id))
    case ListImages(orphans) =>
      if !a.ok then ToClean(s, p, Mark({})) else ToClean(s, p, ReadRecords(orphans, s.images.Keys))
    case ReadRecords(orphans, ids) =>
      if ids == {} then ToClean(s, p, Mark(orphans - Finals(s.procs[p].job.Preserved())))
      else if a.ok && a.image in s.records && s.records[a.image].Complete? then
        ToClean(s, p, ReadRecords(orphans - Finals(s.records[a.image].chain), ids - {a.image}))
      else ToClean(s, p, Mark({}))
    case Mark(todo) =>
      if todo == {} then ToClean(s, p, UnlockExclusive)
      else
        var s' := if a.ok && Live(a.volume) in s.vols then s.(vols := Moved(s.vols, Live(a.volume), Gc(a.volume)).value) else s;
        ToClean(s', p, Mark(todo - {a.volume}))
    case UnlockExclusive =>
      ToClean(s.(flocks := s.flocks.(exclusive := None)), p, ListCondemned)
    case ListCondemned =>
      if !a.ok then AfterClean(s, p, false)
      else ToClean(s, p, Collect(set v | v in s.vols && v.Gc? :: v.id, true))
    case Collect(todo, good) =>
      if todo == {} then AfterClean(s, p, good)
      else
        var s' := if a.ok then s.(metas := s.metas - {a.volume}) else s;
        ToClean(s', p, CollectVolume(todo - {a.volume}, a.volume, good))
    case CollectVolume(todo, id, good) =>
      if a.ok && Gc(id) in s.vols then ToClean(s.(vols := s.vols - {Gc(id)}), p, Collect(todo, good))
      else ToClean(s, p, Collect(todo, false))
  }

  /** buildLayer(i) returned nil. */
  function Resume(n: nat, i: nat): PC {
    if i + 1 < n then Layer(i + 1, Download) else Imaging(MakeImageDir)
  }

  /** buildLayer(i) returned an error and its lock, if any, is gone. */
  function Above(n: nat, i: nat): PC {
    if i + 1 < n then Layer(i + 1, Unwind) else UnlockShared
  }

  function ParentOf(cs: seq<ChainId>, i: nat): Option<VolName>
    requires i < |cs|
  {
    if i == 0 then None else Some(Live(Final(cs[i - 1])))
  }

  /** The tree a base-directory lookup reads. */
  function LookupTree(vols: Vols, parent: Option<VolName>): Option<Tree> {
    match parent
    case None => Some(map[])
    case Some(v) => if v in vols then Some(vols[v]) else None
  }

  function WithTemp(s: State, c: ChainId, n: nat, t: Tree): State {
    s.(vols := s.vols[Live(Temp(c, n)) := t])
  }

  function StepLayer(cfg: Config, s: State, p: Pid, a: Answer): State
    requires p in s.procs && Fits(s.procs[p]) && s.procs[p].pc.Layer?
  {
    var cs := s.procs[p].job.chain;
    var i := s.procs[p].pc.i;
    var c := cs[i];
    var final := Live(Final(c));
    match s.procs[p].pc.work
    case Probe =>
      At(s, p, if a.ok && final in s.vols then Resume(|cs|, i) else Layer(i, LockLayer))
    case LockLayer =>
      if !a.ok then At(s, p, Above(|cs|, i))
      else At(s.(flocks := s.flocks.(layers := s.flocks.layers[c := p])), p, Layer(i, Reprobe))
    case Reprobe =>
      At(s, p, if a.ok && final in s.vols then Layer(i, UnlockLayer)
               else if i == 0 then Layer(0, Download) else Layer(i - 1, Probe))
    case Download =>
      At(s, p, Layer(i, if a.ok then CreateTemp else Unwind))
    case CreateTemp =>
      (match Source(cfg, s.vols, ParentOf(cs, i))
       case None => At(s, p, Layer(i, Unwind))
       case Some(t) =>
         if a.ok then At(WithTemp(s, c, a.stamp, t), p, Layer(i, ChownTemp(a.stamp)))
         else At(if a.alt then WithTemp(s, c, a.stamp, a.junk) else s, p, Layer(i, Unwind)))
    case ChownTemp(n) =>
      if a.ok && Live(Temp(c, n)) in s.vols then
        At(WithTemp(s, c, n, ChownRoot(cfg, s.vols[Live(Temp(c, n))])), p, Layer(i, BaseDir(n)))
      else At(s, p, Layer(i, Unwind))
    case BaseDir(n) =>
      if cfg.baseDirectory(c).None? then At(s, p, Layer(i, UnpackTemp(n)))
      else (match LookupTree(s.vols, ParentOf(cs, i))
            case None => At(s, p, Layer(i, Unwind))
            case Some(parent) =>
              if Live(Temp(c, n)) !in s.vols then At(s, p, Layer(i, Unwind))
              else
                var result := Prepare(cfg, c, s.vols[Live(Temp(c, n))], parent);
                if a.ok && result.Some? then At(WithTemp(s, c, n, result.value), p, Layer(i, UnpackTemp(n)))
                else At(WithTemp(s, c, n, a.junk), p, Layer(i, Unwind)))
    case UnpackTemp(n) =>
      if Live(Temp(c, n)) !in s.vols then At(s, p, Layer(i, DropMeta))
      else
        var result := cfg.unpack(c, s.vols[Live(Temp(c, n))]);
        if a.ok && result.Some? then At(WithTemp(s, c, n, result.value), p, Layer(i, HandleOpaque(n, cfg.size(c))))
        else At(WithTemp(s, c, n, a.junk), p, Layer(i, DropMeta))
    case DropMeta =>
      At(if a.ok then s.(metas := s.metas - {Final(c)}) else s, p, Layer(i, DropFinal))
    case DropFinal =>
      At(if a.ok then s.(vols := s.vols - {final}) else s, p, Layer(i, Unwind))
    case HandleOpaque(n, bytes) =>
      At(s, p, Layer(i, if a.ok then WriteMeta(n, bytes) else Unwind))
    case WriteMeta(n, bytes) =>
      if a.ok then At(s.(metas := s.metas[Final(c) := Size(bytes)]), p, Layer(i, Finalize(n)))
      else At(if a.alt then s.(metas := s.metas[Final(c) := Garbled]) else s, p, Layer(i, Unwind))
    case Finalize(n) =>
      (match Moved(s.vols, Live(Temp(c, n)), final)
       case None => At(s, p, Layer(i, Unwind))
       case Some(vols) =>
         if a.ok then At(s.(vols := vols), p, Layer(i, UnlockLayer)) else At(s, p, Layer(i, Unwind)))
    case UnlockLayer =>
      At(s.(flocks := s.flocks.(layers := s.flocks.layers - {c})), p, Resume(|cs|, i))
    case Unwind =>
      At(s.(flocks := s.flocks.(layers := s.flocks.layers - {c})), p, Above(|cs|, i))
  }

  /** Destroying an image removes its directory, or leaves it with the remains of its snapshot, if any, or
      leaves it alone. */
  function ImageDropped(s: State, id: ImageId, a: Answer): State {
    if a.ok then s.(images := s.images - {id})
    else if a.alt && id in s.images then s.(images := s.images[id := Image(if a.junk == map[] then None else Some(a.junk))])
    else s
  }

  function ToImage(s: State, p: Pid, pc: ImagePC): State
    requires p in s.procs
  {
    At(s, p, Imaging(pc))
  }

  function StepImage(s: State, p: Pid, a: Answer): State
    requires p in s.procs && Fits(s.procs[p]) && s.procs[p].pc.Imaging?
  {
    var job := s.procs[p].job;
    var top := Live(Final(job.chain[|job.chain| - 1]));
    match s.procs[p].pc.image
    case MakeImageDir =>
      if a.ok && job.id !in s.images then ToImage(s.(images := s.images[job.id := Image(None)]), p, SnapshotImage)
      else ToImage(s, p, DropImage)
    case SnapshotImage =>
      // a snapshot whose quota could not be set is an error all the same
      if top in s.vols && (a.ok || a.alt) then
        ToImage(s.(images := s.images[job.id := Image(Some(s.vols[top]))]), p, if a.ok then FinishImage else DropImage)
      else ToImage(s, p, DropImage)
    case FinishImage =>
      // setOwnership and createVolumesSources shadow err, so a failure here skips the cleanup
      At(s, p, if a.ok then Imaging(OpenRecord) else UnlockShared)
    case OpenRecord =>
      if a.ok then ToImage(s.(records := s.records[job.id := Partial]), p, WriteRecord) else ToImage(s, p, DropImage)
    case WriteRecord =>
      if a.ok then
        At(s.(records := s.records[job.id := Complete(job.chain)],
              committed := s.committed[job.id := job.chain]), p, UnlockShared)
      else ToImage(if a.alt then s.(records := s.records[job.id := Complete(job.chain)]) else s, p, DropImage)
    case DropImage =>
      At(ImageDropped(s, job.id, a), p, UnlockShared)
  }

  function StepDelete(s: State, p: Pid, a: Answer): State
    requires p in s.procs && Fits(s.procs[p]) && s.procs[p].pc.Deleting?
  {
    var id := s.procs[p].job.id;
    match s.procs[p].pc.delete
    case CheckImage =>
      if a.ok && id in s.images then At(s, p, Deleting(DestroyImage)) else Ended(s, p)
    case DestroyImage =>
      if a.ok then At(ImageDropped(s, id, a), p, Deleting(Deregister)) else Ended(ImageDropped(s, id, a), p)
    case Deregister =>
      Ended(if a.ok then s.(records := s.records - {id}) else s, p)
  }

  /** The remaining steps: Create before its lock, and its two steps on the shared lock itself. */
  function StepEdge(s: State, p: Pid, a: Answer): State
    requires p in s.procs && Fits(s.procs[p])
    requires var pc := s.procs[p].pc; !pc.Cleaning? && !pc.Deleting? && !pc.Layer? && !pc.Imaging?
  {
    var job := s.procs[p].job;
    match s.procs[p].pc
    case CheckId =>
      if !a.ok || job.id in s.images then Ended(s, p) else At(s, p, FetchInfo)
    case FetchInfo =>
      if !a.ok then Ended(s, p) else At(s, p, if job.cleanFirst then Cleaning(Measure) else LockShared)
    case LockShared =>
      if !a.ok then Ended(s, p)
      else At(s.(flocks := s.flocks.(shared := s.flocks.shared + {p})), p, CheckQuota)
    case CheckQuota =>
      At(s, p, if a.ok then Layer(|job.chain| - 1, Probe) else UnlockShared)
    case UnlockShared =>
      Ended(s.(flocks := s.flocks.(shared := s.flocks.shared - {p})), p)
  }

  function Exec(cfg: Config, s: State, p: Pid, a: Answer): State
    requires p in s.procs && Fits(s.procs[p])
  {
    match s.procs[p].pc
    case Cleaning(_) => StepClean(s, p, a)
    case Layer(_, _) => StepLayer(cfg, s, p, a)
    case Imaging(_) => StepImage(s, p, a)
    case Deleting(_) => StepDelete(s, p, a)
    case _ => StepEdge(s, p, a)
  }

  /** The kernel drops every lock of a dead process. */
  function Crashed(s: State, p: Pid): State {
    var f := s.flocks;
    Ended(s, p).(flocks := Flocks(
      f.shared - {p},
      if f.exclusive == Some(p) then None else f.exclusive,
      map c | c in f.layers && f.layers[c] != p :: f.layers[c]))
  }

  function Entry(job: Job): PC {
    match job
    case Create(_, _, _) => CheckId
    case Clean(_) => Cleaning(Measure)
    case Delete(_) => Deleting(CheckImage)
  }

  /** A Delete ends the life of the image it names the moment it starts. */
  function Spawned(s: State, p: Pid, job: Job): State {
    s.(procs := s.procs[p := Proc(job, Entry(job))],
       committed := if job.Delete? then s.committed - {job.id} else s.committed)
  }

  predicate Possible(s: State, e: Event) {
    match e
    case Spawn(p, job) =>
      // at most one Create or Delete per image ID in flight
      && p !in s.procs && (job.Create? ==> IsChain(job.chain))
      && forall q | q in s.procs && !job.Clean? :: !s.procs[q].job.Names(job.id)
    case Crash(p) => p in s.procs
    case Go(p, a) => p in s.procs && Fits(s.procs[p]) && Enabled(s, p, a)
  }

  function Next(cfg: Config, s: State, e: Event): State
    requires Possible(s, e)
  {
    match e
    case Spawn(p, job) => Spawned(s, p, job)
    case Crash(p) => Crashed(s, p)
    case Go(p, a) => Exec(cfg, s, p, a)
  }

  const INIT := State(map[], map[], map[], map[], Flocks({}, None, map[]), map[], map[])

  ghost predicate Step(cfg: Config, s: State, e: Event, s': State) {
    Possible(s, e) && s' == Next(cfg, s, e)
  }

  ghost predicate StepAt(cfg: Config, states: seq<State>, events: seq<Event>, k: nat)
    requires k < |events| && |states| == |events| + 1
  {
    Step(cfg, states[k], events[k], states[k + 1])
  }

  /** Any number of processes, interleaved in any way, with failures and crashes anywhere. */
  ghost predicate IsRun(cfg: Config, states: seq<State>, events: seq<Event>) {
    && |states| == |events| + 1
    && states[0] == INIT
    && forall k | 0 <= k < |events| :: StepAt(cfg, states, events, k)
  }

  type LayerSet = iset<ChainId>

  /** The second existence check of buildLayer calls a layer's volume absent that is there. */
  predicate Errs(s: State, e: Event, c: ChainId) {
    && e.Go? && e.p in s.procs && Fits(s.procs[e.p]) && s.procs[e.p].pc.Layer? && s.procs[e.p].pc.work.Reprobe?
    && s.procs[e.p].job.chain[s.procs[e.p].pc.i] == c && Live(Final(c)) in s.vols && !e.answer.ok
  }

  /** If the event is such a check, it is answered truthfully. */
  predicate Truthful(s: State, e: Event) {
    e.Go? && e.p in s.procs && Fits(s.procs[e.p]) && s.procs[e.p].pc.Layer? && s.procs[e.p].pc.work.Reprobe? ==>
      Live(Final(s.procs[e.p].job.chain[s.procs[e.p].pc.i])) in s.vols ==> e.answer.ok
  }

  /** It does not do so to any of these layers. */
  ghost predicate Sound(trusted: LayerSet, s: State, e: Event) {
    forall c | c in trusted :: !Errs(s, e, c)
  }

  ghost predicate SoundRun(trusted: LayerSet, states: seq<State>, events: seq<Event>)
    requires |states| >= |events|
  {
    forall k | 0 <= k < |events| :: Sound(trusted, states[k], events[k])
  }
}
