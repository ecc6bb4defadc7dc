/**
 The registry's concurrency (kasa/registry.go) as an interleaved machine: any number of
 scrapers, background sweeps, reader goroutines and closers, one step of one thread at a time,
 under a clock that only moves forward. Every lock names its owner.
 */
module FleetProtocol {
  import opened Fleet
  import opened Wrappers

  type Tid = nat

  /** A *Device: its identity and the address it is reached at. */
  datatype Dev = Dev(id: nat, host: string)

  /** One published result: the device's address and what its read came to. */
  type Result = Row<Option<nat>>

  datatype RawOptions = RawOptions(discovery: bool, interval: int, ttl: int, concurrency: nat, keepMissing: bool,
      manual: set<string>)

  /** NewRegistry raises a concurrency below 1 to 1. */
  type Options = o: RawOptions | o.concurrency >= 1 witness RawOptions(false, 0, 0, 1, false, {})

  /** A call made on a device with devicesMtx held: reconcile closes what it drops, and names what it logs. */
  datatype Call = CloseCall(dev: Dev) | NameCall(dev: Dev)

  // ---------------------------------------------------------------- threads

  datatype Stage = WantSlot | Reading | Naming | Typing | Writing | Releasing | Leaving

  datatype Task =
    | WantSnapshot | CheckCache
    | WantRefresh | Refreshing | Launching
    | WantCopy | Copying | Spawning(next: nat) | Waiting
    | Sweeping(inline: bool)
    | WantReconcile(inline: bool, found: seq<Dev>)
    | Reconciling(inline: bool, found: seq<Dev>, todo: seq<Call>)
    | WantFinish(inline: bool) | Finishing(inline: bool)
    | Reader(round: nat, slot: nat, dev: Dev, stage: Stage, got: Option<nat>)
    | WantClose | Closing(todo: seq<Call>)
    | Done

  /**
   Where a thread is inside a call on a device: its own mutex first, then its transport's, which
   the call will take at most `uses` more times.
   */
  datatype Visit = Outside | WantMu(uses: nat) | InMu(uses: nat) | WantTransport(uses: nat) | InTransport(uses: nat)

  datatype Thread = Thread(task: Task, visit: Visit)

  /** Inside Snapshot with snapshotMtx held. */
  predicate InSnapshot(t: Task) {
    match t
    case CheckCache | WantRefresh | Refreshing | Launching | WantCopy | Copying | Spawning(_) | Waiting => true
    case Sweeping(inline) => inline
    case WantReconcile(inline, _) => inline
    case Reconciling(inline, _, _) => inline
    case WantFinish(inline) => inline
    case Finishing(inline) => inline
    case _ => false
  }

  /** Between deciding on a query round and publishing it. */
  predicate InRound(t: Task) {
    InSnapshot(t) && t != CheckCache
  }

  predicate HoldsDevices(t: Task) {
    t.Refreshing? || t.Copying? || t.Reconciling? || t.Finishing? || t.Closing?
  }

  predicate WantsDevices(t: Task) {
    t.WantRefresh? || t.WantCopy? || t.WantReconcile? || t.WantFinish? || t.WantClose?
  }

  /** Responsible for the sweep in flight. */
  predicate InSweep(t: Task) {
    t.Launching? || t.Sweeping? || t.WantReconcile? || t.Reconciling? || t.WantFinish? || t.Finishing?
  }

  /** The device a thread is calling, or about to. */
  function Target(t: Task): Option<Dev> {
    match t
    case Reader(_, _, dev, stage, _) =>
      if stage == Reading || stage == Naming || stage == Typing then Some(dev) else None
    case Reconciling(_, _, todo) => if todo == [] then None else Some(todo[0].dev)
    case Closing(todo) => if todo == [] then None else Some(todo[0].dev)
    case _ => None
  }

  /** Read and Close reach the transport; Alias and Type do not. */
  predicate MayQuery(t: Task) {
    match t
    case Reader(_, _, _, stage, _) => stage == Reading
    case Reconciling(_, _, todo) => todo != [] && todo[0].CloseCall?
    case Closing(todo) => todo != [] && todo[0].CloseCall?
    case _ => false
  }

  /** What a task becomes when its call on the device returns; `got` is what a read came to. */
  function AfterCall(t: Task, got: Option<nat>): Task {
    match t
    case Reader(round, slot, dev, stage, was) =>
      if stage == Reading then Reader(round, slot, dev, Naming, got)
      else Reader(round, slot, dev, if stage == Naming then Typing else if stage == Typing then Writing else stage, was)
    case Reconciling(inline, found, todo) => if todo == [] then t else Reconciling(inline, found, todo[1..])
    case Closing(todo) => if todo == [] then t else Closing(todo[1..])
    case _ => t
  }

  /** The devices holding a connection once a call returns: a read leaves one exactly when it succeeded. */
  function ConnectedAfter(connected: set<Dev>, t: Task, got: Option<nat>): set<Dev> {
    match t
    case Reader(_, _, dev, stage, _) =>
      if stage != Reading then connected else if got.Some? then connected + {dev} else connected - {dev}
    case Reconciling(_, _, todo) =>
      if todo != [] && todo[0].CloseCall? then connected - {todo[0].dev} else connected
    case Closing(todo) =>
      if todo != [] && todo[0].CloseCall? then connected - {todo[0].dev} else connected
    case _ => connected
  }

  /** Holding a slot of the round's semaphore. */
  predicate InSlot(stage: Stage) {
    stage == Reading || stage == Naming || stage == Typing || stage == Writing || stage == Releasing
  }

  // ---------------------------------------------------------------- state

  /**
   One query round: `devs` is the copy of the device set in whatever order the map gave it,
   `inside` the slots holding the semaphore, `live` the readers the WaitGroup still counts.
   */
  datatype Round = Round(
    owner: Tid, start: int, end: Option<int>, fleet: map<string, Dev>, devs: seq<Dev>,
    results: seq<Option<Result>>, writes: seq<nat>, inside: set<nat>, live: map<nat, Tid>)

  /** When a sweep or a query round began, and when it ended if it has. */
  datatype Span = Span(start: int, end: Option<int>)

  /** One return from Snapshot: when the cache was checked, when it returned, and the round returned. */
  datatype Served = Served(tid: Tid, check: int, at: int, round: nat, rows: seq<Result>)

  datatype State = State(
    now: int,
    snapshotMtx: Option<Tid>, devicesMtx: Option<Tid>, mu: map<Dev, Tid>, transport: map<Dev, Tid>,
    threads: map<Tid, Thread>,
    devices: map<string, Dev>, known: set<Dev>, connected: set<Dev>, lastDiscovery: Option<int>, discovering: bool,
    snapshot: Option<seq<Result>>, snapshotTime: int,
    sweeper: Option<Tid>, rounds: seq<Round>, sweeps: seq<Span>, served: seq<Served>)

  ghost predicate HostKeyed(devices: map<string, Dev>) {
    forall h :: h in devices ==> devices[h].host == h
  }

  /** The registry NewRegistry builds: one device per configured host, and nothing run yet. */
  ghost predicate Initial(o: Options, s: State) {
    && s.devices.Keys == o.manual && HostKeyed(s.devices)
    && s == State(s.now, None, None, map[], map[], map[], s.devices, s.devices.Values, {}, None, false,
                   None, s.snapshotTime, None, [], [], [])
  }

  // ---------------------------------------------------------------- steps

  /** Steps of Snapshot and readAll under snapshotMtx. */
  datatype SnapshotStep = LockSnapshot | ServeCached | StartRound | CopyDevices(devs: seq<Dev>) | AllSpawned | Publish

  /** Steps under devicesMtx, and of a sweep's discovery. */
  datatype SweepStep =
    | LockDevices(todo: seq<Call>) | Decide | Fail | Find(found: seq<Dev>)
    | EndReconcile | FinishSweep | EndClose

  /** Steps of a reader goroutine around its device calls. */
  datatype ReaderStep = TakeSlot | WriteResult | ReleaseSlot | LeaveRound

  /** Steps of one call on a device. */
  datatype CallStep = Begin(uses: nat) | TakeMu | AskTransport | TakeTransport | LeaveTransport | End(got: Option<nat>)

  datatype Action =
    | Tick(dt: nat) | CallSnapshot(t: Tid) | CallClose(t: Tid)
    | Launch(t: Tid, child: Tid) | SpawnReader(t: Tid, child: Tid)
    | OnSnapshot(t: Tid, snap: SnapshotStep) | OnSweep(t: Tid, sweep: SweepStep)
    | OnReader(t: Tid, reader: ReaderStep) | OnDevice(t: Tid, call: CallStep)

  /** Steps of the outside world rather than of a thread. */
  predicate Environment(a: Action) {
    a.Tick? || a.CallSnapshot? || a.CallClose?
  }

  function ByHost(found: seq<Dev>): seq<(string, Dev)> {
    seq(|found|, i requires 0 <= i < |found| => (found[i].host, found[i]))
  }

  function Reconciled(o: Options, devices: map<string, Dev>, found: seq<Dev>): map<string, Dev> {
    Merge(devices, ByHost(found), o.manual, o.keepMissing)
  }

  /** The calls reconcile makes with devicesMtx held: added devices are named, dropped ones closed and named. */
  function Touched(o: Options, devices: map<string, Dev>, found: seq<Dev>): set<Call> {
    var merged := Reconciled(o, devices, found);
    (set h | h in merged && h !in devices :: NameCall(merged[h]))
    + (set h | h in devices && h !in merged :: CloseCall(devices[h]))
    + (set h | h in devices && h !in merged :: NameCall(devices[h]))
  }

  /** Each of these calls once, in any order in which a device that is closed is closed before it is named. */
  ghost predicate Plans(todo: seq<Call>, calls: set<Call>) {
    && (forall c :: c in todo <==> c in calls)
    && (forall i, j :: 0 <= i < j < |todo| ==> todo[i] != todo[j])
    && (forall i, j :: 0 <= i < |todo| && 0 <= j < |todo| && todo[i].CloseCall? && todo[j] == NameCall(todo[i].dev) ==>
          i < j)
  }

  function Closures(devices: map<string, Dev>): set<Call> {
    set h | h in devices :: CloseCall(devices[h])
  }

  /** A listing of a device map in some order. */
  ghost predicate Lists(devs: seq<Dev>, devices: map<string, Dev>) {
    && (forall i, j :: 0 <= i < j < |devs| ==> devs[i].host != devs[j].host)
    && (forall i :: 0 <= i < |devs| ==> devs[i].host in devices && devices[devs[i].host] == devs[i])
    && (forall h :: h in devices ==> devices[h] in devs)
  }

  predicate At(s: State, t: Tid, task: Task) {
    t in s.threads && s.threads[t] == Thread(task, Outside)
  }

  predicate CacheFresh(o: Options, s: State) {
    s.snapshot.Some? && s.now - s.snapshotTime < o.ttl
  }

  predicate Due(o: Options, s: State) {
    s.lastDiscovery.None? || s.now - s.lastDiscovery.value >= o.interval
  }

  function TargetOf(s: State, t: Tid): Dev
    requires t in s.threads && Target(s.threads[t].task).Some?
  {
    Target(s.threads[t].task).value
  }

  ghost predicate SnapshotEnabled(o: Options, s: State, t: Tid, step: SnapshotStep) {
    match step
    case LockSnapshot => At(s, t, WantSnapshot) && s.snapshotMtx == None
    case ServeCached => At(s, t, CheckCache) && CacheFresh(o, s) && |s.rounds| > 0
    case StartRound => At(s, t, CheckCache) && !CacheFresh(o, s)
    case CopyDevices(devs) => At(s, t, Copying) && Lists(devs, s.devices) && |s.rounds| > 0
    case AllSpawned => |s.rounds| > 0 && At(s, t, Spawning(|Last(s).devs|))
    case Publish => At(s, t, Waiting) && |s.rounds| > 0 && Last(s).live == map[]
  }

  ghost predicate SweepEnabled(o: Options, s: State, t: Tid, step: SweepStep) {
    && t in s.threads && s.threads[t].visit == Outside
    && var task := s.threads[t].task;
       match step
       case LockDevices(todo) =>
         && WantsDevices(task) && s.devicesMtx == None
         && (match task
             case WantReconcile(_, found) => Plans(todo, Touched(o, s.devices, found))
             case WantClose => Plans(todo, Closures(s.devices))
             case _ => todo == [])
       case Decide => task.Refreshing?
       case Fail => task.Sweeping?
       case Find(found) => task.Sweeping? && forall i :: 0 <= i < |found| ==> found[i] !in s.known
       case EndReconcile => task.Reconciling? && task.todo == []
       case FinishSweep => task.Finishing? && |s.sweeps| > 0
       case EndClose => task == Closing([])
  }

  ghost predicate ReaderEnabled(o: Options, s: State, t: Tid, step: ReaderStep) {
    && t in s.threads && s.threads[t].visit == Outside && s.threads[t].task.Reader?
        && s.threads[t].task.round < |s.rounds|
    && var task := s.threads[t].task;
       var r := s.rounds[task.round];
       match step
       case TakeSlot => task.stage == WantSlot && |r.inside| < o.concurrency
       case WriteResult => task.stage == Writing && task.slot < |r.results| == |r.writes|
       case ReleaseSlot => task.stage == Releasing
       case LeaveRound => task.stage == Leaving
  }

  ghost predicate CallEnabled(s: State, t: Tid, step: CallStep) {
    && t in s.threads && Target(s.threads[t].task).Some?
    && var visit, d := s.threads[t].visit, TargetOf(s, t);
       match step
       case Begin(_) => visit.Outside?
       case TakeMu => visit.WantMu? && d !in s.mu
       case AskTransport => visit.InMu? && visit.uses > 0 && MayQuery(s.threads[t].task)
       case TakeTransport => visit.WantTransport? && d !in s.transport
       case LeaveTransport => visit.InTransport?
       case End(_) => visit.InMu?
  }

  ghost predicate Enabled(o: Options, s: State, a: Action) {
    match a
    case Tick(_) => true
    case CallSnapshot(t) => t !in s.threads
    case CallClose(t) => t !in s.threads
    case Launch(t, child) => At(s, t, Launching) && child !in s.threads
    case SpawnReader(t, child) =>
      && t in s.threads && s.threads[t].visit == Outside && s.threads[t].task.Spawning? && |s.rounds| > 0
      && s.threads[t].task.next < |Last(s).devs| && child !in s.threads
    case OnSnapshot(t, step) => SnapshotEnabled(o, s, t, step)
    case OnSweep(t, step) => SweepEnabled(o, s, t, step)
    case OnReader(t, step) => ReaderEnabled(o, s, t, step)
    case OnDevice(t, step) => CallEnabled(s, t, step)
  }

  function Last(s: State): Round
    requires |s.rounds| > 0
  {
    s.rounds[|s.rounds| - 1]
  }

  function SetTask(s: State, t: Tid, task: Task): State {
    s.(threads := s.threads[t := Thread(task, Outside)])
  }

  function SetVisit(s: State, t: Tid, visit: Visit): State
    requires t in s.threads
  {
    s.(threads := s.threads[t := s.threads[t].(visit := visit)])
  }

  function SetRound(s: State, i: nat, r: Round): State
    requires i < |s.rounds|
  {
    s.(rounds := s.rounds[i := r])
  }

  /** The list readAll returns: the results its readers wrote, ordered by address. */
  function Published(r: Round): seq<Result> {
    SortRows(Rows(r.results))
  }

  function Rows(results: seq<Option<Result>>): seq<Result> {
    seq(|results|, i requires 0 <= i < |results| => results[i].GetOr(Row("", None)))
  }

  /** `refreshDevices` with devicesMtx held: decide, mark the sweep begun, unlock. */
  function DecideRefresh(o: Options, s: State, t: Tid): State {
    if Due(o, s) && !s.discovering then
      SetTask(s, t, if s.lastDiscovery.None? then Sweeping(true) else Launching)
        .(devicesMtx := None, discovering := true, sweeper := Some(t), sweeps := s.sweeps + [Span(s.now, None)])
    else
      SetTask(s, t, WantCopy).(devicesMtx := None)
  }

  /** The deferred end of runDiscovery, failed or not. */
  function EndSweep(s: State, t: Tid, inline: bool): State
    requires |s.sweeps| > 0
  {
    SetTask(s, t, if inline then WantCopy else Done).(
      devicesMtx := None, discovering := false, lastDiscovery := Some(s.now), sweeper := None,
      sweeps := s.sweeps[|s.sweeps| - 1 := s.sweeps[|s.sweeps| - 1].(end := Some(s.now))])
  }

  function PublishRound(s: State, t: Tid): State
    requires |s.rounds| > 0
  {
    var r := Last(s);
    var rows := Published(r);
    SetRound(SetTask(s, t, Done), |s.rounds| - 1, r.(end := Some(s.now))).(
      snapshotMtx := None, snapshot := Some(rows), snapshotTime := s.now,
      served := s.served + [Served(t, r.start, s.now, |s.rounds| - 1, rows)])
  }

  ghost function SnapshotApply(o: Options, s: State, t: Tid, step: SnapshotStep): State
    requires SnapshotEnabled(o, s, t, step)
  {
    match step
    case LockSnapshot => SetTask(s, t, CheckCache).(snapshotMtx := Some(t))
    case ServeCached =>
      SetTask(s, t, Done).(snapshotMtx := None,
          served := s.served + [Served(t, s.now, s.now, |s.rounds| - 1, s.snapshot.value)])
    case StartRound =>
      SetTask(s, t, if o.discovery then WantRefresh else WantCopy)
        .(rounds := s.rounds + [Round(t, s.now, None, map[], [], [], [], {}, map[])])
    case CopyDevices(devs) =>
      SetRound(SetTask(s, t, Spawning(0)), |s.rounds| - 1,
        Last(s).(fleet := s.devices, devs := devs, results := seq(|devs|, _ => None),
            writes := seq(|devs|, _ => 0))).(devicesMtx := None)
    case AllSpawned => SetTask(s, t, Waiting)
    case Publish => PublishRound(s, t)
  }

  function Locked(task: Task, todo: seq<Call>): Task {
    match task
    case WantRefresh => Refreshing
    case WantCopy => Copying
    case WantReconcile(inline, found) => Reconciling(inline, found, todo)
    case WantFinish(inline) => Finishing(inline)
    case WantClose => Closing(todo)
    case _ => task
  }

  ghost function SweepApply(o: Options, s: State, t: Tid, step: SweepStep): State
    requires SweepEnabled(o, s, t, step)
  {
    var task := s.threads[t].task;
    match step
    case LockDevices(todo) => SetTask(s, t, Locked(task, todo)).(devicesMtx := Some(t))
    case Decide => DecideRefresh(o, s, t)
    case Fail => SetTask(s, t, WantFinish(task.inline))
    case Find(found) => SetTask(s, t, WantReconcile(task.inline, found)).(known := s.known + set d | d in found)
    case EndReconcile => SetTask(s, t, WantFinish(task.inline)).(devicesMtx := None,
        devices := Reconciled(o, s.devices, task.found))
    case FinishSweep => EndSweep(s, t, task.inline)
    case EndClose => SetTask(s, t, Done).(devicesMtx := None)
  }

  function AfterReader(task: Task, step: ReaderStep): Task
    requires task.Reader?
  {
    match step
    case TakeSlot => task.(stage := Reading)
    case WriteResult => task.(stage := Releasing)
    case ReleaseSlot => task.(stage := Leaving)
    case LeaveRound => Done
  }

  /** What a reader's step does to its round: `results[i] = …` is the only write. */
  function SlotAfter(r: Round, i: nat, row: Result, step: ReaderStep): Round
    requires step.WriteResult? ==> i < |r.results| == |r.writes|
  {
    match step
    case TakeSlot => r.(inside := r.inside + {i})
    case WriteResult => r.(results := r.results[i := Some(row)], writes := r.writes[i := r.writes[i] + 1])
    case ReleaseSlot => r.(inside := r.inside - {i})
    case LeaveRound => r.(live := r.live - {i})
  }

  ghost function ReaderApply(o: Options, s: State, t: Tid, step: ReaderStep): State
    requires ReaderEnabled(o, s, t, step)
  {
    var task := s.threads[t].task;
    var row := Row(task.dev.host, task.got);
    SetRound(SetTask(s, t, AfterReader(task, step)), task.round, SlotAfter(s.rounds[task.round], task.slot, row, step))
  }

  ghost function CallApply(s: State, t: Tid, step: CallStep): State
    requires CallEnabled(s, t, step)
  {
    var d, visit := TargetOf(s, t), s.threads[t].visit;
    match step
    case Begin(uses) => SetVisit(s, t, WantMu(uses))
    case TakeMu => SetVisit(s, t, InMu(visit.uses)).(mu := s.mu[d := t])
    case AskTransport => SetVisit(s, t, WantTransport(visit.uses - 1))
    case TakeTransport => SetVisit(s, t, InTransport(visit.uses)).(transport := s.transport[d := t])
    case LeaveTransport => SetVisit(s, t, InMu(visit.uses)).(transport := s.transport - {d})
    case End(got) =>
      SetTask(s, t, AfterCall(s.threads[t].task, got))
        .(mu := s.mu - {d}, connected := ConnectedAfter(s.connected, s.threads[t].task, got))
  }

  function SpawnApply(s: State, t: Tid, child: Tid): State
    requires t in s.threads && s.threads[t].task.Spawning? && |s.rounds| > 0 && s.threads[t].task.next < |Last(s).devs|
  {
    var r, i := Last(s), s.threads[t].task.next;
    SetRound(SetTask(SetTask(s, child, Reader(|s.rounds| - 1, i, r.devs[i], WantSlot, None)), t, Spawning(i + 1)),
      |s.rounds| - 1, r.(live := r.live[i := child]))
  }

  ghost function Apply(o: Options, s: State, a: Action): State
    requires Enabled(o, s, a)
  {
    match a
    case Tick(dt) => s.(now := s.now + dt)
    case CallSnapshot(t) => SetTask(s, t, WantSnapshot)
    case CallClose(t) => SetTask(s, t, WantClose)
    case Launch(t, child) => SetTask(SetTask(s, child, Sweeping(false)), t, WantCopy).(sweeper := Some(child))
    case SpawnReader(t, child) => SpawnApply(s, t, child)
    case OnSnapshot(t, step) => SnapshotApply(o, s, t, step)
    case OnSweep(t, step) => SweepApply(o, s, t, step)
    case OnReader(t, step) => ReaderApply(o, s, t, step)
    case OnDevice(t, step) => CallApply(s, t, step)
  }

  ghost predicate Legal(o: Options, s: State, run: seq<Action>)
    decreases |run|
  {
    run == [] || (Enabled(o, s, run[0]) && Legal(o, Apply(o, s, run[0]), run[1..]))
  }

  ghost function After(o: Options, s: State, run: seq<Action>): State
    requires Legal(o, s, run)
    decreases |run|
  {
    if run == [] then s else After(o, Apply(o, s, run[0]), run[1..])
  }

  ghost predicate Reachable(o: Options, s: State) {
    exists s0, run :: Initial(o, s0) && Legal(o, s0, run) && After(o, s0, run) == s
  }
}
