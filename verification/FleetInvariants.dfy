/** What every step of the registry's machine keeps. */
module FleetInvariants {
  import opened Fleet
  import opened FleetProtocol
  import opened Wrappers

  // ---------------------------------------------------------------- what each kind of step leaves alone

  /** Two points of the code on the same side of Snapshot and of its round. */
  predicate SameStanding(a: Task, b: Task) {
    && (InSnapshot(a) <==> InSnapshot(b)) && (InRound(a) <==> InRound(b))
    && !a.Spawning? && !a.Waiting? && !b.Spawning? && !b.Waiting?
  }

  /** A sweep's step moves its own thread and leaves snapshotMtx, the rounds and the device locks alone. */
  lemma SweepShape(o: Options, s: State, t: Tid, step: SweepStep)
    requires SweepEnabled(o, s, t, step)
    ensures var s' := SweepApply(o, s, t, step);
      && t in s'.threads && s'.threads == s.threads[t := s'.threads[t]] && s'.threads[t].visit == Outside
      && s'.snapshotMtx == s.snapshotMtx && s'.rounds == s.rounds && s'.mu == s.mu && s'.transport == s.transport
      && SameStanding(s.threads[t].task, s'.threads[t].task) && !s.threads[t].task.Reader?
          && !s'.threads[t].task.Reader?
  {
    SweepFrame(o, s, t, step);
    SweepStanding(o, s, t, step);
    hide SweepEnabled, SweepApply;
  }

  lemma SweepFrame(o: Options, s: State, t: Tid, step: SweepStep)
    requires SweepEnabled(o, s, t, step)
    ensures var s' := SweepApply(o, s, t, step);
      && t in s'.threads && s'.threads == s.threads[t := s'.threads[t]] && s'.threads[t].visit == Outside
      && s'.snapshotMtx == s.snapshotMtx && s'.rounds == s.rounds && s'.mu == s.mu && s'.transport == s.transport
  {
    hide Reconciled, Touched, Closures, Plans, Lists;
  }

  lemma SweepStanding(o: Options, s: State, t: Tid, step: SweepStep)
    requires SweepEnabled(o, s, t, step)
    ensures var s' := SweepApply(o, s, t, step);
      && t in s'.threads && SameStanding(s.threads[t].task, s'.threads[t].task)
      && !s.threads[t].task.Reader? && !s'.threads[t].task.Reader?
  {
    hide Reconciled, Touched, Closures, Plans, Lists, Due;
  }

  /** A step under snapshotMtx moves its own thread and leaves devices, sweeps and device locks alone. */
  lemma SnapshotShape(o: Options, s: State, t: Tid, step: SnapshotStep)
    requires SnapshotEnabled(o, s, t, step)
    ensures var s' := SnapshotApply(o, s, t, step);
      && t in s.threads && t in s'.threads && s'.threads == s.threads[t := s'.threads[t]]
      && s.threads[t].visit == Outside && s'.threads[t].visit == Outside
      && s'.mu == s.mu && s'.transport == s.transport && s'.devices == s.devices
      && s'.known == s.known && s'.connected == s.connected
  {
    hide Published, Lists;
  }

  /** Where a step under snapshotMtx takes its thread. */
  function SnapshotNext(o: Options, step: SnapshotStep): Task {
    match step
    case LockSnapshot => CheckCache
    case ServeCached => Done
    case StartRound => if o.discovery then WantRefresh else WantCopy
    case CopyDevices(_) => Spawning(0)
    case AllSpawned => Waiting
    case Publish => Done
  }

  lemma SnapshotMoves(o: Options, s: State, t: Tid, step: SnapshotStep)
    requires SnapshotEnabled(o, s, t, step)
    ensures var s' := SnapshotApply(o, s, t, step);
      && t in s'.threads && s'.threads[t].task == SnapshotNext(o, step)
      && s'.snapshotMtx == (if step.LockSnapshot? then Some(t)
                            else if step.ServeCached? || step.Publish? then None else s.snapshotMtx)
      && s'.devicesMtx == if step.CopyDevices? then None else s.devicesMtx
  {
    hide Published, Lists;
  }

  lemma SnapshotTakes(o: Options, s: State, t: Tid, step: SnapshotStep)
    requires SnapshotEnabled(o, s, t, step) && (InSnapshot(s.threads[t].task) <==> s.snapshotMtx == Some(t))
    requires HoldsDevices(s.threads[t].task) <==> s.devicesMtx == Some(t)
    ensures var s' := SnapshotApply(o, s, t, step);
      && OwnStep(s.snapshotMtx, s'.snapshotMtx, t) && OwnStep(s.devicesMtx, s'.devicesMtx, t) && t in s'.threads
      && (InSnapshot(s'.threads[t].task) <==> s'.snapshotMtx == Some(t))
      && (HoldsDevices(s'.threads[t].task) <==> s'.devicesMtx == Some(t))
  {
    SnapshotMoves(o, s, t, step);
    hide SnapshotApply, Lists, CacheFresh;
  }

  /** A reader's own step moves its thread and one slot of its round. */
  lemma ReaderShape(o: Options, s: State, t: Tid, step: ReaderStep)
    requires ReaderEnabled(o, s, t, step)
    ensures var s', n := ReaderApply(o, s, t, step), s.threads[t].task.round;
      && t in s'.threads && s'.threads == s.threads[t := s'.threads[t]] && s'.threads[t].visit == Outside
      && s'.mu == s.mu && s'.transport == s.transport
      && |s'.rounds| == |s.rounds| && s'.rounds == s.rounds[n := s'.rounds[n]]
      && s'.rounds[n].owner == s.rounds[n].owner && s'.rounds[n].start == s.rounds[n].start
          && s'.rounds[n].end == s.rounds[n].end
      && SameStanding(s.threads[t].task, s'.threads[t].task)
      && !HoldsDevices(s.threads[t].task) && !HoldsDevices(s'.threads[t].task)
      && !InSweep(s.threads[t].task) && !InSweep(s'.threads[t].task) && !InSnapshot(s.threads[t].task)
  {
  }

  /** All that readers and device calls leave alone. */
  predicate SameRecords(s: State, s': State) {
    && s'.now == s.now && s'.snapshotMtx == s.snapshotMtx && s'.devicesMtx == s.devicesMtx
    && s'.devices == s.devices && s'.lastDiscovery == s.lastDiscovery && s'.discovering == s.discovering
    && s'.snapshot == s.snapshot && s'.snapshotTime == s.snapshotTime
    && s'.sweeper == s.sweeper && s'.sweeps == s.sweeps && s'.served == s.served
  }

  lemma ReaderLeavesRecords(o: Options, s: State, t: Tid, step: ReaderStep)
    requires ReaderEnabled(o, s, t, step)
    ensures SameRecords(s, ReaderApply(o, s, t, step))
  {
  }

  lemma CallLeavesRecords(s: State, t: Tid, step: CallStep)
    requires CallEnabled(s, t, step)
    ensures SameRecords(s, CallApply(s, t, step)) && CallApply(s, t, step).rounds == s.rounds
  {
  }

  // ---------------------------------------------------------------- mutexes

  /** The two registry mutexes are held by exactly the threads whose code position says so. */
  ghost predicate MutexesOk(s: State) {
    && (forall t :: t in s.threads ==> (InSnapshot(s.threads[t].task) <==> s.snapshotMtx == Some(t)))
    && (forall t :: t in s.threads ==> (HoldsDevices(s.threads[t].task) <==> s.devicesMtx == Some(t)))
    && (s.snapshotMtx.Some? ==> s.snapshotMtx.value in s.threads)
    && (s.devicesMtx.Some? ==> s.devicesMtx.value in s.threads)
  }

  predicate HoldsMu(th: Thread) {
    th.visit.InMu? || th.visit.WantTransport? || th.visit.InTransport?
  }

  /** So are the per-device mutexes, and a transport is only held inside its device's mutex. */
  ghost predicate DeviceLocksOk(s: State) {
    && (forall t :: t in s.threads && s.threads[t].visit != Outside ==> Target(s.threads[t].task).Some?)
    && (forall t :: t in s.threads && HoldsMu(s.threads[t]) ==>
          Target(s.threads[t].task).Some? && TargetOf(s, t) in s.mu && s.mu[TargetOf(s, t)] == t)
    && (forall t :: t in s.threads && s.threads[t].visit.InTransport? ==>
          Target(s.threads[t].task).Some? && TargetOf(s, t) in s.transport && s.transport[TargetOf(s, t)] == t)
    && (forall d :: d in s.mu ==>
        s.mu[d] in s.threads && HoldsMu(s.threads[s.mu[d]]) && Target(s.threads[s.mu[d]].task) == Some(d))
    && (forall d :: d in s.transport ==>
          s.transport[d] in s.threads && s.threads[s.transport[d]].visit.InTransport?
              && Target(s.threads[s.transport[d]].task) == Some(d))
  }

  /** A mutex before and after a step of t: kept, taken from free, or given up. */
  predicate OwnStep(before: Option<Tid>, after: Option<Tid>, t: Tid) {
    after == before || (before == None && after == Some(t)) || (before == Some(t) && after == None)
  }

  lemma MutexesFrame(s: State, s': State, t: Tid, th: Thread)
    requires MutexesOk(s) && s'.threads == s.threads[t := th]
    requires OwnStep(s.snapshotMtx, s'.snapshotMtx, t) && OwnStep(s.devicesMtx, s'.devicesMtx, t)
    requires InSnapshot(th.task) <==> s'.snapshotMtx == Some(t)
    requires HoldsDevices(th.task) <==> s'.devicesMtx == Some(t)
    ensures MutexesOk(s')
  {
  }

  lemma MutexesOf(s: State, t: Tid)
    requires MutexesOk(s)
    ensures t in s.threads ==> (InSnapshot(s.threads[t].task) <==> s.snapshotMtx == Some(t))
    ensures t in s.threads ==> (HoldsDevices(s.threads[t].task) <==> s.devicesMtx == Some(t))
    ensures t !in s.threads ==> s.snapshotMtx != Some(t) && s.devicesMtx != Some(t)
  {
  }

  lemma MutexesOnSnapshot(o: Options, s: State, t: Tid, step: SnapshotStep)
    requires MutexesOk(s) && SnapshotEnabled(o, s, t, step)
    ensures MutexesOk(SnapshotApply(o, s, t, step))
  {
    SnapshotShape(o, s, t, step);
    MutexesOf(s, t);
    hide MutexesOk, SnapshotEnabled, SnapshotApply;
    SnapshotTakes(o, s, t, step);
    var s' := SnapshotApply(o, s, t, step);
    MutexesFrame(s, s', t, s'.threads[t]);
  }

  lemma SweepTakesDevices(o: Options, s: State, t: Tid, step: SweepStep)
    requires SweepEnabled(o, s, t, step) && (HoldsDevices(s.threads[t].task) <==> s.devicesMtx == Some(t))
    ensures var s' := SweepApply(o, s, t, step);
      OwnStep(s.devicesMtx, s'.devicesMtx, t) && t in s'.threads
          && (HoldsDevices(s'.threads[t].task) <==> s'.devicesMtx == Some(t))
  {
    hide Reconciled, Touched, Closures, Plans, Lists;
  }

  lemma MutexesOnSweep(o: Options, s: State, t: Tid, step: SweepStep)
    requires MutexesOk(s) && SweepEnabled(o, s, t, step)
    ensures MutexesOk(SweepApply(o, s, t, step))
  {
    MutexesOf(s, t);
    SweepShape(o, s, t, step);
    SweepTakesDevices(o, s, t, step);
    hide MutexesOk, SweepEnabled, SweepApply;
    var s' := SweepApply(o, s, t, step);
    MutexesFrame(s, s', t, s'.threads[t]);
  }

  lemma MutexesOnReader(o: Options, s: State, t: Tid, step: ReaderStep)
    requires MutexesOk(s) && ReaderEnabled(o, s, t, step)
    ensures MutexesOk(ReaderApply(o, s, t, step))
  {
    MutexesOf(s, t);
    ReaderShape(o, s, t, step);
    ReaderLeavesRecords(o, s, t, step);
    hide MutexesOk, ReaderApply, ReaderEnabled;
    var s' := ReaderApply(o, s, t, step);
    MutexesFrame(s, s', t, s'.threads[t]);
  }

  lemma MutexesOnDevice(s: State, t: Tid, step: CallStep)
    requires MutexesOk(s) && CallEnabled(s, t, step)
    ensures MutexesOk(CallApply(s, t, step))
  {
    MutexesOf(s, t);
    hide MutexesOk;
    var s' := CallApply(s, t, step);
    MutexesFrame(s, s', t, s'.threads[t]);
  }

  lemma MutexesOnSpawn(s: State, s': State, t: Tid, child: Tid)
    requires MutexesOk(s) && t in s.threads && child !in s.threads && t in s'.threads && child in s'.threads
    requires s'.threads == s.threads[child := s'.threads[child]][t := s'.threads[t]]
    requires s'.snapshotMtx == s.snapshotMtx && s'.devicesMtx == s.devicesMtx
    requires !InSnapshot(s'.threads[child].task) && !HoldsDevices(s'.threads[child].task)
    requires InSnapshot(s.threads[t].task) <==> InSnapshot(s'.threads[t].task)
    requires HoldsDevices(s.threads[t].task) <==> HoldsDevices(s'.threads[t].task)
    ensures MutexesOk(s')
  {
  }

  lemma MutexesArrive(s: State, t: Tid, task: Task)
    requires MutexesOk(s) && t !in s.threads && !InSnapshot(task) && !HoldsDevices(task)
    ensures MutexesOk(SetTask(s, t, task))
  {
  }

  lemma MutexesTick(s: State, dt: nat)
    requires MutexesOk(s)
    ensures MutexesOk(s.(now := s.now + dt))
  {
  }

  lemma MutexesOnLaunch(o: Options, s: State, t: Tid, child: Tid)
    requires MutexesOk(s) && Enabled(o, s, Launch(t, child))
    ensures MutexesOk(Apply(o, s, Launch(t, child)))
  {
    hide MutexesOk;
    MutexesOnSpawn(s, Apply(o, s, Launch(t, child)), t, child);
  }

  lemma MutexesOnReaderSpawn(s: State, t: Tid, child: Tid)
    requires MutexesOk(s) && t in s.threads && child !in s.threads
    requires s.threads[t].task.Spawning? && |s.rounds| > 0 && s.threads[t].task.next < |Last(s).devs|
    ensures MutexesOk(SpawnApply(s, t, child))
  {
    hide MutexesOk;
    MutexesOnSpawn(s, SpawnApply(s, t, child), t, child);
  }

  lemma MutexesStep(o: Options, s: State, a: Action)
    requires MutexesOk(s) && Enabled(o, s, a)
    ensures MutexesOk(Apply(o, s, a))
  {
    hide MutexesOk, SnapshotApply, SweepApply, ReaderApply, CallApply, SpawnApply;
    hide SnapshotEnabled, SweepEnabled, ReaderEnabled, CallEnabled;
    match a
    case Tick(dt) => MutexesTick(s, dt);
    case CallSnapshot(t) => MutexesArrive(s, t, WantSnapshot);
    case CallClose(t) => MutexesArrive(s, t, WantClose);
    case Launch(t, child) => hide Apply; MutexesOnLaunch(o, s, t, child);
    case SpawnReader(t, child) => MutexesOnReaderSpawn(s, t, child);
    case OnSnapshot(t, step) => MutexesOnSnapshot(o, s, t, step);
    case OnSweep(t, step) => MutexesOnSweep(o, s, t, step);
    case OnReader(t, step) => MutexesOnReader(o, s, t, step);
    case OnDevice(t, step) => MutexesOnDevice(s, t, step);
  }

  lemma LocksKept(s: State, s': State, t: Tid, th: Thread)
    requires DeviceLocksOk(s) && s'.threads == s.threads[t := th] && s'.mu == s.mu && s'.transport == s.transport
    requires th.visit != Outside ==> Target(th.task).Some?
    requires t in s.threads ==>
        (HoldsMu(th) <==> HoldsMu(s.threads[t])) && (th.visit.InTransport? <==> s.threads[t].visit.InTransport?)
    requires t in s.threads && HoldsMu(th) ==> Target(th.task) == Target(s.threads[t].task)
    requires t !in s.threads ==> th.visit == Outside
    ensures DeviceLocksOk(s')
  {
    hide Target;
  }

  lemma MuTaken(s: State, s': State, t: Tid, d: Dev, th: Thread)
    requires DeviceLocksOk(s) && t in s.threads && !HoldsMu(s.threads[t]) && d !in s.mu
    requires s'.threads == s.threads[t := th] && s'.mu == s.mu[d := t] && s'.transport == s.transport
    requires th.visit.InMu? && Target(th.task) == Some(d)
    ensures DeviceLocksOk(s')
  {
    hide Target;
  }

  lemma MuGiven(s: State, s': State, t: Tid, d: Dev, th: Thread)
    requires DeviceLocksOk(s) && t in s.threads && s.threads[t].visit.InMu? && Target(s.threads[t].task) == Some(d)
    requires s'.threads == s.threads[t := th] && s'.mu == s.mu - {d} && s'.transport == s.transport
    requires th.visit == Outside
    ensures DeviceLocksOk(s')
  {
    hide Target;
  }

  lemma TransportTaken(s: State, s': State, t: Tid, d: Dev, th: Thread)
    requires DeviceLocksOk(s) && t in s.threads && s.threads[t].visit.WantTransport?
        && Target(s.threads[t].task) == Some(d) && d !in s.transport
    requires s'.threads == s.threads[t := th] && s'.mu == s.mu && s'.transport == s.transport[d := t]
    requires th.task == s.threads[t].task && th.visit.InTransport?
    ensures DeviceLocksOk(s')
  {
    hide Target;
  }

  lemma TransportGiven(s: State, s': State, t: Tid, d: Dev, th: Thread)
    requires DeviceLocksOk(s) && t in s.threads && s.threads[t].visit.InTransport?
        && Target(s.threads[t].task) == Some(d)
    requires s'.threads == s.threads[t := th] && s'.mu == s.mu && s'.transport == s.transport - {d}
    requires th.task == s.threads[t].task && th.visit.InMu?
    ensures DeviceLocksOk(s')
  {
    hide Target;
  }

  lemma LocksOnSnapshot(o: Options, s: State, t: Tid, step: SnapshotStep)
    requires DeviceLocksOk(s) && SnapshotEnabled(o, s, t, step)
    ensures DeviceLocksOk(SnapshotApply(o, s, t, step))
  {
    SnapshotShape(o, s, t, step);
    hide DeviceLocksOk, SnapshotEnabled, SnapshotApply;
    var s' := SnapshotApply(o, s, t, step);
    LocksKept(s, s', t, s'.threads[t]);
  }

  lemma LocksOnSweep(o: Options, s: State, t: Tid, step: SweepStep)
    requires DeviceLocksOk(s) && SweepEnabled(o, s, t, step)
    ensures DeviceLocksOk(SweepApply(o, s, t, step))
  {
    SweepShape(o, s, t, step);
    hide DeviceLocksOk, SweepApply;
    var s' := SweepApply(o, s, t, step);
    LocksKept(s, s', t, s'.threads[t]);
  }

  lemma LocksOnReader(o: Options, s: State, t: Tid, step: ReaderStep)
    requires DeviceLocksOk(s) && ReaderEnabled(o, s, t, step)
    ensures DeviceLocksOk(ReaderApply(o, s, t, step))
  {
    ReaderShape(o, s, t, step);
    hide DeviceLocksOk, ReaderApply;
    var s' := ReaderApply(o, s, t, step);
    LocksKept(s, s', t, s'.threads[t]);
  }

  lemma LocksOnDevice(s: State, t: Tid, step: CallStep)
    requires DeviceLocksOk(s) && CallEnabled(s, t, step)
    ensures DeviceLocksOk(CallApply(s, t, step))
  {
    hide DeviceLocksOk;
    var s', d := CallApply(s, t, step), TargetOf(s, t);
    match step
    case TakeMu => MuTaken(s, s', t, d, s'.threads[t]);
    case End(_) => MuGiven(s, s', t, d, s'.threads[t]);
    case TakeTransport => TransportTaken(s, s', t, d, s'.threads[t]);
    case LeaveTransport => TransportGiven(s, s', t, d, s'.threads[t]);
    case _ => LocksKept(s, s', t, s'.threads[t]);
  }

  lemma LocksArrive(s: State, t: Tid, task: Task)
    requires DeviceLocksOk(s) && t !in s.threads
    ensures DeviceLocksOk(SetTask(s, t, task))
  {
    hide DeviceLocksOk, Target;
    LocksKept(s, SetTask(s, t, task), t, Thread(task, Outside));
  }

  lemma LocksTick(s: State, dt: nat)
    requires DeviceLocksOk(s)
    ensures DeviceLocksOk(s.(now := s.now + dt))
  {
  }

  lemma LocksOnLaunch(o: Options, s: State, t: Tid, child: Tid)
    requires DeviceLocksOk(s) && Enabled(o, s, Launch(t, child))
    ensures DeviceLocksOk(Apply(o, s, Launch(t, child)))
  {
    LocksArrive(s, child, Sweeping(false));
    hide DeviceLocksOk;
    var s1, s2 := SetTask(s, child, Sweeping(false)), Apply(o, s, Launch(t, child));
    LocksKept(s1, s2, t, s2.threads[t]);
  }

  lemma LocksOnReaderSpawn(s: State, t: Tid, child: Tid)
    requires DeviceLocksOk(s) && t in s.threads && s.threads[t].visit == Outside && child !in s.threads
    requires s.threads[t].task.Spawning? && |s.rounds| > 0 && s.threads[t].task.next < |Last(s).devs|
    ensures DeviceLocksOk(SpawnApply(s, t, child))
  {
    var s2 := SpawnApply(s, t, child);
    var s1 := SetTask(s, child, s2.threads[child].task);
    LocksArrive(s, child, s2.threads[child].task);
    hide DeviceLocksOk;
    LocksKept(s1, s2, t, s2.threads[t]);
  }

  lemma DeviceLocksStep(o: Options, s: State, a: Action)
    requires DeviceLocksOk(s) && Enabled(o, s, a)
    ensures DeviceLocksOk(Apply(o, s, a))
  {
    hide DeviceLocksOk, SnapshotApply, SweepApply, ReaderApply, CallApply, SpawnApply;
    hide SnapshotEnabled, SweepEnabled, ReaderEnabled, CallEnabled;
    match a
    case Tick(dt) => LocksTick(s, dt);
    case CallSnapshot(t) => LocksArrive(s, t, WantSnapshot);
    case CallClose(t) => LocksArrive(s, t, WantClose);
    case Launch(t, child) => hide Apply; LocksOnLaunch(o, s, t, child);
    case SpawnReader(t, child) => LocksOnReaderSpawn(s, t, child);
    case OnSnapshot(t, step) => LocksOnSnapshot(o, s, t, step);
    case OnSweep(t, step) => LocksOnSweep(o, s, t, step);
    case OnReader(t, step) => LocksOnReader(o, s, t, step);
    case OnDevice(t, step) => LocksOnDevice(s, t, step);
  }

  // ---------------------------------------------------------------- the device set

  ghost predicate DevicesOk(o: Options, s: State) {
    HostKeyed(s.devices) && o.manual <= s.devices.Keys
  }

  lemma SnapshotKeepsDevices(o: Options, s: State, t: Tid, step: SnapshotStep)
    requires SnapshotEnabled(o, s, t, step)
    ensures SnapshotApply(o, s, t, step).devices == s.devices
  {
    hide Published, Lists;
  }

  lemma SweepOnDevices(o: Options, s: State, t: Tid, step: SweepStep)
    requires SweepEnabled(o, s, t, step)
    ensures var after := SweepApply(o, s, t, step).devices;
            after == if step.EndReconcile? then Reconciled(o, s.devices, s.threads[t].task.found) else s.devices
  {
    hide Reconciled, Touched, Closures, Plans, Lists;
  }

  lemma DevicesStep(o: Options, s: State, a: Action)
    requires DevicesOk(o, s) && Enabled(o, s, a)
    ensures DevicesOk(o, Apply(o, s, a))
  {
    hide Reconciled, HostKeyed, SnapshotApply, SweepApply, ReaderApply, CallApply, SnapshotEnabled, ReaderEnabled,
        CallEnabled;
    match a
    case OnSnapshot(t, step) => SnapshotKeepsDevices(o, s, t, step);
    case OnReader(t, step) => ReaderLeavesRecords(o, s, t, step);
    case OnDevice(t, step) => CallLeavesRecords(s, t, step);
    case OnSweep(t, step) =>
      SweepOnDevices(o, s, t, step);
      if step.EndReconcile? {
        ReconciledOk(o, s.devices, s.threads[t].task.found);
      }
    case _ =>
  }

  lemma ReconciledOk(o: Options, devices: map<string, Dev>, found: seq<Dev>)
    requires HostKeyed(devices) && o.manual <= devices.Keys
    ensures HostKeyed(Reconciled(o, devices, found)) && o.manual <= Reconciled(o, devices, found).Keys
  {
    var pairs := ByHost(found);
    MergeIs(devices, pairs, o.manual, o.keepMissing);
    forall h | h in Hosts(pairs) ensures FirstAt(pairs, h).host == h {
      FirstAtIsThere(pairs, h, (d: Dev) => d.host);
    }
  }
}
