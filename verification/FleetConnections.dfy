/**
 What becomes of a device the registry has dropped. readAll works on a copy of the device set, so
 a sweep can close and drop a device that a reader of the round in progress has yet to read, and
 that read connects it again: exactly then, and never otherwise.
 */
module FleetConnections {
  import opened Fleet
  import opened FleetHistory
  import opened FleetInvariants
  import opened FleetProtocol
  import opened FleetRounds
  import opened FleetTermination
  import opened FleetTheorems
  import opened Wrappers

  // ---------------------------------------------------------------- which devices there are

  /** The devices a sweep has found and not yet merged. */
  function FoundBy(task: Task): seq<Dev> {
    match task
    case WantReconcile(_, found) => found
    case Reconciling(_, found, _) => found
    case _ => []
  }

  function CallsOf(task: Task): seq<Call> {
    match task
    case Reconciling(_, _, todo) => todo
    case Closing(todo) => todo
    case _ => []
  }

  /** Whatever a thread is about to close is in the device set. */
  predicate ClosesHeld(task: Task, devices: map<string, Dev>) {
    forall i :: 0 <= i < |CallsOf(task)| && CallsOf(task)[i].CloseCall? ==> CallsOf(task)[i].dev in devices.Values
  }

  predicate FoundKnown(task: Task, known: set<Dev>) {
    forall i :: 0 <= i < |FoundBy(task)| ==> FoundBy(task)[i] in known
  }

  ghost predicate LedgerOk(s: State) {
    && s.devices.Values <= s.known
    && (forall t :: t in s.threads ==> FoundKnown(s.threads[t].task, s.known))
    && (forall t :: t in s.threads ==> ClosesHeld(s.threads[t].task, s.devices))
  }

  lemma LedgerFrame(s: State, s': State, t: Tid, th: Thread)
    requires LedgerOk(s) && s'.threads == s.threads[t := th] && s'.devices == s.devices && s.known <= s'.known
    requires FoundKnown(th.task, s'.known) && ClosesHeld(th.task, s.devices)
    ensures LedgerOk(s')
  {
    hide ClosesHeld;
  }

  lemma LedgerOf(s: State, t: Tid)
    requires LedgerOk(s) && t in s.threads
    ensures FoundKnown(s.threads[t].task, s.known) && ClosesHeld(s.threads[t].task, s.devices)
  {
  }

  lemma LedgerOnSnapshot(o: Options, s: State, t: Tid, step: SnapshotStep)
    requires LedgerOk(s) && SnapshotEnabled(o, s, t, step)
    ensures LedgerOk(SnapshotApply(o, s, t, step))
  {
    SnapshotShape(o, s, t, step);
    hide LedgerOk, Published, Lists;
    var s' := SnapshotApply(o, s, t, step);
    LedgerFrame(s, s', t, s'.threads[t]);
  }

  /** reconcile closes only what is in the set. */
  lemma PlannedClosesHeld(o: Options, devices: map<string, Dev>, found: seq<Dev>, todo: seq<Call>)
    ensures Plans(todo, Touched(o, devices, found)) || Plans(todo, Closures(devices)) ==>
      forall i :: 0 <= i < |todo| && todo[i].CloseCall? ==> todo[i].dev in devices.Values
  {
    forall i | Plans(todo, Touched(o, devices, found)) && 0 <= i < |todo| && todo[i].CloseCall?
      ensures todo[i].dev in devices.Values
    {
      assert todo[i] in Touched(o, devices, found);
    }
    forall i | Plans(todo, Closures(devices)) && 0 <= i < |todo| && todo[i].CloseCall?
      ensures todo[i].dev in devices.Values
    {
      assert todo[i] in Closures(devices);
    }
  }

  lemma LedgerOnLock(o: Options, s: State, t: Tid, todo: seq<Call>)
    requires LedgerOk(s) && SweepEnabled(o, s, t, LockDevices(todo))
    ensures LedgerOk(SweepApply(o, s, t, LockDevices(todo)))
  {
    LedgerOf(s, t);
    PlannedClosesHeld(o, s.devices, FoundBy(s.threads[t].task), todo);
    hide LedgerOk, Reconciled, Touched, Closures, Plans;
    var s' := SweepApply(o, s, t, LockDevices(todo));
    LedgerFrame(s, s', t, s'.threads[t]);
  }

  lemma ReconciledKnown(o: Options, devices: map<string, Dev>, found: seq<Dev>)
    ensures forall d :: d in Reconciled(o, devices, found).Values ==> d in devices.Values || d in found
  {
    var pairs := ByHost(found);
    AddAllIs(devices, pairs);
    forall h | h in AddAll(devices, pairs) && h !in devices ensures AddAll(devices, pairs)[h] in found {
      FirstIsOne(pairs, h);
      var i :| 0 <= i < |pairs| && pairs[i].1 == FirstAt(pairs, h);
      assert pairs[i].1 == found[i];
    }
    var merged := Reconciled(o, devices, found);
    forall h | h in merged ensures merged[h] in devices.Values || merged[h] in found {
      assert merged[h] == AddAll(devices, pairs)[h];
    }
  }

  lemma {:induction false} FirstIsOne<D>(found: seq<(string, D)>, host: string)
    requires host in Hosts(found)
    ensures exists i :: 0 <= i < |found| && found[i].1 == FirstAt(found, host)
    decreases |found|
  {
    if found[0].0 == host {
      assert found[0].1 == FirstAt(found, host);
    } else {
      HostsTail(found);
      FirstIsOne(found[1..], host);
      var i :| 0 <= i < |found[1..]| && found[1..][i].1 == FirstAt(found[1..], host);
      assert found[i + 1].1 == FirstAt(found, host);
    }
  }

  /** While one thread merges, nobody else is about to close anything: both would hold devicesMtx. */
  lemma LedgerOnMerge(o: Options, s: State, t: Tid)
    requires LedgerOk(s) && MutexesOk(s) && SweepEnabled(o, s, t, EndReconcile)
    ensures LedgerOk(SweepApply(o, s, t, EndReconcile))
  {
    var s' := SweepApply(o, s, t, EndReconcile);
    var found := s.threads[t].task.found;
    LedgerOf(s, t);
    MutexesOf(s, t);
    ReconciledKnown(o, s.devices, found);
    assert s'.devices.Values <= s'.known by {
      assert FoundBy(s.threads[t].task) == found;
    }
    forall u | u in s'.threads
      ensures FoundKnown(s'.threads[u].task, s'.known) && ClosesHeld(s'.threads[u].task, s'.devices)
    {
      if u != t {
        LedgerOf(s, u);
        MutexesOf(s, u);
        assert CallsOf(s.threads[u].task) == [];
      }
    }
  }

  lemma LedgerOnSweep(o: Options, s: State, t: Tid, step: SweepStep)
    requires LedgerOk(s) && MutexesOk(s) && SweepEnabled(o, s, t, step)
    ensures LedgerOk(SweepApply(o, s, t, step))
  {
    match step
    case LockDevices(todo) => LedgerOnLock(o, s, t, todo);
    case EndReconcile => LedgerOnMerge(o, s, t);
    case Decide => LedgerOnOther(o, s, t, step);
    case Fail => LedgerOnOther(o, s, t, step);
    case Find(_) => LedgerOnOther(o, s, t, step);
    case FinishSweep => LedgerOnOther(o, s, t, step);
    case EndClose => LedgerOnOther(o, s, t, step);
  }

  lemma LedgerOnOther(o: Options, s: State, t: Tid, step: SweepStep)
    requires LedgerOk(s) && SweepEnabled(o, s, t, step) && !step.LockDevices? && !step.EndReconcile?
    ensures LedgerOk(SweepApply(o, s, t, step))
  {
    hide LedgerOk, Reconciled, Touched, Closures, Plans;
    var s' := SweepApply(o, s, t, step);
    assert FoundKnown(s'.threads[t].task, s'.known);
    assert ClosesHeld(s'.threads[t].task, s.devices);
    LedgerFrame(s, s', t, s'.threads[t]);
  }

  lemma LedgerOnReader(o: Options, s: State, t: Tid, step: ReaderStep)
    requires LedgerOk(s) && ReaderEnabled(o, s, t, step)
    ensures LedgerOk(ReaderApply(o, s, t, step))
  {
    hide LedgerOk;
    var s' := ReaderApply(o, s, t, step);
    LedgerFrame(s, s', t, s'.threads[t]);
  }

  lemma CallsShrink(task: Task, got: Option<nat>, devices: map<string, Dev>)
    requires ClosesHeld(task, devices)
    ensures ClosesHeld(AfterCall(task, got), devices)
  {
    var calls, rest := CallsOf(task), CallsOf(AfterCall(task, got));
    assert forall i :: 0 <= i < |rest| ==> rest[i] == calls[i + |calls| - |rest|];
  }

  lemma LedgerOnDevice(s: State, t: Tid, step: CallStep)
    requires LedgerOk(s) && CallEnabled(s, t, step)
    ensures LedgerOk(CallApply(s, t, step))
  {
    LedgerOf(s, t);
    var task := s.threads[t].task;
    if step.End? {
      CallsShrink(task, step.got, s.devices);
    }
    hide LedgerOk, ClosesHeld;
    var s' := CallApply(s, t, step);
    assert FoundBy(s'.threads[t].task) == FoundBy(task);
    LedgerFrame(s, s', t, s'.threads[t]);
  }

  lemma LedgerStep(o: Options, s: State, a: Action)
    requires LedgerOk(s) && MutexesOk(s) && Enabled(o, s, a)
    ensures LedgerOk(Apply(o, s, a))
  {
    hide MutexesOk, SnapshotApply, SweepApply, ReaderApply, CallApply;
    hide SnapshotEnabled, SweepEnabled, ReaderEnabled, CallEnabled;
    match a
    case OnSnapshot(t, step) => LedgerOnSnapshot(o, s, t, step);
    case OnSweep(t, step) => LedgerOnSweep(o, s, t, step);
    case OnReader(t, step) => LedgerOnReader(o, s, t, step);
    case OnDevice(t, step) => LedgerOnDevice(s, t, step);
    case _ =>
  }

  lemma {:induction false} LedgerOverRuns(o: Options, s: State, run: seq<Action>)
    requires Inv(o, s) && LedgerOk(s) && Legal(o, s, run)
    ensures LedgerOk(After(o, s, run))
    decreases |run|
  {
    if run != [] {
      LedgerStep(o, s, run[0]);
      InvStep(o, s, run[0]);
      hide Inv, LedgerOk, Enabled, Apply;
      LedgerOverRuns(o, Apply(o, s, run[0]), run[1..]);
    }
  }

  lemma LedgerReachable(o: Options, s: State)
    requires Reachable(o, s)
    ensures LedgerOk(s)
  {
    var s0, run :| Initial(o, s0) && Legal(o, s0, run) && After(o, s0, run) == s;
    InvInitially(o, s0);
    assert LedgerOk(s0);
    hide Inv, LedgerOk, Enabled, Apply;
    LedgerOverRuns(o, s0, run);
  }

  // ---------------------------------------------------------------- dropped for good

  /** A device that was in the set once, is not now, and is on no sweep's list: it can never come back. */
  ghost predicate Gone(s: State, d: Dev) {
    && d in s.known && d !in s.devices.Values
    && forall t :: t in s.threads ==> d !in FoundBy(s.threads[t].task)
  }

  lemma GoneFrame(s: State, s': State, t: Tid, th: Thread, d: Dev)
    requires Gone(s, d) && s'.threads == s.threads[t := th] && s.known <= s'.known
    requires d !in s'.devices.Values && d !in FoundBy(th.task)
    ensures Gone(s', d)
  {
  }

  lemma GoneOnSweep(o: Options, s: State, t: Tid, step: SweepStep, d: Dev)
    requires Gone(s, d) && SweepEnabled(o, s, t, step)
    ensures Gone(SweepApply(o, s, t, step), d)
  {
    if step.EndReconcile? {
      ReconciledKnown(o, s.devices, s.threads[t].task.found);
      assert FoundBy(s.threads[t].task) == s.threads[t].task.found;
    }
    assert d !in FoundBy(s.threads[t].task);
    SweepOnDevices(o, s, t, step);
    hide Gone, Reconciled, Touched, Closures, Plans;
    var s' := SweepApply(o, s, t, step);
    GoneFrame(s, s', t, s'.threads[t], d);
  }

  lemma GoneOnSnapshot(o: Options, s: State, t: Tid, step: SnapshotStep, d: Dev)
    requires Gone(s, d) && SnapshotEnabled(o, s, t, step)
    ensures Gone(SnapshotApply(o, s, t, step), d)
  {
    assert d !in s.devices.Values && d in s.known;
    hide Gone, Published, Lists;
    var s' := SnapshotApply(o, s, t, step);
    GoneFrame(s, s', t, s'.threads[t], d);
  }

  lemma GoneOnReader(o: Options, s: State, t: Tid, step: ReaderStep, d: Dev)
    requires Gone(s, d) && ReaderEnabled(o, s, t, step)
    ensures Gone(ReaderApply(o, s, t, step), d)
  {
    assert d !in s.devices.Values;
    hide Gone;
    var s' := ReaderApply(o, s, t, step);
    GoneFrame(s, s', t, s'.threads[t], d);
  }

  lemma GoneOnDevice(s: State, t: Tid, step: CallStep, d: Dev)
    requires Gone(s, d) && CallEnabled(s, t, step)
    ensures Gone(CallApply(s, t, step), d)
  {
    assert d !in s.devices.Values && d !in FoundBy(s.threads[t].task);
    hide Gone;
    var s' := CallApply(s, t, step);
    GoneFrame(s, s', t, s'.threads[t], d);
  }

  /** Nothing brings a dropped device back into the set. */
  lemma GoneStep(o: Options, s: State, a: Action, d: Dev)
    requires Gone(s, d) && Enabled(o, s, a)
    ensures Gone(Apply(o, s, a), d)
  {
    hide SnapshotApply, SweepApply, ReaderApply, CallApply;
    hide SnapshotEnabled, SweepEnabled, ReaderEnabled, CallEnabled;
    match a
    case OnSnapshot(t, step) => GoneOnSnapshot(o, s, t, step, d);
    case OnSweep(t, step) => GoneOnSweep(o, s, t, step, d);
    case OnReader(t, step) => GoneOnReader(o, s, t, step, d);
    case OnDevice(t, step) => GoneOnDevice(s, t, step, d);
    case _ =>
  }

  // ---------------------------------------------------------------- readers that still mean to read it

  /** The thread has a read of the device ahead of it, or readers still to spawn for one. */
  predicate TargetedBy(s: State, t: Tid, d: Dev) {
    && t in s.threads
    && match s.threads[t].task
       case Reader(_, _, dev, stage, _) => dev == d && (stage == WantSlot || stage == Reading)
       case Spawning(next) => |s.rounds| > 0 && exists i :: next <= i < |Last(s).devs| && Last(s).devs[i] == d
       case _ => false
  }

  ghost predicate Targeted(s: State, d: Dev) {
    exists t :: TargetedBy(s, t, d)
  }

  /** Only a read that is still to come changes what a dropped device is connected to. */
  ghost predicate Settled(s: State, d: Dev) {
    d !in s.connected && !Targeted(s, d)
  }

  lemma UntargetedFrame(s: State, s': State, t: Tid, d: Dev)
    requires !Targeted(s, d) && t in s'.threads && s'.threads == s.threads[t := s'.threads[t]]
    requires !TargetedBy(s', t, d)
    requires |s'.rounds| == 0 || (|s.rounds| > 0 && Last(s').devs == Last(s).devs) || d !in Last(s').devs
    ensures !Targeted(s', d)
  {
    forall u | TargetedBy(s', u, d) ensures false {
      if u != t {
        assert TargetedBy(s, u, d);
      }
    }
  }

  lemma NotListed(devs: seq<Dev>, devices: map<string, Dev>, d: Dev)
    requires Lists(devs, devices) && d !in devices.Values
    ensures d !in devs
  {
  }

  lemma UntargetedOnSnapshot(o: Options, s: State, t: Tid, step: SnapshotStep, d: Dev)
    requires !Targeted(s, d) && Gone(s, d) && SnapshotEnabled(o, s, t, step)
    ensures !Targeted(SnapshotApply(o, s, t, step), d)
  {
    assert !TargetedBy(s, t, d);
    if step.CopyDevices? {
      NotListed(step.devs, s.devices, d);
    }
    SnapshotShape(o, s, t, step);
    SnapshotMoves(o, s, t, step);
    hide Gone, Targeted, Published, Lists, CacheFresh;
    var s' := SnapshotApply(o, s, t, step);
    UntargetedFrame(s, s', t, d);
  }

  lemma UntargetedOnSweep(o: Options, s: State, t: Tid, step: SweepStep, d: Dev)
    requires !Targeted(s, d) && SweepEnabled(o, s, t, step)
    ensures !Targeted(SweepApply(o, s, t, step), d)
  {
    SweepShape(o, s, t, step);
    hide Targeted, SweepApply;
    UntargetedFrame(s, SweepApply(o, s, t, step), t, d);
  }

  lemma UntargetedOnReader(o: Options, s: State, t: Tid, step: ReaderStep, d: Dev)
    requires !Targeted(s, d) && ReaderEnabled(o, s, t, step)
    ensures !Targeted(ReaderApply(o, s, t, step), d)
  {
    ReaderWrites(o, s, t, step);
    assert !TargetedBy(s, t, d);
    hide Targeted;
    UntargetedFrame(s, ReaderApply(o, s, t, step), t, d);
  }

  lemma UntargetedOnDevice(s: State, t: Tid, step: CallStep, d: Dev)
    requires !Targeted(s, d) && CallEnabled(s, t, step)
    ensures !Targeted(CallApply(s, t, step), d)
  {
    assert !TargetedBy(s, t, d);
    hide Targeted;
    UntargetedFrame(s, CallApply(s, t, step), t, d);
  }

  lemma UntargetedOnSpawn(o: Options, s: State, t: Tid, child: Tid, d: Dev)
    requires !Targeted(s, d) && Enabled(o, s, SpawnReader(t, child))
    ensures !Targeted(SpawnApply(s, t, child), d)
  {
    assert !TargetedBy(s, t, d);
    var s' := SpawnApply(s, t, child);
    forall u | TargetedBy(s', u, d) ensures false {
      if u != t && u != child {
        assert TargetedBy(s, u, d);
      }
    }
  }

  lemma UntargetedOtherwise(o: Options, s: State, a: Action, d: Dev)
    requires !Targeted(s, d) && Enabled(o, s, a) && (Environment(a) || a.Launch?)
    ensures !Targeted(Apply(o, s, a), d)
  {
    var s' := Apply(o, s, a);
    assert s'.rounds == s.rounds;
    forall u | TargetedBy(s', u, d) ensures TargetedBy(s, u, d) {
      assert |s.rounds| > 0 ==> Last(s').devs == Last(s).devs;
    }
  }

  /** Once no reader is left to read a dropped device, none ever will be. */
  lemma UntargetedStep(o: Options, s: State, a: Action, d: Dev)
    requires !Targeted(s, d) && Gone(s, d) && Enabled(o, s, a)
    ensures !Targeted(Apply(o, s, a), d)
  {
    hide Targeted, Gone, SnapshotApply, SweepApply, ReaderApply, CallApply, SpawnApply;
    hide SnapshotEnabled, SweepEnabled, ReaderEnabled, CallEnabled;
    match a
    case OnSnapshot(t, step) => UntargetedOnSnapshot(o, s, t, step, d);
    case OnSweep(t, step) => UntargetedOnSweep(o, s, t, step, d);
    case OnReader(t, step) => UntargetedOnReader(o, s, t, step, d);
    case OnDevice(t, step) => UntargetedOnDevice(s, t, step, d);
    case SpawnReader(t, child) => UntargetedOnSpawn(o, s, t, child, d);
    case _ => UntargetedOtherwise(o, s, a, d);
  }

  // ---------------------------------------------------------------- what a dropped device is left with

  lemma SweepConnectsNothing(o: Options, s: State, t: Tid, step: SweepStep)
    requires SweepEnabled(o, s, t, step)
    ensures SweepApply(o, s, t, step).connected == s.connected
  {
    hide Reconciled, Touched, Closures, Plans, Lists;
  }

  /** Only a call on a device connects or closes anything. */
  lemma OnlyCallsConnect(o: Options, s: State, a: Action)
    requires Enabled(o, s, a) && !a.OnDevice?
    ensures Apply(o, s, a).connected == s.connected
  {
    hide SweepApply, SweepEnabled, SnapshotApply, SnapshotEnabled;
    if a.OnSweep? {
      SweepConnectsNothing(o, s, a.t, a.sweep);
    } else if a.OnSnapshot? {
      SnapshotShape(o, s, a.t, a.snap);
    }
  }

  /** What an action leaves of a device's connection: a read that returned decides, and so does a close. */
  ghost function Leaves(s: State, a: Action, d: Dev): Option<bool> {
    if !a.OnDevice? || !a.call.End? || a.t !in s.threads then None
    else
      match s.threads[a.t].task
      case Reader(_, _, dev, stage, _) => if stage == Reading && dev == d then Some(a.call.got != None) else None
      case Reconciling(_, _, todo) => if todo != [] && todo[0] == CloseCall(d) then Some(false) else None
      case Closing(todo) => if todo != [] && todo[0] == CloseCall(d) then Some(false) else None
      case _ => None
  }

  /** Whether the last call of a run that decided a device's connection left one. */
  ghost function LastLeft(o: Options, s: State, run: seq<Action>, d: Dev, before: bool): bool
    requires Legal(o, s, run)
    decreases |run|
  {
    if run == [] then before
    else LastLeft(o, Apply(o, s, run[0]), run[1..], d, Leaves(s, run[0], d).GetOr(before))
  }

  lemma LeavesStep(o: Options, s: State, a: Action, d: Dev)
    requires Enabled(o, s, a)
    ensures d in Apply(o, s, a).connected <==> Leaves(s, a, d).GetOr(d in s.connected)
  {
    if a.OnDevice? {
      CallLeaves(s, a, d);
      hide CallApply, CallEnabled, Leaves;
    } else {
      OnlyCallsConnect(o, s, a);
      hide Apply;
    }
  }

  lemma CallLeaves(s: State, a: Action, d: Dev)
    requires a.OnDevice? && CallEnabled(s, a.t, a.call)
    ensures d in CallApply(s, a.t, a.call).connected <==> Leaves(s, a, d).GetOr(d in s.connected)
  {
    var s' := CallApply(s, a.t, a.call);
    assert s'.connected
        == if a.call.End? then ConnectedAfter(s.connected, s.threads[a.t].task, a.call.got) else s.connected;
    hide CallApply, CallEnabled, TargetOf, Target, MayQuery;
    assert a.t in s.threads;
  }

  lemma {:induction false} ConnectedOverRun(o: Options, s: State, run: seq<Action>, d: Dev)
    requires Legal(o, s, run)
    ensures d in After(o, s, run).connected <==> LastLeft(o, s, run, d, d in s.connected)
    decreases |run|
  {
    hide Leaves, Enabled, Apply;
    if run != [] {
      LeavesStep(o, s, run[0], d);
      ConnectedOverRun(o, Apply(o, s, run[0]), run[1..], d);
    }
  }

  /**
   Over every run a device holds a connection exactly when the last read or close of it that
   returned was a read, and one that succeeded.
   */
  lemma ConnectedIffLastReadSucceeded(o: Options, s0: State, run: seq<Action>, d: Dev)
    requires Initial(o, s0) && Legal(o, s0, run)
    ensures d in After(o, s0, run).connected <==> LastLeft(o, s0, run, d, false)
  {
    ConnectedOverRun(o, s0, run, d);
    hide Legal, After, LastLeft;
  }

  /** A call that is no read of the device does not connect it, and none closes what is not in the set. */
  lemma CallLeavesAlone(task: Task, got: Option<nat>, devices: map<string, Dev>, connected: set<Dev>, d: Dev)
    requires !(task.Reader? && task.stage == Reading && task.dev == d)
    ensures d !in connected ==> d !in ConnectedAfter(connected, task, got)
    ensures ClosesHeld(task, devices) && d !in devices.Values && d in connected ==>
      d in ConnectedAfter(connected, task, got)
  {
    if ClosesHeld(task, devices) {
      assert CallsOf(task) != [] && CallsOf(task)[0].CloseCall? ==> CallsOf(task)[0].dev in devices.Values;
    }
  }

  lemma LeftAloneOnDevice(s: State, t: Tid, step: CallStep, d: Dev)
    requires !Targeted(s, d) && CallEnabled(s, t, step)
    ensures d !in s.connected ==> d !in CallApply(s, t, step).connected
    ensures LedgerOk(s) && Gone(s, d) && d in s.connected ==> d in CallApply(s, t, step).connected
  {
    assert !TargetedBy(s, t, d);
    if LedgerOk(s) {
      LedgerOf(s, t);
    }
    hide LedgerOk, ClosesHeld, Targeted;
    if step.End? {
      CallLeavesAlone(s.threads[t].task, step.got, s.devices, s.connected, d);
    }
  }

  lemma LeftAloneOnStep(o: Options, s: State, a: Action, d: Dev)
    requires !Targeted(s, d) && Enabled(o, s, a)
    ensures d !in s.connected ==> d !in Apply(o, s, a).connected
    ensures LedgerOk(s) && Gone(s, d) && d in s.connected ==> d in Apply(o, s, a).connected
  {
    hide LedgerOk, Gone, Targeted, CallApply, CallEnabled;
    if a.OnDevice? {
      LeftAloneOnDevice(s, a.t, a.call, d);
    } else {
      OnlyCallsConnect(o, s, a);
    }
  }

  /** A dropped device nobody means to read stays without a connection on every run. */
  lemma {:induction false} SettledForGood(o: Options, s: State, run: seq<Action>, d: Dev)
    requires Settled(s, d) && Gone(s, d) && Legal(o, s, run)
    ensures Settled(After(o, s, run), d)
    decreases |run|
  {
    if run != [] {
      UntargetedStep(o, s, run[0], d);
      LeftAloneOnStep(o, s, run[0], d);
      GoneStep(o, s, run[0], d);
      hide Targeted, Gone, Enabled, Apply;
      SettledForGood(o, Apply(o, s, run[0]), run[1..], d);
    }
  }

  /** And one that a late reader has connected keeps the connection for good: nothing ever closes it. */
  lemma {:induction false} LateConnectionLeaks(o: Options, s: State, run: seq<Action>, d: Dev)
    requires Reachable(o, s) && Gone(s, d) && d in s.connected && !Targeted(s, d) && Legal(o, s, run)
    ensures d in After(o, s, run).connected
  {
    InvReachable(o, s);
    LedgerReachable(o, s);
    hide Inv, LedgerOk, Gone, Targeted, Reachable, Enabled, Apply;
    LeaksFrom(o, s, run, d);
  }

  lemma {:induction false} LeaksFrom(o: Options, s: State, run: seq<Action>, d: Dev)
    requires Inv(o, s) && LedgerOk(s) && Gone(s, d) && d in s.connected && !Targeted(s, d) && Legal(o, s, run)
    ensures d in After(o, s, run).connected
    decreases |run|
  {
    if run != [] {
      UntargetedStep(o, s, run[0], d);
      LeftAloneOnStep(o, s, run[0], d);
      GoneStep(o, s, run[0], d);
      InvStep(o, s, run[0]);
      LedgerStep(o, s, run[0]);
      hide Inv, LedgerOk, Gone, Targeted, Enabled, Apply;
      LeaksFrom(o, Apply(o, s, run[0]), run[1..], d);
    }
  }

  // ---------------------------------------------------------------- the read that reconnects it

  /** The same step, a read in it succeeding. */
  function Hoping(a: Action): (b: Action)
    ensures Hopeful(b) && (Environment(b) <==> Environment(a))
  {
    if a.OnDevice? && a.call.End? then OnDevice(a.t, End(Some(0))) else a
  }

  lemma HopingIsEnabled(o: Options, s: State, a: Action)
    requires Enabled(o, s, a)
    ensures Enabled(o, s, Hoping(a))
  {
  }

  /** A schedule on which every read succeeds. */
  ghost function HopefulStep(o: Options, s: State): (a: Action)
    ensures Inv(o, s) && Busy(s) ==> !Environment(a) && Enabled(o, s, a)
    ensures Hopeful(a)
  {
    if Inv(o, s) && Busy(s) then
      HopingIsEnabled(o, s, NextStep(o, s));
      Hoping(NextStep(o, s))
    else Tick(0)
  }

  predicate Hopeful(a: Action) {
    a.OnDevice? && a.call.End? ==> a.call.got.Some?
  }

  ghost function HopefulSchedule(o: Options): (pick: (seq<Action>, State) -> Action)
    ensures Schedules(o, pick) && forall past, s :: Hopeful(pick(past, s))
  {
    (past: seq<Action>, s: State) => HopefulStep(o, s)
  }

  /** The device is connected, or a read that will connect it is still to come. */
  ghost predicate Pending(s: State, d: Dev) {
    d in s.connected || Targeted(s, d)
  }

  lemma PendingBy(s: State, s': State, t: Tid, u: Tid, d: Dev)
    requires TargetedBy(s, u, d) && u != t && t in s'.threads && s'.threads == s.threads[t := s'.threads[t]]
    requires s.threads[u].task.Spawning? ==> |s.rounds| > 0 && |s'.rounds| > 0 && Last(s').devs == Last(s).devs
    ensures Targeted(s', d)
  {
    assert TargetedBy(s', u, d);
  }

  lemma OpenMeansLocked(s: State)
    requires OwnersOk(s) && MutexesOk(s) && Open(s)
    ensures Last(s).owner in s.threads && InRound(s.threads[Last(s).owner].task) && s.snapshotMtx == Some(Last(s).owner)
  {
    OwnersOf(s, Last(s).owner);
    MutexesOf(s, Last(s).owner);
  }

  lemma TargetMeansOpen(s: State, u: Tid, d: Dev)
    requires OwnersOk(s) && ReadersOk(s) && TargetedBy(s, u, d)
    ensures Open(s) && if s.threads[u].task.Reader? then Last(s).live != map[] else Last(s).owner == u
  {
    OwnersOf(s, u);
    if s.threads[u].task.Reader? {
      ReadersOf(s, u);
    }
  }

  lemma NoneLiveWhileCopying(o: Options, s: State)
    requires RoundsOk(o, s) && Open(s) && Last(s).owner in s.threads && s.threads[Last(s).owner].task.Copying?
    ensures Last(s).live == map[]
  {
    RoundsOf(o, s);
    assert forall i :: i !in Last(s).live;
  }

  /** While a read of the device is still to come, the one step of Snapshot there can be is the end of spawning. */
  lemma OnlySpawningEnds(o: Options, s: State, t: Tid, step: SnapshotStep, u: Tid, d: Dev)
    requires Inv(o, s) && TargetedBy(s, u, d) && SnapshotEnabled(o, s, t, step)
    ensures step.AllSpawned? && u != t
  {
    TargetMeansOpen(s, u, d);
    OpenMeansLocked(s);
    MutexesOf(s, t);
    OwnersOf(s, t);
    if s.threads[Last(s).owner].task.Copying? {
      NoneLiveWhileCopying(o, s);
    }
    hide Inv, Lists;
  }

  lemma PendingOnSnapshot(o: Options, s: State, t: Tid, step: SnapshotStep, d: Dev)
    requires Inv(o, s) && Pending(s, d) && SnapshotEnabled(o, s, t, step)
    ensures Pending(SnapshotApply(o, s, t, step), d)
  {
    var s' := SnapshotApply(o, s, t, step);
    hide Inv, Published, Lists;
    assert s'.connected == s.connected;
    if d !in s.connected {
      var u :| TargetedBy(s, u, d);
      OnlySpawningEnds(o, s, t, step, u, d);
      PendingBy(s, s', t, u, d);
    }
  }

  lemma PendingOnSweep(o: Options, s: State, t: Tid, step: SweepStep, d: Dev)
    requires Pending(s, d) && SweepEnabled(o, s, t, step)
    ensures Pending(SweepApply(o, s, t, step), d)
  {
    SweepShape(o, s, t, step);
    SweepConnectsNothing(o, s, t, step);
    hide SweepApply;
    var s' := SweepApply(o, s, t, step);
    if d !in s.connected {
      var u :| TargetedBy(s, u, d);
      PendingBy(s, s', t, u, d);
    }
  }

  lemma PendingOnReader(o: Options, s: State, t: Tid, step: ReaderStep, d: Dev)
    requires Pending(s, d) && ReaderEnabled(o, s, t, step)
    ensures Pending(ReaderApply(o, s, t, step), d)
  {
    var s' := ReaderApply(o, s, t, step);
    assert s'.connected == s.connected;
    if d !in s.connected {
      var u :| TargetedBy(s, u, d);
      if u == t {
        assert TargetedBy(s', t, d);
      } else {
        PendingBy(s, s', t, u, d);
      }
    }
  }

  /** A hopeful call connects what it reads, and closes nothing that is gone. */
  lemma PendingOnDevice(s: State, t: Tid, step: CallStep, d: Dev)
    requires LedgerOk(s) && Gone(s, d) && Pending(s, d) && CallEnabled(s, t, step) && Hopeful(OnDevice(t, step))
    ensures Pending(CallApply(s, t, step), d)
  {
    LedgerOf(s, t);
    assert d !in s.devices.Values;
    if step.End? && d in s.connected {
      StaysConnected(s.threads[t].task, step.got, s.devices, s.connected, d);
    }
    hide LedgerOk, Gone, ClosesHeld, ConnectedAfter;
    var s' := CallApply(s, t, step);
    if d !in s.connected {
      var u :| TargetedBy(s, u, d);
      if u != t {
        PendingBy(s, s', t, u, d);
      } else if step.End? {
        ReadConnects(s.threads[t].task, step.got, s.connected, d);
      } else {
        assert TargetedBy(s', t, d);
      }
    }
  }

  lemma StaysConnected(task: Task, got: Option<nat>, devices: map<string, Dev>, connected: set<Dev>, d: Dev)
    requires ClosesHeld(task, devices) && d !in devices.Values && d in connected
    requires task.Reader? && task.stage == Reading ==> got.Some?
    ensures d in ConnectedAfter(connected, task, got)
  {
    assert CallsOf(task) != [] && CallsOf(task)[0].CloseCall? ==> CallsOf(task)[0].dev in devices.Values;
  }

  lemma ReadConnects(task: Task, got: Option<nat>, connected: set<Dev>, d: Dev)
    requires task.Reader? && task.dev == d && task.stage == Reading && got.Some?
    ensures d in ConnectedAfter(connected, task, got)
  {
  }

  lemma PendingOnSpawn(o: Options, s: State, t: Tid, child: Tid, d: Dev)
    requires Pending(s, d) && Enabled(o, s, SpawnReader(t, child))
    ensures Pending(SpawnApply(s, t, child), d)
  {
    var s' := SpawnApply(s, t, child);
    if d !in s.connected {
      var u :| TargetedBy(s, u, d);
      var next := s.threads[t].task.next;
      if u == t {
        var i :| next <= i < |Last(s).devs| && Last(s).devs[i] == d;
        if i == next {
          assert TargetedBy(s', child, d);
        } else {
          assert Last(s').devs[i] == d;
          assert TargetedBy(s', t, d);
        }
      } else {
        assert Last(s').devs == Last(s).devs;
        assert TargetedBy(s', u, d);
      }
    }
  }

  lemma PendingOtherwise(o: Options, s: State, a: Action, d: Dev)
    requires Pending(s, d) && Enabled(o, s, a) && (Environment(a) || a.Launch?)
    ensures Pending(Apply(o, s, a), d)
  {
    var s' := Apply(o, s, a);
    assert s'.rounds == s.rounds && s'.connected == s.connected;
    if d !in s.connected {
      var u :| TargetedBy(s, u, d);
      assert |s.rounds| > 0 ==> Last(s').devs == Last(s).devs;
      assert TargetedBy(s', u, d);
    }
  }

  lemma PendingStep(o: Options, s: State, a: Action, d: Dev)
    requires Inv(o, s) && LedgerOk(s) && Gone(s, d) && Pending(s, d) && Enabled(o, s, a) && Hopeful(a)
    ensures Pending(Apply(o, s, a), d)
  {
    hide Inv, LedgerOk, Gone, Pending, SnapshotApply, SweepApply, ReaderApply, CallApply, SpawnApply;
    hide SnapshotEnabled, SweepEnabled, ReaderEnabled, CallEnabled;
    match a
    case OnSnapshot(t, step) => PendingOnSnapshot(o, s, t, step, d);
    case OnSweep(t, step) => PendingOnSweep(o, s, t, step, d);
    case OnReader(t, step) => PendingOnReader(o, s, t, step, d);
    case OnDevice(t, step) => PendingOnDevice(s, t, step, d);
    case SpawnReader(t, child) => PendingOnSpawn(o, s, t, child, d);
    case _ => PendingOtherwise(o, s, a, d);
  }

  ghost predicate AllHopeful(run: seq<Action>) {
    forall i :: 0 <= i < |run| ==> Hopeful(run[i])
  }

  lemma {:induction false} PendingOverRun(o: Options, s: State, run: seq<Action>, d: Dev)
    requires Inv(o, s) && LedgerOk(s) && Gone(s, d) && Pending(s, d) && Legal(o, s, run) && AllHopeful(run)
    ensures Pending(After(o, s, run), d)
    decreases |run|
  {
    if run != [] {
      PendingStep(o, s, run[0], d);
      GoneStep(o, s, run[0], d);
      InvStep(o, s, run[0]);
      LedgerStep(o, s, run[0]);
      assert AllHopeful(run[1..]);
      hide Inv, LedgerOk, Gone, Pending, Enabled, Apply, Hopeful;
      PendingOverRun(o, Apply(o, s, run[0]), run[1..], d);
    }
  }

  lemma {:induction false} FollowsHopefully(
    o: Options, s: State, past: seq<Action>, run: seq<Action>, wait: seq<Action> -> nat,
        pick: (seq<Action>, State) -> Action)
    requires Legal(o, s, run) && Follows(o, s, past, run, wait, pick) && forall past, s :: Hopeful(pick(past, s))
    ensures AllHopeful(run)
    decreases |run|
  {
    if run != [] {
      var later := Apply(o, s, run[0]);
      assert Legal(o, later, run[1..]);
      var next := Apply(o, later, run[1..][0]);
      FollowsHopefully(o, next, past + [run[0], run[1..][0]], run[1..][1..], wait, pick);
      assert run == [run[0], run[1..][0]] + run[1..][1..];
    }
  }

  lemma NothingPendingAtRest(s: State, d: Dev)
    requires !Busy(s) && Pending(s, d)
    ensures d in s.connected
  {
  }

  /** A read that is still to come, and succeeds, leaves the device connected when everything has ended. */
  lemma StillReadReconnects(o: Options, s: State, d: Dev) returns (run: seq<Action>)
    requires Inv(o, s) && LedgerOk(s) && Gone(s, d) && Pending(s, d)
    ensures Legal(o, s, run) && d in After(o, s, run).connected
  {
    hide Inv, LedgerOk, Gone, Pending, Enabled, Apply, Busy, Schedules, Follows, AllHopeful;
    var wait := (past: seq<Action>) => 0;
    var pick := HopefulSchedule(o);
    run := FinishesFrom(o, s, [], wait, pick);
    FollowsHopefully(o, s, [], run, wait, pick);
    PendingOverRun(o, s, run, d);
    NothingPendingAtRest(After(o, s, run), d);
  }

  /**
   A device the registry has dropped, and that holds no connection, can hold one again exactly
   when a reader of the round in progress has yet to read it.
   */
  lemma DroppedReconnectsIffStillRead(o: Options, s: State, d: Dev)
    requires Reachable(o, s) && Gone(s, d) && d !in s.connected
    ensures (exists run :: Legal(o, s, run) && d in After(o, s, run).connected) <==> Targeted(s, d)
  {
    InvReachable(o, s);
    LedgerReachable(o, s);
    hide Inv, LedgerOk, Gone, Targeted, Reachable, Enabled, Apply;
    if Targeted(s, d) {
      var run := StillReadReconnects(o, s, d);
    } else {
      forall run | Legal(o, s, run) ensures d !in After(o, s, run).connected {
        SettledForGood(o, s, run, d);
      }
    }
  }

  /** Whatever a sweep drops is gone for good: no later sweep finds the same device object again. */
  lemma DroppedIsGone(o: Options, s: State, t: Tid, d: Dev)
    requires Reachable(o, s) && Enabled(o, s, OnSweep(t, EndReconcile))
    requires d in s.devices.Values && d !in Reconciled(o, s.devices, s.threads[t].task.found).Values
    ensures Gone(Apply(o, s, OnSweep(t, EndReconcile)), d)
  {
    InvReachable(o, s);
    LedgerReachable(o, s);
    hide Inv, Reachable;
    assert d in s.known by {
      hide ClosesHeld, FoundKnown, Enabled;
    }
    hide LedgerOk, FoundBy, Reconciled;
    EndOfMerge(o, s, t);
    forall u | u in s.threads && u != t ensures FoundBy(s.threads[u].task) == [] {
      OneList(o, s, t, u);
    }
    hide Enabled, Apply;
  }

  /** What the last step of a merge leaves: the new device set, and no list of finds with its thread. */
  lemma EndOfMerge(o: Options, s: State, t: Tid)
    requires Enabled(o, s, OnSweep(t, EndReconcile))
    ensures t in s.threads && s.threads[t].task.Reconciling?
    ensures var s' := Apply(o, s, OnSweep(t, EndReconcile));
      && s'.threads == s.threads[t := s'.threads[t]] && FoundBy(s'.threads[t].task) == []
      && s'.devices == Reconciled(o, s.devices, s.threads[t].task.found) && s'.known == s.known
  {
    hide Reconciled, Touched, Closures, Plans;
  }

  /** Only the one sweep in flight has a list of finds. */
  lemma OneList(o: Options, s: State, t: Tid, u: Tid)
    requires Inv(o, s) && t in s.threads && s.threads[t].task.Reconciling? && u in s.threads && u != t
    ensures FoundBy(s.threads[u].task) == []
  {
    SweeperOf(s, t);
    SweeperOf(s, u);
  }
}
