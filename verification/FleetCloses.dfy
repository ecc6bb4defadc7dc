/**
 Which devices are closed, over every run: by a sweep exactly those it drops, and by Close exactly
 those of the device set, told from the calls the run's actions return from.
 */
module FleetCloses {
  import opened FleetInvariants
  import opened FleetProtocol
  import opened FleetTheorems

  /** The call on a device that this action returns from, made by t with devicesMtx held. */
  function Returned(s: State, a: Action, t: Tid): set<Call> {
    if a.OnDevice? && a.t == t && a.call.End? && t in s.threads then First(Todo(s.threads[t].task)) else {}
  }

  function Todo(task: Task): seq<Call> {
    match task
    case Reconciling(_, _, todo) => todo
    case Closing(todo) => todo
    case _ => []
  }

  function First(todo: seq<Call>): set<Call> {
    if todo == [] then {} else {todo[0]}
  }

  /** The calls t has returned from over a run. */
  ghost function CallsBy(o: Options, s: State, run: seq<Action>, t: Tid): set<Call>
    requires Legal(o, s, run)
    decreases |run|
  {
    if run == [] then {} else Returned(s, run[0], t) + CallsBy(o, Apply(o, s, run[0]), run[1..], t)
  }

  /** Still to take devicesMtx to reconcile or to close. */
  predicate Ahead(task: Task) {
    match task
    case WantSnapshot | CheckCache | WantRefresh | Refreshing | WantClose => true
    case Sweeping(_) | WantReconcile(_, _) => true
    case _ => false
  }

  function Remaining(todo: seq<Call>): set<Call> {
    set c | c in todo
  }

  /** The calls made and those still to make are the ones that what the thread is at asks for. */
  ghost predicate PaidOk(o: Options, s: State, t: Tid, made: set<Call>) {
    if t !in s.threads then made == {} else PaidBy(o, s.devices, s.threads[t].task, made)
  }

  ghost predicate PaidBy(o: Options, devices: map<string, Dev>, task: Task, made: set<Call>) {
    && (Ahead(task) ==> made == {})
    && (task.Closing? ==> made + Remaining(task.todo) == Closures(devices))
    && (task.Reconciling? ==> made + Remaining(task.todo) == Touched(o, devices, task.found))
  }

  /** The set is stable while t holds devicesMtx, and t's step is paid for. */
  lemma PaidFrame(o: Options, s: State, s': State, t: Tid, u: Tid, made: set<Call>)
    requires PaidOk(o, s, u, made) && t != u && t in s'.threads && s'.threads == s.threads[t := s'.threads[t]]
    requires s'.devices == s.devices || (u in s.threads ==> !HoldsDevices(s.threads[u].task))
    ensures PaidOk(o, s', u, made)
  {
    hide Touched, Closures, Ahead;
  }

  lemma PaidOnSweep(o: Options, s: State, t: Tid, step: SweepStep, u: Tid, made: set<Call>)
    requires PaidOk(o, s, u, made) && MutexesOk(s) && SweepEnabled(o, s, t, step)
    ensures PaidOk(o, SweepApply(o, s, t, step), u, made)
  {
    var s' := SweepApply(o, s, t, step);
    SweepFrame(o, s, t, step);
    if t == u {
      PaidOnOwnSweep(o, s, t, step, made);
    } else {
      OnlyHolderMerges(o, s, t, step);
      MutexesOf(s, t);
      MutexesOf(s, u);
      hide SweepEnabled, SweepApply, MutexesOk;
      PaidFrame(o, s, s', t, u, made);
    }
  }

  lemma OnlyHolderMerges(o: Options, s: State, t: Tid, step: SweepStep)
    requires SweepEnabled(o, s, t, step)
    ensures SweepApply(o, s, t, step).devices == s.devices || HoldsDevices(s.threads[t].task)
  {
    hide Reconciled, Touched, Closures, Plans, Lists, Due;
  }

  lemma PaidOnOwnSweep(o: Options, s: State, t: Tid, step: SweepStep, made: set<Call>)
    requires PaidOk(o, s, t, made) && SweepEnabled(o, s, t, step)
    ensures PaidOk(o, SweepApply(o, s, t, step), t, made)
  {
    hide Reconciled, Touched, Closures, Lists, Due;
    if step.LockDevices? && s.threads[t].task.WantReconcile? {
      assert Remaining(step.todo) == Touched(o, s.devices, s.threads[t].task.found);
    } else if step.LockDevices? && s.threads[t].task.WantClose? {
      assert Remaining(step.todo) == Closures(s.devices);
    }
  }

  lemma PaidOnDevice(o: Options, s: State, t: Tid, step: CallStep, u: Tid, made: set<Call>)
    requires PaidOk(o, s, u, made) && CallEnabled(s, t, step)
    ensures PaidOk(o, CallApply(s, t, step), u, made + Returned(s, OnDevice(t, step), u))
  {
    CallLeavesRecords(s, t, step);
    if t != u {
      PaidFrame(o, s, CallApply(s, t, step), t, u, made);
    } else {
      PaidOnOwnDevice(o, s, t, step, made);
    }
  }

  lemma PaidOnOwnDevice(o: Options, s: State, t: Tid, step: CallStep, made: set<Call>)
    requires PaidOk(o, s, t, made) && CallEnabled(s, t, step)
    ensures PaidOk(o, CallApply(s, t, step), t, made + Returned(s, OnDevice(t, step), t))
  {
    hide Touched, Closures;
    var todo := Todo(s.threads[t].task);
    if step.End? && todo != [] {
      assert Remaining(todo) == {todo[0]} + Remaining(todo[1..]);
    }
  }

  lemma PaidOnSnapshot(o: Options, s: State, t: Tid, step: SnapshotStep, u: Tid, made: set<Call>)
    requires PaidOk(o, s, u, made) && SnapshotEnabled(o, s, t, step)
    ensures PaidOk(o, SnapshotApply(o, s, t, step), u, made)
  {
    SnapshotShape(o, s, t, step);
    hide Touched, Closures;
    if t == u {
      hide Published, Lists, CacheFresh;
    } else {
      hide SnapshotEnabled, SnapshotApply;
      PaidFrame(o, s, SnapshotApply(o, s, t, step), t, u, made);
    }
  }

  lemma PaidOnReader(o: Options, s: State, t: Tid, step: ReaderStep, u: Tid, made: set<Call>)
    requires PaidOk(o, s, u, made) && ReaderEnabled(o, s, t, step)
    ensures PaidOk(o, ReaderApply(o, s, t, step), u, made)
  {
    hide Touched, Closures;
  }

  lemma PaidOtherwise(o: Options, s: State, a: Action, u: Tid, made: set<Call>)
    requires PaidOk(o, s, u, made) && Enabled(o, s, a) && (Environment(a) || a.Launch? || a.SpawnReader?)
    ensures PaidOk(o, Apply(o, s, a), u, made)
  {
    hide Touched, Closures;
  }

  lemma PaidStep(o: Options, s: State, a: Action, t: Tid, made: set<Call>)
    requires PaidOk(o, s, t, made) && MutexesOk(s) && Enabled(o, s, a)
    ensures PaidOk(o, Apply(o, s, a), t, made + Returned(s, a, t))
  {
    hide PaidOk, MutexesOk, SnapshotApply, SweepApply, ReaderApply, CallApply;
    hide SnapshotEnabled, SweepEnabled, ReaderEnabled, CallEnabled;
    assert !a.OnDevice? ==> made + Returned(s, a, t) == made;
    match a
    case OnSnapshot(u, step) => PaidOnSnapshot(o, s, u, step, t, made);
    case OnSweep(u, step) => PaidOnSweep(o, s, u, step, t, made);
    case OnReader(u, step) => PaidOnReader(o, s, u, step, t, made);
    case OnDevice(u, step) => PaidOnDevice(o, s, u, step, t, made);
    case _ => PaidOtherwise(o, s, a, t, made);
  }

  lemma {:induction false} PaidOverRun(o: Options, s: State, run: seq<Action>, t: Tid, made: set<Call>)
    requires Inv(o, s) && PaidOk(o, s, t, made) && Legal(o, s, run)
    ensures PaidOk(o, After(o, s, run), t, made + CallsBy(o, s, run, t))
    decreases |run|
  {
    hide MutexesOk, PaidOk, Enabled, Apply, Returned;
    if run == [] {
      assert made + {} == made;
    } else {
      PaidStep(o, s, run[0], t, made);
      hide Inv;
      InvStep(o, s, run[0]);
      PaidOverRun(o, Apply(o, s, run[0]), run[1..], t, made + Returned(s, run[0], t));
      assert made + Returned(s, run[0], t) + CallsBy(o, Apply(o, s, run[0]), run[1..], t)
          == made + CallsBy(o, s, run, t);
    }
  }

  lemma PaidReachable(o: Options, s0: State, run: seq<Action>, t: Tid)
    requires Initial(o, s0) && Legal(o, s0, run)
    ensures PaidOk(o, After(o, s0, run), t, CallsBy(o, s0, run, t))
  {
    InvInitially(o, s0);
    hide Inv, Legal, After, CallsBy;
    PaidOverRun(o, s0, run, t, {});
    assert {} + CallsBy(o, s0, run, t) == CallsBy(o, s0, run, t);
  }

  /** When a sweep's merge is complete, the devices it closed are exactly those it drops. */
  lemma SweepClosesWhatItDrops(o: Options, s0: State, run: seq<Action>, t: Tid, d: Dev)
    requires Initial(o, s0) && Legal(o, s0, run) && SweepEnabled(o, After(o, s0, run), t, EndReconcile)
    ensures var s := After(o, s0, run);
      var after := SweepApply(o, s, t, EndReconcile).devices;
      CloseCall(d) in CallsBy(o, s0, run, t) <==> exists h :: h in s.devices && h !in after && s.devices[h] == d
  {
    PaidReachable(o, s0, run, t);
    hide Initial, Legal, After, CallsBy, Reconciled;
    var s := After(o, s0, run);
    var made := CallsBy(o, s0, run, t);
    assert made + Remaining([]) == made;
  }

  /** When Close returns, the devices it closed are exactly those of the device set. */
  lemma CloseClosesEveryDevice(o: Options, s0: State, run: seq<Action>, t: Tid, d: Dev)
    requires Initial(o, s0) && Legal(o, s0, run) && SweepEnabled(o, After(o, s0, run), t, EndClose)
    ensures CloseCall(d) in CallsBy(o, s0, run, t) <==> d in After(o, s0, run).devices.Values
  {
    PaidReachable(o, s0, run, t);
    hide Initial, Legal, After, CallsBy;
    var made := CallsBy(o, s0, run, t);
    assert made + Remaining([]) == made;
  }
}
