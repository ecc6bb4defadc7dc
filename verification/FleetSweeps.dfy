/**
 What refreshDevices is for, over every run: the device set is what the sweeps found, merged in
 order, and no round reads a set that no sweep has been out for lately.
 */
module FleetSweeps {
  import opened Fleet
  import opened FleetHistory
  import opened FleetInvariants
  import opened FleetProtocol
  import opened FleetRounds
  import opened FleetServed
  import opened FleetTheorems
  import opened Wrappers

  // ---------------------------------------------------------------- the device set

  /** What the sweeps of a run found, in order. */
  function Finds(run: seq<Action>): seq<seq<Dev>> {
    if run == [] then []
    else (if run[0].OnSweep? && run[0].sweep.Find? then [run[0].sweep.found] else []) + Finds(run[1..])
  }

  function Found(finds: seq<seq<Dev>>): seq<seq<(string, Dev)>> {
    seq(|finds|, i requires 0 <= i < |finds| => seq(|finds[i]|, j requires 0 <= j < |finds[i]| =>
      (finds[i][j].host, finds[i][j])))
  }

  /** The device set after these sweeps. */
  function Swept(o: Options, devices: map<string, Dev>, finds: seq<seq<Dev>>): map<string, Dev> {
    Sweeps(devices, Found(finds), o.manual, o.keepMissing)
  }

  lemma SweptMore(o: Options, devices: map<string, Dev>, finds: seq<seq<Dev>>, found: seq<Dev>)
    ensures Swept(o, devices, finds + [found]) == Reconciled(o, Swept(o, devices, finds), found)
  {
    var more := Found(finds + [found]);
    assert more[..|finds|] == Found(finds) && more[|finds|] == ByHost(found);
  }

  /** What the sweep in flight has found and not yet merged. */
  function Unmerged(s: State): seq<seq<Dev>> {
    if s.sweeper.Some? && s.sweeper.value in s.threads then UnmergedBy(s.threads[s.sweeper.value].task) else []
  }

  function UnmergedBy(task: Task): seq<seq<Dev>> {
    match task
    case WantReconcile(_, found) => [found]
    case Reconciling(_, found, _) => [found]
    case _ => []
  }

  /** A thread outside the sweep in flight, before and after its step. */
  lemma UnmergedFrame(s: State, s': State, t: Tid)
    requires SweeperOk(s) && s'.sweeper == s.sweeper && t in s'.threads && s'.threads == s.threads[t := s'.threads[t]]
    requires t in s.threads ==> UnmergedBy(s'.threads[t].task) == UnmergedBy(s.threads[t].task)
    ensures Unmerged(s') == Unmerged(s)
  {
    hide UnmergedBy;
  }

  lemma MergesOnSweep(o: Options, s: State, t: Tid, step: SweepStep)
    requires SweeperOk(s) && SweepEnabled(o, s, t, step)
    ensures var s' := SweepApply(o, s, t, step);
      if step.Find? then Unmerged(s) == [] && Unmerged(s') == [step.found] && s'.devices == s.devices
      else if step.EndReconcile? then
        exists found :: Unmerged(s) == [found] && Unmerged(s') == [] && s'.devices == Reconciled(o, s.devices, found)
      else Unmerged(s') == Unmerged(s) && s'.devices == s.devices
  {
    SweeperOf(s, t);
    hide SweeperOk, Reconciled, Touched, Closures, Plans, Lists, Due;
    if step.EndReconcile? {
      assert Unmerged(s) == [s.threads[t].task.found];
    }
  }

  lemma MergesOnDevice(s: State, t: Tid, step: CallStep)
    requires SweeperOk(s) && CallEnabled(s, t, step)
    ensures Unmerged(CallApply(s, t, step)) == Unmerged(s) && CallApply(s, t, step).devices == s.devices
  {
    CallLeavesRecords(s, t, step);
    UnmergedFrame(s, CallApply(s, t, step), t);
  }

  lemma MergesOnReader(o: Options, s: State, t: Tid, step: ReaderStep)
    requires SweeperOk(s) && ReaderEnabled(o, s, t, step)
    ensures Unmerged(ReaderApply(o, s, t, step)) == Unmerged(s) && ReaderApply(o, s, t, step).devices == s.devices
  {
    ReaderShape(o, s, t, step);
    ReaderLeavesRecords(o, s, t, step);
    UnmergedFrame(s, ReaderApply(o, s, t, step), t);
  }

  lemma MergesOnSnapshot(o: Options, s: State, t: Tid, step: SnapshotStep)
    requires SweeperOk(s) && SnapshotEnabled(o, s, t, step)
    ensures Unmerged(SnapshotApply(o, s, t, step)) == Unmerged(s)
    ensures SnapshotApply(o, s, t, step).devices == s.devices
  {
    SnapshotShape(o, s, t, step);
    SnapshotMoves(o, s, t, step);
    hide SweeperOk, Published, Lists, CacheFresh;
    UnmergedFrame(s, SnapshotApply(o, s, t, step), t);
  }

  lemma MergesOtherwise(o: Options, s: State, a: Action)
    requires SweeperOk(s) && Enabled(o, s, a) && (Environment(a) || a.Launch? || a.SpawnReader?)
    ensures Unmerged(Apply(o, s, a)) == Unmerged(s) && Apply(o, s, a).devices == s.devices
  {
    if a.Launch? {
      SweeperOf(s, a.t);
    }
  }

  /** Only the end of a merge changes the set, and it merges what the last find brought. */
  lemma MergeStep(o: Options, s: State, a: Action)
    requires SweeperOk(s) && Enabled(o, s, a)
    ensures var s' := Apply(o, s, a);
      if a.OnSweep? && a.sweep.Find? then
        Unmerged(s) == [] && Unmerged(s') == [a.sweep.found] && s'.devices == s.devices
      else if a.OnSweep? && a.sweep.EndReconcile? then
        exists found :: Unmerged(s) == [found] && Unmerged(s') == [] && s'.devices == Reconciled(o, s.devices, found)
      else Unmerged(s') == Unmerged(s) && s'.devices == s.devices
  {
    hide SweeperOk, SnapshotApply, SweepApply, ReaderApply, CallApply, SpawnApply, Reconciled, Unmerged;
    hide SnapshotEnabled, SweepEnabled, ReaderEnabled, CallEnabled;
    match a
    case OnSnapshot(t, step) => MergesOnSnapshot(o, s, t, step);
    case OnSweep(t, step) => MergesOnSweep(o, s, t, step);
    case OnReader(t, step) => MergesOnReader(o, s, t, step);
    case OnDevice(t, step) => MergesOnDevice(s, t, step);
    case _ => MergesOtherwise(o, s, a);
  }

  lemma {:induction false} MergesOverRun(o: Options, s: State, run: seq<Action>, first: map<string, Dev>,
      merged: seq<seq<Dev>>)
    returns (after: seq<seq<Dev>>)
    requires Inv(o, s) && Legal(o, s, run) && s.devices == Swept(o, first, merged)
    ensures merged + Unmerged(s) + Finds(run) == after + Unmerged(After(o, s, run))
    ensures After(o, s, run).devices == Swept(o, first, after)
    decreases |run|
  {
    hide Inv, Swept, Unmerged, Enabled, Apply;
    if run == [] {
      after := merged;
    } else {
      var s' := Apply(o, s, run[0]);
      InvStep(o, s, run[0]);
      var now := MergesOne(o, s, run[0], first, merged);
      after := MergesOverRun(o, s', run[1..], first, now);
      hide Finds;
      Reassociate(merged + Unmerged(s), FindOf(run[0]), now + Unmerged(s'), Finds(run[1..]));
      FindsSplit(run);
    }
  }

  function FindOf(a: Action): seq<seq<Dev>> {
    if a.OnSweep? && a.sweep.Find? then [a.sweep.found] else []
  }

  lemma FindsSplit(run: seq<Action>)
    requires run != []
    ensures Finds(run) == FindOf(run[0]) + Finds(run[1..])
  {
  }

  lemma Reassociate(a: seq<seq<Dev>>, b: seq<seq<Dev>>, ab: seq<seq<Dev>>, c: seq<seq<Dev>>)
    requires a + b == ab
    ensures a + (b + c) == ab + c
  {
  }

  lemma MergesOne(o: Options, s: State, a: Action, first: map<string, Dev>, merged: seq<seq<Dev>>)
    returns (now: seq<seq<Dev>>)
    requires Inv(o, s) && Enabled(o, s, a) && s.devices == Swept(o, first, merged)
    ensures merged + Unmerged(s) + FindOf(a) == now + Unmerged(Apply(o, s, a))
    ensures Apply(o, s, a).devices == Swept(o, first, now)
  {
    hide Swept, Unmerged, Enabled, Apply, Reconciled, SweeperOk;
    var s' := Apply(o, s, a);
    MergeStep(o, s, a);
    hide Inv;
    now := merged;
    if a.OnSweep? && a.sweep.EndReconcile? {
      var found :| Unmerged(s) == [found] && Unmerged(s') == [] && s'.devices == Reconciled(o, s.devices, found);
      SweptMore(o, first, merged, found);
      now := merged + [found];
    }
  }

  /**
   While no sweep is out, the device set is exactly what every sweep of the run found, merged in
   the order of the sweeps into the set there was; while one is, that of all but perhaps the last.
   */
  lemma DeviceSetIsItsSweeps(o: Options, s0: State, run: seq<Action>)
    requires Initial(o, s0) && Legal(o, s0, run)
    ensures var s, finds := After(o, s0, run), Finds(run);
      && (!s.discovering ==> s.devices == Swept(o, s0.devices, finds))
      && (s.devices == Swept(o, s0.devices, finds)
          || (finds != [] && s.devices == Swept(o, s0.devices, finds[..|finds| - 1])))
  {
    hide Initial, Legal, After, Inv, Swept, Unmerged, Finds;
    AtTheStart(o, s0);
    var merged := MergesOverRun(o, s0, run, s0.devices, []);
    InvOverRuns(o, s0, run);
    var s, finds := After(o, s0, run), Finds(run);
    OneUnmerged(o, s);
    assert finds == merged + Unmerged(s);
    if Unmerged(s) == [] {
      assert finds == merged;
    } else {
      assert finds[..|finds| - 1] == merged;
    }
  }

  lemma AtTheStart(o: Options, s0: State)
    requires Initial(o, s0)
    ensures Inv(o, s0) && s0.devices == Swept(o, s0.devices, []) && Unmerged(s0) == []
  {
    InvInitially(o, s0);
  }

  lemma OneUnmerged(o: Options, s: State)
    requires Inv(o, s)
    ensures |Unmerged(s)| <= 1 && (!s.discovering ==> Unmerged(s) == [])
  {
    assert SweeperOk(s);
  }

  // ---------------------------------------------------------------- how old it can be

  /** A sweep is out, or one ended after this time or less than an interval before it. */
  ghost predicate SweptLately(o: Options, sweeps: seq<Span>, at: int) {
    exists k :: 0 <= k < |sweeps| && Lately(o, sweeps[k], at)
  }

  predicate Lately(o: Options, sweep: Span, at: int) {
    sweep.end.None? || sweep.end.value >= at || at - sweep.end.value < o.interval
  }

  /** With discovery on, whoever is past refreshing, and every round that ended, has had such a sweep. */
  ghost predicate FreshOk(o: Options, s: State) {
    o.discovery ==>
      && (forall j :: 0 <= j < |s.rounds| && s.rounds[j].end.Some? ==> SweptLately(o, s.sweeps, s.rounds[j].start))
      && (forall t :: t in s.threads && PastRefresh(s.threads[t].task) ==>
            |s.rounds| > 0 && SweptLately(o, s.sweeps, Last(s).start))
  }

  /** Sweeps are only added, and end when they end. */
  ghost predicate SweepsGrow(s: State, s': State) {
    && |s.sweeps| <= |s'.sweeps|
    && forall k :: 0 <= k < |s.sweeps| ==>
        s'.sweeps[k] == s.sweeps[k] || (s.sweeps[k].end.None? && s'.sweeps[k].end == Some(s.now))
  }

  lemma LatelyStays(o: Options, s: State, s': State, at: int)
    requires SweptLately(o, s.sweeps, at) && SweepsGrow(s, s') && at <= s.now
    ensures SweptLately(o, s'.sweeps, at)
  {
    var k :| 0 <= k < |s.sweeps| && Lately(o, s.sweeps[k], at);
    assert Lately(o, s'.sweeps[k], at);
  }

  /** A step that begins no round: only the thread that gets past refreshing needs a sweep. */
  lemma FreshFrame(o: Options, s: State, s': State, t: Tid)
    requires FreshOk(o, s) && RoundLogOk(o, s) && SweepsGrow(s, s') && SameTimes(s, s')
    requires t in s'.threads && s'.threads == s.threads[t := s'.threads[t]]
    requires o.discovery && PastRefresh(s'.threads[t].task) ==>
      |s.rounds| > 0 && SweptLately(o, s'.sweeps, Last(s).start)
    ensures FreshOk(o, s')
  {
    if o.discovery {
      StartedBefore(o, s);
      forall j | 0 <= j < |s'.rounds| && s'.rounds[j].end.Some? ensures SweptLately(o, s'.sweeps, s'.rounds[j].start) {
        LatelyStays(o, s, s', s.rounds[j].start);
      }
      forall u | u in s'.threads && PastRefresh(s'.threads[u].task)
        ensures |s'.rounds| > 0 && SweptLately(o, s'.sweeps, Last(s').start)
      {
        if u != t {
          LatelyStays(o, s, s', Last(s).start);
        }
      }
    }
  }

  lemma StartedBefore(o: Options, s: State)
    requires RoundLogOk(o, s)
    ensures forall j :: 0 <= j < |s.rounds| ==> s.rounds[j].start <= s.now
  {
    forall j | 0 <= j < |s.rounds| ensures s.rounds[j].start <= s.now {
      assert RoundSpans(s.rounds)[j].start <= s.now;
    }
  }

  lemma SameSweeps(s: State, s': State)
    requires s'.sweeps == s.sweeps
    ensures SweepsGrow(s, s')
  {
  }

  /** Whoever gets past refreshing has begun a sweep, found one out, found one recent, or ended one. */
  lemma FreshOnSweep(o: Options, s: State, t: Tid, step: SweepStep)
    requires FreshOk(o, s) && RoundLogOk(o, s) && SweepLogOk(o, s) && SweeperOk(s) && OwnersOk(s)
    requires SweepEnabled(o, s, t, step)
    ensures FreshOk(o, SweepApply(o, s, t, step))
  {
    var s' := SweepApply(o, s, t, step);
    SweepFrame(o, s, t, step);
    SweeperOf(s, t);
    SweepsOnSweep(o, s, t, step);
    StartedBefore(o, s);
    OwnersOf(s, t);
    if o.discovery && PastRefresh(s'.threads[t].task) {
      if PastRefresh(s.threads[t].task) {
        LatelyStays(o, s, s', Last(s).start);
      } else {
        PassesWithSweep(o, s, t, step);
      }
    }
    hide FreshOk, RoundLogOk, SweepLogOk, SweeperOk, OwnersOk, SweepEnabled, SweepApply, SweptLately;
    FreshFrame(o, s, s', t);
  }

  lemma SweepsOnSweep(o: Options, s: State, t: Tid, step: SweepStep)
    requires SweepEnabled(o, s, t, step) && SweepLogOk(o, s)
    requires (InSweep(s.threads[t].task) <==> s.sweeper == Some(t)) && (s.discovering <==> s.sweeper.Some?)
    ensures SweepsGrow(s, SweepApply(o, s, t, step))
  {
    hide Reconciled, Touched, Closures, Plans, Lists, Due;
    if step.FinishSweep? {
      assert s.sweeps[|s.sweeps| - 1].end.None?;
    }
  }

  lemma PassesWithSweep(o: Options, s: State, t: Tid, step: SweepStep)
    requires SweepLogOk(o, s) && SweepEnabled(o, s, t, step)
    requires InSweep(s.threads[t].task) <==> s.sweeper == Some(t)
    requires s.discovering <==> s.sweeper.Some?
    requires InRound(s.threads[t].task) ==> RoundOwner(s) == Some(t)
    requires forall j :: 0 <= j < |s.rounds| ==> s.rounds[j].start <= s.now
    requires !PastRefresh(s.threads[t].task) && PastRefresh(SweepApply(o, s, t, step).threads[t].task)
    ensures |s.rounds| > 0 && SweptLately(o, SweepApply(o, s, t, step).sweeps, Last(s).start)
  {
    hide Reconciled, Touched, Closures, Plans, Lists;
    var s' := SweepApply(o, s, t, step);
    var k := |s'.sweeps| - 1;
    assert step.Decide? || step.FinishSweep?;
    assert Lately(o, s'.sweeps[k], Last(s).start);
  }

  lemma FreshOnSnapshot(o: Options, s: State, t: Tid, step: SnapshotStep)
    requires FreshOk(o, s) && OwnersOk(s) && MutexesOk(s) && SnapshotEnabled(o, s, t, step)
    ensures FreshOk(o, SnapshotApply(o, s, t, step))
  {
    OwnersOf(s, t);
    if s.threads[t].task.CheckCache? {
      NoneOpenAtCheck(s, t);
    }
    SnapshotShape(o, s, t, step);
    SnapshotMoves(o, s, t, step);
    SnapshotTimes(o, s, t, step);
    SweepLogOnSnapshot(o, s, t, step);
    SnapshotPasses(o, s, t, step);
    if !Open(s) {
      NobodyPast(s);
    }
    hide OwnersOk, MutexesOk, SnapshotEnabled, SnapshotApply, SweptLately;
    hide PastRefresh, InRound, InSnapshot, SnapshotNext;
  }

  /** Nobody gets past refreshing by a step under snapshotMtx, but the one who has no sweeps to wait for. */
  lemma SnapshotPasses(o: Options, s: State, t: Tid, step: SnapshotStep)
    requires SnapshotEnabled(o, s, t, step)
    ensures var was, now := s.threads[t].task, SnapshotNext(o, step);
      && (o.discovery && PastRefresh(now) ==> PastRefresh(was))
      && (step.StartRound? ==> was.CheckCache?)
      && (step.Publish? ==> PastRefresh(was))
  {
    hide Published, Lists, CacheFresh;
  }

  lemma NobodyPast(s: State)
    requires OwnersOk(s) && !Open(s)
    ensures forall t :: t in s.threads ==> !PastRefresh(s.threads[t].task)
  {
  }

  lemma SnapshotTimes(o: Options, s: State, t: Tid, step: SnapshotStep)
    requires SnapshotEnabled(o, s, t, step)
    ensures var s' := SnapshotApply(o, s, t, step);
      && (step.StartRound? ==> |s'.rounds| == |s.rounds| + 1 && s'.rounds[..|s.rounds|] == s.rounds)
      && (step.StartRound? ==> Last(s').end.None?)
      && (!step.StartRound? ==> |s'.rounds| == |s.rounds|)
      && (!step.StartRound? ==> forall j :: 0 <= j < |s.rounds| ==>
            && s'.rounds[j].start == s.rounds[j].start
            && (s'.rounds[j].end == s.rounds[j].end || (step.Publish? && j == |s.rounds| - 1)))
  {
    hide Published, Lists, CacheFresh;
  }

  lemma FreshStep(o: Options, s: State, a: Action)
    requires Inv(o, s) && FreshOk(o, s) && Enabled(o, s, a)
    ensures FreshOk(o, Apply(o, s, a))
  {
    hide RoundLogOk, SweepLogOk, SweeperOk, OwnersOk, ReadersOk, MutexesOk, FreshOk, SnapshotApply, SweepApply;
    hide ReaderApply, CallApply, SpawnApply, SnapshotEnabled, SweepEnabled, ReaderEnabled, CallEnabled;
    assert RoundLogOk(o, s) && SweepLogOk(o, s) && SweeperOk(s) && OwnersOk(s) && ReadersOk(s) && MutexesOk(s);
    hide Inv;
    match a
    case OnSnapshot(t, step) => FreshOnSnapshot(o, s, t, step);
    case OnSweep(t, step) => FreshOnSweep(o, s, t, step);
    case OnReader(t, step) => FreshOnReader(o, s, t, step);
    case OnDevice(t, step) => FreshOnDevice(o, s, t, step);
    case _ => FreshOtherwise(o, s, a);
  }

  lemma FreshOnReader(o: Options, s: State, t: Tid, step: ReaderStep)
    requires FreshOk(o, s) && RoundLogOk(o, s) && ReadersOk(s) && ReaderEnabled(o, s, t, step)
    ensures FreshOk(o, ReaderApply(o, s, t, step))
  {
    ReaderShape(o, s, t, step);
    ReaderLeavesRecords(o, s, t, step);
    TimesOnReader(o, s, t, step);
    var s' := ReaderApply(o, s, t, step);
    SameSweeps(s, s');
    hide FreshOk, RoundLogOk, ReadersOk, ReaderEnabled, ReaderApply, SameTimes, SweepsGrow;
    FreshFrame(o, s, s', t);
  }

  lemma FreshOnDevice(o: Options, s: State, t: Tid, step: CallStep)
    requires FreshOk(o, s) && RoundLogOk(o, s) && CallEnabled(s, t, step)
    ensures FreshOk(o, CallApply(s, t, step))
  {
    CallLeavesRecords(s, t, step);
    var s' := CallApply(s, t, step);
    SameSweeps(s, s');
    hide FreshOk, RoundLogOk, SweepsGrow;
    FreshFrame(o, s, s', t);
  }

  lemma FreshOtherwise(o: Options, s: State, a: Action)
    requires FreshOk(o, s) && OwnersOk(s) && SweepLogOk(o, s) && SweeperOk(s) && RoundLogOk(o, s) && Enabled(o, s, a)
    requires Environment(a) || a.Launch? || a.SpawnReader?
    ensures FreshOk(o, Apply(o, s, a))
  {
    if a.Launch? {
      FreshOnLaunch(o, s, a.t, a.child);
    } else if a.SpawnReader? {
      FreshOnSpawn(o, s, a.t, a.child);
    }
  }

  lemma FreshOnLaunch(o: Options, s: State, t: Tid, child: Tid)
    requires FreshOk(o, s) && OwnersOk(s) && SweepLogOk(o, s) && SweeperOk(s) && Enabled(o, s, Launch(t, child))
    ensures FreshOk(o, Apply(o, s, Launch(t, child)))
  {
    OwnersOf(s, t);
    SweeperOf(s, t);
    hide SweeperOk, OwnersOk;
    if o.discovery {
      assert Lately(o, s.sweeps[|s.sweeps| - 1], Last(s).start);
    }
  }

  lemma FreshOnSpawn(o: Options, s: State, t: Tid, child: Tid)
    requires FreshOk(o, s) && OwnersOk(s) && Enabled(o, s, SpawnReader(t, child))
    ensures FreshOk(o, Apply(o, s, SpawnReader(t, child)))
  {
    TimesOnSpawn(s, t, child);
    hide SweptLately, OwnersOk;
  }

  lemma {:induction false} FreshOverRun(o: Options, s: State, run: seq<Action>)
    requires Inv(o, s) && FreshOk(o, s) && Legal(o, s, run)
    ensures FreshOk(o, After(o, s, run))
    decreases |run|
  {
    hide Inv, FreshOk, Enabled, Apply;
    if run != [] {
      FreshStep(o, s, run[0]);
      InvStep(o, s, run[0]);
      FreshOverRun(o, Apply(o, s, run[0]), run[1..]);
    }
  }

  /**
   With discovery on, no round reads a stale device set: a sweep had ended less than an interval
   before the round began, or ended after it began, or was still out.
   */
  lemma RoundsReadAFreshSet(o: Options, s: State, j: nat)
    requires Reachable(o, s) && o.discovery && j < |s.rounds| && s.rounds[j].end.Some?
    ensures exists k ::
      && 0 <= k < |s.sweeps|
      && (s.sweeps[k].end.None? || s.sweeps[k].end.value >= s.rounds[j].start
          || s.rounds[j].start - s.sweeps[k].end.value < o.interval)
  {
    var s0, run :| Initial(o, s0) && Legal(o, s0, run) && After(o, s0, run) == s;
    InvInitially(o, s0);
    assert FreshOk(o, s0);
    FreshOverRun(o, s0, run);
    hide Inv, Initial, Legal, After, Reachable;
    assert SweptLately(o, s.sweeps, s.rounds[j].start);
    var k :| 0 <= k < |s.sweeps| && Lately(o, s.sweeps[k], s.rounds[j].start);
    assert Lately(o, s.sweeps[k], s.rounds[j].start);
  }

  // ---------------------------------------------------------------- which sweeps a scrape waits for

  /** Running a sweep inside Snapshot, with every other scrape waiting for snapshotMtx. */
  predicate Blocks(t: Task) {
    match t
    case Sweeping(inline) => inline
    case WantReconcile(inline, _) => inline
    case Reconciling(inline, _, _) => inline
    case WantFinish(inline) => inline
    case Finishing(inline) => inline
    case _ => false
  }

  ghost predicate BlocksOk(s: State) {
    forall t :: t in s.threads && Blocks(s.threads[t].task) ==> s.lastDiscovery.None?
  }

  lemma BlocksFrame(s: State, s': State, t: Tid)
    requires BlocksOk(s) && t in s'.threads && s'.threads == s.threads[t := s'.threads[t]]
    requires s'.lastDiscovery == s.lastDiscovery || forall u :: u in s.threads && u != t ==> !Blocks(s.threads[u].task)
    requires Blocks(s'.threads[t].task) ==> s'.lastDiscovery.None?
    ensures BlocksOk(s')
  {
    hide Blocks;
  }

  lemma BlocksOnSweep(o: Options, s: State, t: Tid, step: SweepStep)
    requires BlocksOk(s) && SweeperOk(s) && SweepEnabled(o, s, t, step)
    ensures BlocksOk(SweepApply(o, s, t, step))
  {
    var s' := SweepApply(o, s, t, step);
    SweepFrame(o, s, t, step);
    SweepBlocks(o, s, t, step);
    if step.FinishSweep? {
      forall u | u in s.threads && u != t ensures !Blocks(s.threads[u].task) {
        SweeperOf(s, u);
        SweeperOf(s, t);
      }
    }
    hide SweepEnabled, SweepApply, SweeperOk;
    BlocksFrame(s, s', t);
  }

  lemma SweepBlocks(o: Options, s: State, t: Tid, step: SweepStep)
    requires BlocksOk(s) && SweepEnabled(o, s, t, step)
    ensures var s' := SweepApply(o, s, t, step);
      && t in s'.threads && (Blocks(s'.threads[t].task) ==> s'.lastDiscovery.None?)
      && (!step.FinishSweep? ==> s'.lastDiscovery == s.lastDiscovery)
      && (step.FinishSweep? ==> InSweep(s.threads[t].task))
  {
    hide Reconciled, Touched, Closures, Plans, Lists, Due;
  }

  lemma BlocksStep(o: Options, s: State, a: Action)
    requires BlocksOk(s) && SweeperOk(s) && Enabled(o, s, a)
    ensures BlocksOk(Apply(o, s, a))
  {
    hide SweeperOk, SnapshotApply, SweepApply, ReaderApply, CallApply;
    hide SnapshotEnabled, SweepEnabled, ReaderEnabled, CallEnabled;
    match a
    case OnSnapshot(t, step) => BlocksOnSnapshot(o, s, t, step);
    case OnSweep(t, step) => BlocksOnSweep(o, s, t, step);
    case OnReader(t, step) => BlocksOnReader(o, s, t, step);
    case OnDevice(t, step) => BlocksOnDevice(s, t, step);
    case _ =>
  }

  lemma BlocksOnSnapshot(o: Options, s: State, t: Tid, step: SnapshotStep)
    requires BlocksOk(s) && SnapshotEnabled(o, s, t, step)
    ensures BlocksOk(SnapshotApply(o, s, t, step))
  {
    SnapshotShape(o, s, t, step);
    SnapshotMoves(o, s, t, step);
    SweepLogOnSnapshot(o, s, t, step);
    hide SnapshotEnabled, SnapshotApply;
    BlocksFrame(s, SnapshotApply(o, s, t, step), t);
  }

  lemma BlocksOnReader(o: Options, s: State, t: Tid, step: ReaderStep)
    requires BlocksOk(s) && ReaderEnabled(o, s, t, step)
    ensures BlocksOk(ReaderApply(o, s, t, step))
  {
    ReaderShape(o, s, t, step);
    ReaderLeavesRecords(o, s, t, step);
    hide ReaderEnabled, ReaderApply;
    BlocksFrame(s, ReaderApply(o, s, t, step), t);
  }

  lemma BlocksOnDevice(s: State, t: Tid, step: CallStep)
    requires BlocksOk(s) && CallEnabled(s, t, step)
    ensures BlocksOk(CallApply(s, t, step))
  {
    CallLeavesRecords(s, t, step);
    BlocksFrame(s, CallApply(s, t, step), t);
  }

  lemma {:induction false} BlocksOverRun(o: Options, s: State, run: seq<Action>)
    requires Inv(o, s) && BlocksOk(s) && Legal(o, s, run)
    ensures BlocksOk(After(o, s, run))
    decreases |run|
  {
    hide BlocksOk, Enabled, Apply;
    if run != [] {
      InvStep(o, s, run[0]);
      BlocksStep(o, s, run[0]);
      hide Inv;
      BlocksOverRun(o, Apply(o, s, run[0]), run[1..]);
    }
  }

  /** A scrape only ever waits out a sweep while none has finished yet: every later one is in the background. */
  lemma OnlyTheFirstSweepBlocks(o: Options, s: State, t: Tid)
    requires Reachable(o, s) && t in s.threads && Blocks(s.threads[t].task)
    ensures forall k :: 0 <= k < |s.sweeps| ==> s.sweeps[k].end.None?
  {
    var s0, run :| Initial(o, s0) && Legal(o, s0, run) && After(o, s0, run) == s;
    InvInitially(o, s0);
    BlocksOverRun(o, s0, run);
    OneSweepAtATime(o, s);
    InvReachable(o, s);
    hide Initial, Legal, After, Reachable;
    assert SweepLogOk(o, s);
  }
}
