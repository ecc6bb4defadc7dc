/** When sweeps and query rounds begin and end, over every run of the registry's machine. */
module FleetHistory {
  import opened FleetInvariants
  import opened FleetProtocol
  import opened Wrappers

  // ---------------------------------------------------------------- spacing

  /**
   A history of spans no two of which overlap: each begins at least `gap` after the one before
   it ended, and only the last may still be open.
   */
  ghost predicate Spaced(spans: seq<Span>, gap: int, now: int, open: bool) {
    && (forall i :: 0 <= i < |spans| ==> spans[i].start <= now)
    && (forall i :: 0 <= i < |spans| && spans[i].end.Some? ==> spans[i].start <= spans[i].end.value <= now)
    && (forall i :: 0 < i < |spans| ==> EndsBefore(spans[i - 1], spans[i], gap))
    && (open <==> |spans| > 0 && spans[|spans| - 1].end.None?)
  }

  predicate EndsBefore(a: Span, b: Span, gap: int) {
    a.end.Some? && a.end.value <= b.start && a.end.value + gap <= b.start
  }

  /** When the last finished span ended. */
  function LastEnd(spans: seq<Span>): Option<int> {
    if |spans| > 0 && spans[|spans| - 1].end.Some? then spans[|spans| - 1].end
    else if |spans| > 1 then spans[|spans| - 2].end
    else None
  }

  lemma SpacedBegin(spans: seq<Span>, gap: int, now: int)
    requires Spaced(spans, gap, now, false) && (LastEnd(spans).Some? ==> LastEnd(spans).value + gap <= now)
    ensures Spaced(spans + [Span(now, None)], gap, now, true) && LastEnd(spans + [Span(now, None)]) == LastEnd(spans)
  {
  }

  lemma SpacedEnd(spans: seq<Span>, gap: int, now: int)
    requires Spaced(spans, gap, now, true)
    ensures var after := spans[|spans| - 1 := spans[|spans| - 1].(end := Some(now))];
            Spaced(after, gap, now, false) && LastEnd(after) == Some(now)
  {
  }

  lemma SpacedTick(spans: seq<Span>, gap: int, now: int, open: bool, dt: nat)
    requires Spaced(spans, gap, now, open)
    ensures Spaced(spans, gap, now + dt, open)
  {
  }

  /** With a positive gap, a window of length w sees at most w / gap + 1 spans begin. */
  lemma {:induction false} WindowCount(spans: seq<Span>, gap: int, now: int, open: bool, i: nat, j: nat)
    requires Spaced(spans, gap, now, open) && gap > 0 && i <= j < |spans|
    ensures spans[j].start - spans[i].start >= (j - i) * gap
    ensures j - i + 1 <= (spans[j].start - spans[i].start) / gap + 1
    decreases j - i
  {
    if i < j {
      WindowCount(spans, gap, now, open, i, j - 1);
      assert EndsBefore(spans[j - 1], spans[j], gap);
    }
    DivideAtLeast(spans[j].start - spans[i].start, gap, j - i);
  }

  lemma DivideAtLeast(w: int, gap: int, n: nat)
    requires gap > 0 && w >= n * gap
    ensures w / gap >= n
  {
    var q := w / gap;
    assert w == gap * q + w % gap;
    assert w < (q + 1) * gap;
    if q + 1 <= n {
      MulMonotone(q + 1, n, gap);
      assert false;
    }
  }

  lemma MulMonotone(a: int, b: int, gap: int)
    requires a <= b && gap > 0
    ensures a * gap <= b * gap
  {
  }

  // ---------------------------------------------------------------- sweeps

  /** `discovering` is set exactly while one thread is responsible for a sweep. */
  ghost predicate SweeperOk(s: State) {
    && (forall t :: t in s.threads ==> (InSweep(s.threads[t].task) <==> s.sweeper == Some(t)))
    && (s.sweeper.Some? ==> s.sweeper.value in s.threads)
    && (s.discovering <==> s.sweeper.Some?)
  }

  lemma SweeperFrame(s: State, s': State, t: Tid, th: Thread)
    requires SweeperOk(s) && s'.threads == s.threads[t := th]
    requires OwnStep(s.sweeper, s'.sweeper, t) && (s'.discovering <==> s'.sweeper.Some?)
    requires InSweep(th.task) <==> s'.sweeper == Some(t)
    ensures SweeperOk(s')
  {
  }

  lemma SweeperOf(s: State, t: Tid)
    requires SweeperOk(s)
    ensures t in s.threads ==> (InSweep(s.threads[t].task) <==> s.sweeper == Some(t))
    ensures t !in s.threads ==> s.sweeper != Some(t)
    ensures s.discovering <==> s.sweeper.Some?
  {
  }

  lemma SweeperOnSnapshot(o: Options, s: State, t: Tid, step: SnapshotStep)
    requires SweeperOk(s) && SnapshotEnabled(o, s, t, step)
    ensures SweeperOk(SnapshotApply(o, s, t, step))
  {
    SweeperOf(s, t);
    hide SweeperOk, Published, Lists;
    var s' := SnapshotApply(o, s, t, step);
    SweeperFrame(s, s', t, s'.threads[t]);
  }

  lemma SweeperOnSweep(o: Options, s: State, t: Tid, step: SweepStep)
    requires SweeperOk(s) && SweepEnabled(o, s, t, step)
    ensures SweeperOk(SweepApply(o, s, t, step))
  {
    SweeperOf(s, t);
    hide SweeperOk, Reconciled, Touched, Closures, Plans, Lists;
    var s' := SweepApply(o, s, t, step);
    SweeperFrame(s, s', t, s'.threads[t]);
  }

  lemma SweeperOnReader(o: Options, s: State, t: Tid, step: ReaderStep)
    requires SweeperOk(s) && ReaderEnabled(o, s, t, step)
    ensures SweeperOk(ReaderApply(o, s, t, step))
  {
    SweeperOf(s, t);
    ReaderShape(o, s, t, step);
    ReaderLeavesRecords(o, s, t, step);
    hide SweeperOk, ReaderEnabled, ReaderApply;
    var s' := ReaderApply(o, s, t, step);
    SweeperFrame(s, s', t, s'.threads[t]);
  }

  lemma SweeperOnDevice(s: State, t: Tid, step: CallStep)
    requires SweeperOk(s) && CallEnabled(s, t, step)
    ensures SweeperOk(CallApply(s, t, step))
  {
    SweeperOf(s, t);
    hide SweeperOk;
    var s' := CallApply(s, t, step);
    SweeperFrame(s, s', t, s'.threads[t]);
  }

  lemma SweeperStep(o: Options, s: State, a: Action)
    requires SweeperOk(s) && Enabled(o, s, a)
    ensures SweeperOk(Apply(o, s, a))
  {
    hide SnapshotApply, SweepApply, ReaderApply, CallApply, SnapshotEnabled, SweepEnabled, ReaderEnabled, CallEnabled;
    match a
    case OnSnapshot(t, step) => SweeperOnSnapshot(o, s, t, step);
    case OnSweep(t, step) => SweeperOnSweep(o, s, t, step);
    case OnReader(t, step) => SweeperOnReader(o, s, t, step);
    case OnDevice(t, step) => SweeperOnDevice(s, t, step);
    case _ =>
  }

  /** Sweeps are spaced by the discovery interval, and lastDiscovery is when the last one finished. */
  ghost predicate SweepLogOk(o: Options, s: State) {
    Spaced(s.sweeps, o.interval, s.now, s.discovering) && s.lastDiscovery == LastEnd(s.sweeps)
  }

  lemma SweepLogOnSnapshot(o: Options, s: State, t: Tid, step: SnapshotStep)
    requires SnapshotEnabled(o, s, t, step)
    ensures var s' := SnapshotApply(o, s, t, step);
      s'.sweeps == s.sweeps && s'.discovering == s.discovering && s'.lastDiscovery == s.lastDiscovery && s'.now == s.now
  {
    hide Published, Lists;
  }

  lemma SweepLogOnSweep(o: Options, s: State, t: Tid, step: SweepStep)
    requires SweepLogOk(o, s) && SweeperOk(s) && SweepEnabled(o, s, t, step)
    ensures SweepLogOk(o, SweepApply(o, s, t, step))
  {
    SweeperOf(s, t);
    hide SweeperOk, Spaced, LastEnd, Reconciled, Touched, Closures, Plans, Lists;
    if step.Decide? && Due(o, s) && !s.discovering {
      SpacedBegin(s.sweeps, o.interval, s.now);
    } else if step.FinishSweep? {
      SpacedEnd(s.sweeps, o.interval, s.now);
    }
  }

  lemma SweepLogStep(o: Options, s: State, a: Action)
    requires SweepLogOk(o, s) && SweeperOk(s) && Enabled(o, s, a)
    ensures SweepLogOk(o, Apply(o, s, a))
  {
    hide SweeperOk, Spaced, LastEnd, SnapshotApply, SweepApply, ReaderApply, CallApply;
    hide SnapshotEnabled, SweepEnabled, ReaderEnabled, CallEnabled;
    match a
    case Tick(dt) => SpacedTick(s.sweeps, o.interval, s.now, s.discovering, dt);
    case OnSnapshot(t, step) => SweepLogOnSnapshot(o, s, t, step);
    case OnSweep(t, step) => SweepLogOnSweep(o, s, t, step);
    case OnReader(t, step) => ReaderLeavesRecords(o, s, t, step);
    case OnDevice(t, step) => CallLeavesRecords(s, t, step);
    case _ =>
  }

  // ---------------------------------------------------------------- the first sweep comes first

  predicate PastRefresh(t: Task) {
    t.WantCopy? || t.Copying? || t.Spawning? || t.Waiting?
  }

  /**
   Until a first sweep has finished, the only sweep runs inside the Snapshot that began it, so
   with discovery on nobody copies the device set before then.
   */
  ghost predicate GatesOk(o: Options, s: State) {
    s.lastDiscovery.None? ==>
      && (forall t :: t in s.threads && InSweep(s.threads[t].task) ==>
          InSnapshot(s.threads[t].task) && !s.threads[t].task.Launching?)
      && (o.discovery ==> s.snapshot.None? && forall t :: t in s.threads ==> !PastRefresh(s.threads[t].task))
  }

  lemma GatesFrame(o: Options, s: State, s': State, t: Tid, th: Thread)
    requires GatesOk(o, s) && s'.threads == s.threads[t := th]
    requires s'.lastDiscovery == s.lastDiscovery
    requires s.lastDiscovery.None? && InSweep(th.task) ==> InSnapshot(th.task) && !th.task.Launching?
    requires s.lastDiscovery.None? && o.discovery ==> !PastRefresh(th.task) && s'.snapshot == s.snapshot
    ensures GatesOk(o, s')
  {
  }

  lemma GatesOf(o: Options, s: State, t: Tid)
    requires GatesOk(o, s) && t in s.threads && s.lastDiscovery.None?
    ensures InSweep(s.threads[t].task) ==> InSnapshot(s.threads[t].task) && !s.threads[t].task.Launching?
    ensures o.discovery ==> s.snapshot.None? && !PastRefresh(s.threads[t].task)
  {
  }

  lemma GatesOnSnapshot(o: Options, s: State, t: Tid, step: SnapshotStep)
    requires GatesOk(o, s) && SnapshotEnabled(o, s, t, step)
    ensures GatesOk(o, SnapshotApply(o, s, t, step))
  {
    if s.lastDiscovery.None? {
      GatesOf(o, s, t);
    }
    hide GatesOk, Published, Lists;
    var s' := SnapshotApply(o, s, t, step);
    if s.lastDiscovery.Some? {
      GatesOpen(o, s');
    } else {
      GatesFrame(o, s, s', t, s'.threads[t]);
    }
  }

  lemma GatesOpen(o: Options, s: State)
    requires s.lastDiscovery.Some?
    ensures GatesOk(o, s)
  {
  }

  /** Nobody is refreshing the device set while the first sweep is out. */
  lemma FirstSweepAlone(o: Options, s: State, t: Tid)
    requires GatesOk(o, s) && SweeperOk(s) && MutexesOk(s)
    requires t in s.threads && s.threads[t].task.Refreshing? && s.discovering
    ensures s.lastDiscovery.Some?
  {
    MutexesOf(s, t);
    MutexesOf(s, s.sweeper.value);
  }

  lemma GatesOnSweep(o: Options, s: State, t: Tid, step: SweepStep)
    requires GatesOk(o, s) && SweeperOk(s) && MutexesOk(s) && SweepEnabled(o, s, t, step)
    ensures GatesOk(o, SweepApply(o, s, t, step))
  {
    if s.lastDiscovery.None? {
      GatesOf(o, s, t);
    }
    if s.discovering && s.threads[t].task.Refreshing? {
      FirstSweepAlone(o, s, t);
    }
    SweepFrame(o, s, t, step);
    DiscoveryRemembered(o, s, t, step);
    hide GatesOk, SweeperOk, MutexesOk, SweepEnabled, SweepApply;
    GatesHeld(o, s, t, step);
    var s' := SweepApply(o, s, t, step);
    if s'.lastDiscovery.Some? {
      GatesOpen(o, s');
    } else {
      GatesFrame(o, s, s', t, s'.threads[t]);
    }
  }

  /** Until a first sweep has finished, a sweep's step leaves its thread before the gate. */
  lemma GatesHeld(o: Options, s: State, t: Tid, step: SweepStep)
    requires SweepEnabled(o, s, t, step)
    requires s.lastDiscovery.None? && InSweep(s.threads[t].task) ==>
        InSnapshot(s.threads[t].task) && !s.threads[t].task.Launching?
    requires s.lastDiscovery.None? && o.discovery ==> !PastRefresh(s.threads[t].task)
    requires s.lastDiscovery.None? ==> !(s.discovering && s.threads[t].task.Refreshing?)
    ensures var s' := SweepApply(o, s, t, step);
      t in s'.threads && (s.lastDiscovery.None? && s'.lastDiscovery.None? ==>
        && (InSweep(s'.threads[t].task) ==> InSnapshot(s'.threads[t].task) && !s'.threads[t].task.Launching?)
        && (o.discovery ==> !PastRefresh(s'.threads[t].task)))
  {
    hide Reconciled, Touched, Closures, Plans, Lists;
  }

  lemma DiscoveryRemembered(o: Options, s: State, t: Tid, step: SweepStep)
    requires SweepEnabled(o, s, t, step)
    ensures var s' := SweepApply(o, s, t, step);
      s'.snapshot == s.snapshot && (s'.lastDiscovery.None? ==> s.lastDiscovery.None?)
  {
    hide Reconciled, Touched, Closures, Plans, Lists;
  }

  lemma GatesOnReader(o: Options, s: State, t: Tid, step: ReaderStep)
    requires GatesOk(o, s) && ReaderEnabled(o, s, t, step)
    ensures GatesOk(o, ReaderApply(o, s, t, step))
  {
    ReaderShape(o, s, t, step);
    ReaderLeavesRecords(o, s, t, step);
    hide GatesOk, ReaderEnabled, ReaderApply;
    var s' := ReaderApply(o, s, t, step);
    GatesFrame(o, s, s', t, s'.threads[t]);
  }

  lemma GatesOnDevice(o: Options, s: State, t: Tid, step: CallStep)
    requires GatesOk(o, s) && CallEnabled(s, t, step)
    ensures GatesOk(o, CallApply(s, t, step))
  {
    if s.lastDiscovery.None? {
      GatesOf(o, s, t);
    }
    hide GatesOk;
    var s' := CallApply(s, t, step);
    GatesFrame(o, s, s', t, s'.threads[t]);
  }

  lemma GatesOnLaunch(o: Options, s: State, t: Tid, child: Tid)
    requires GatesOk(o, s) && Enabled(o, s, Launch(t, child))
    ensures GatesOk(o, Apply(o, s, Launch(t, child)))
  {
    if s.lastDiscovery.None? {
      GatesOf(o, s, t);
    }
  }

  lemma GatesOnSpawn(o: Options, s: State, t: Tid, child: Tid)
    requires GatesOk(o, s) && Enabled(o, s, SpawnReader(t, child))
    ensures GatesOk(o, SpawnApply(s, t, child))
  {
  }

  lemma GatesStep(o: Options, s: State, a: Action)
    requires GatesOk(o, s) && SweeperOk(s) && MutexesOk(s) && Enabled(o, s, a)
    ensures GatesOk(o, Apply(o, s, a))
  {
    hide SweeperOk, MutexesOk, SnapshotApply, SweepApply, ReaderApply, CallApply, SpawnApply;
    hide SnapshotEnabled, SweepEnabled, ReaderEnabled, CallEnabled;
    match a
    case Launch(t, child) => GatesOnLaunch(o, s, t, child);
    case SpawnReader(t, child) => GatesOnSpawn(o, s, t, child);
    case OnSnapshot(t, step) => GatesOnSnapshot(o, s, t, step);
    case OnSweep(t, step) => GatesOnSweep(o, s, t, step);
    case OnReader(t, step) => GatesOnReader(o, s, t, step);
    case OnDevice(t, step) => GatesOnDevice(o, s, t, step);
    case _ =>
  }
}
