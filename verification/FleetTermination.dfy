/**
 Every schedule finishes: with no new callers, however the steps of the threads are interleaved,
 the registry comes to rest with every thread done and every scraper answered. No fairness is
 assumed; only that a call on a device reaches its transport a finite number of times, and that
 a discovery finds finitely many devices.
 */
module FleetTermination {
  import opened FleetInvariants
  import opened FleetProgress
  import opened FleetProtocol
  import opened FleetTheorems

  // ---------------------------------------------------------------- what is left to do

  /**
   Three measures, compared in this order: how far threads are from the end of their code, how
   many device calls and readers they still have to start, and how far they are into a call.
   */
  datatype Gauge = Distance | Calls(devs: nat) | Depth

  function Rank(task: Task): nat {
    match task
    case WantSnapshot => 18
    case CheckCache => 17
    case WantRefresh => 16
    case Refreshing => 15
    case Launching => 14
    case Sweeping(_) => 9
    case WantReconcile(_, _) => 8
    case Reconciling(_, _, _) => 7
    case WantFinish(_) => 6
    case Finishing(_) => 5
    case WantCopy => 4
    case Copying => 3
    case Spawning(_) => 2
    case Waiting => 1
    case WantClose => 2
    case Closing(_) => 1
    case Reader(_, _, _, _, _) => 0
    case Done => 0
  }

  function StageRank(stage: Stage): nat {
    match stage
    case WantSlot => 10
    case Reading => 9
    case Naming => 7
    case Typing => 5
    case Writing => 3
    case Releasing => 2
    case Leaving => 1
  }

  /** Calls not yet begun, counted double so that beginning one is progress too. */
  function CallRank(devs: nat, task: Task, begun: bool): nat {
    var one := if begun then 1 else 0;
    match task
    case Spawning(next) => if next < devs then 11 * (devs - next) else 0
    case Reader(_, _, _, stage, _) => if StageRank(stage) > one then StageRank(stage) - one else 0
    case Reconciling(_, _, todo) => if todo == [] then 0 else 2 * |todo| - one
    case Closing(todo) => if todo == [] then 0 else 2 * |todo| - one
    case _ => 0
  }

  function DepthRank(visit: Visit): nat {
    match visit
    case Outside => 0
    case WantMu(uses) => 3 * uses + 2
    case InMu(uses) => 3 * uses + 1
    case WantTransport(uses) => 3 * uses + 3
    case InTransport(uses) => 3 * uses + 2
  }

  function Weight(g: Gauge, th: Thread): nat {
    match g
    case Distance => Rank(th.task)
    case Calls(devs) => CallRank(devs, th.task, !th.visit.Outside?)
    case Depth => DepthRank(th.visit)
  }

  ghost function AnyTid(threads: map<Tid, Thread>): (t: Tid)
    requires threads.Keys != {}
    ensures t in threads
  {
    var t :| t in threads.Keys; t
  }

  ghost function Sum(threads: map<Tid, Thread>, g: Gauge): nat
    decreases |threads.Keys|
  {
    if threads.Keys == {} then 0
    else
      var t := AnyTid(threads);
      assert (threads - {t}).Keys == threads.Keys - {t};
      Weight(g, threads[t]) + Sum(threads - {t}, g)
  }

  lemma {:induction false} SumAt(threads: map<Tid, Thread>, g: Gauge, t: Tid)
    requires t in threads
    ensures Sum(threads, g) == Weight(g, threads[t]) + Sum(threads - {t}, g)
    decreases |threads.Keys|
  {
    var u := AnyTid(threads);
    assert (threads - {u}).Keys == threads.Keys - {u} && (threads - {t}).Keys == threads.Keys - {t};
    if u != t {
      SumAt(threads - {u}, g, t);
      SumAt(threads - {t}, g, u);
      assert threads - {u} - {t} == threads - {t} - {u};
    }
  }

  lemma {:induction false} SumSet(threads: map<Tid, Thread>, g: Gauge, t: Tid, th: Thread)
    ensures Sum(threads[t := th], g) == Weight(g, th) + Sum(threads - {t}, g)
  {
    SumAt(threads[t := th], g, t);
    assert threads[t := th] - {t} == threads - {t};
  }

  function DevCount(s: State): nat {
    if |s.rounds| > 0 then |Last(s).devs| else 0
  }

  ghost function Left(s: State, g: Gauge): nat {
    Sum(s.threads, g)
  }

  ghost predicate Lower(s': State, s: State) {
    var n, n' := DevCount(s), DevCount(s');
    || Left(s', Distance) < Left(s, Distance)
    || (Left(s', Distance) == Left(s, Distance) && Left(s', Calls(n')) < Left(s, Calls(n)))
    || (Left(s', Distance) == Left(s, Distance) && Left(s', Calls(n')) == Left(s, Calls(n))
        && Left(s', Depth) < Left(s, Depth))
  }

  /** A step of one thread that lowers its own weights lowers the whole. */
  lemma {:induction false} OneMoves(s: State, s': State, t: Tid)
    requires t in s.threads && t in s'.threads && s'.threads == s.threads[t := s'.threads[t]]
    requires var a, b, n := s.threads[t], s'.threads[t], DevCount(s);
      || Weight(Distance, b) < Weight(Distance, a)
      || (Weight(Distance, b) == Weight(Distance, a) && DevCount(s') == n
          && (|| Weight(Calls(n), b) < Weight(Calls(n), a)
              || (Weight(Calls(n), b) == Weight(Calls(n), a) && Weight(Depth, b) < Weight(Depth, a))))
    ensures Lower(s', s)
  {
    var n := DevCount(s);
    hide Weight, DevCount, Sum;
    forall g ensures Left(s', g) - Left(s, g) == Weight(g, s'.threads[t]) - Weight(g, s.threads[t]) {
      SumAt(s.threads, g, t);
      SumSet(s.threads, g, t, s'.threads[t]);
    }
  }

  /** So does starting a thread, when what it takes on is less than what its parent puts down. */
  lemma {:induction false} OneForks(s: State, s': State, t: Tid, child: Tid)
    requires t in s.threads && child !in s.threads && t in s'.threads && child in s'.threads
    requires s'.threads == s.threads[child := s'.threads[child]][t := s'.threads[t]]
    requires var a, b, c, n := s.threads[t], s'.threads[t], s'.threads[child], DevCount(s);
      || Weight(Distance, b) + Weight(Distance, c) < Weight(Distance, a)
      || (Weight(Distance, b) + Weight(Distance, c) == Weight(Distance, a) && DevCount(s') == n
          && Weight(Calls(n), b) + Weight(Calls(n), c) < Weight(Calls(n), a))
    ensures Lower(s', s)
  {
    var mid := s.threads[child := s'.threads[child]];
    hide Weight, DevCount, Sum;
    forall g
      ensures Left(s', g) - Left(s, g)
          == Weight(g, s'.threads[t]) + Weight(g, s'.threads[child]) - Weight(g, s.threads[t])
    {
      SumAt(s.threads, g, t);
      SumSet(mid, g, t, s'.threads[t]);
      SumAt(mid, g, t);
      SumSet(s.threads, g, child, s'.threads[child]);
      assert s.threads - {child} == s.threads;
    }
  }

  // ---------------------------------------------------------------- every step counts

  lemma {:induction false} SnapshotLowers(o: Options, s: State, t: Tid, step: SnapshotStep)
    requires SnapshotEnabled(o, s, t, step)
    ensures Lower(SnapshotApply(o, s, t, step), s)
  {
    hide Lower, Published, Lists;
    OneMoves(s, SnapshotApply(o, s, t, step), t);
  }

  lemma {:induction false} SweepRanks(o: Options, s: State, t: Tid, step: SweepStep)
    requires SweepEnabled(o, s, t, step)
    ensures t in SweepApply(o, s, t, step).threads
        && Rank(SweepApply(o, s, t, step).threads[t].task) < Rank(s.threads[t].task)
  {
    hide Reconciled, Touched, Closures, Plans, Lists;
  }

  lemma {:induction false} SweepLowers(o: Options, s: State, t: Tid, step: SweepStep)
    requires SweepEnabled(o, s, t, step)
    ensures Lower(SweepApply(o, s, t, step), s)
  {
    SweepShape(o, s, t, step);
    SweepRanks(o, s, t, step);
    hide Lower, SweepApply, SweepEnabled, Rank;
    OneMoves(s, SweepApply(o, s, t, step), t);
  }

  lemma {:induction false} ReaderLowers(o: Options, s: State, t: Tid, step: ReaderStep)
    requires ReaderEnabled(o, s, t, step)
    ensures Lower(ReaderApply(o, s, t, step), s)
  {
    hide Lower;
    OneMoves(s, ReaderApply(o, s, t, step), t);
  }

  lemma {:induction false} CallLowers(s: State, t: Tid, step: CallStep)
    requires CallEnabled(s, t, step)
    ensures Lower(CallApply(s, t, step), s)
  {
    hide Lower;
    OneMoves(s, CallApply(s, t, step), t);
  }

  lemma {:induction false} LaunchLowers(o: Options, s: State, t: Tid, child: Tid)
    requires Enabled(o, s, Launch(t, child))
    ensures Lower(Apply(o, s, Launch(t, child)), s)
  {
    hide Lower;
    OneForks(s, Apply(o, s, Launch(t, child)), t, child);
  }

  lemma {:induction false} SpawnLowers(o: Options, s: State, t: Tid, child: Tid)
    requires Enabled(o, s, SpawnReader(t, child))
    ensures Lower(SpawnApply(s, t, child), s)
  {
    hide Lower;
    OneForks(s, SpawnApply(s, t, child), t, child);
  }

  lemma {:induction false} StepLowers(o: Options, s: State, a: Action)
    requires Enabled(o, s, a) && !Environment(a)
    ensures Lower(Apply(o, s, a), s)
  {
    hide Lower, SnapshotApply, SweepApply, ReaderApply, CallApply, SpawnApply;
    hide SnapshotEnabled, SweepEnabled, ReaderEnabled, CallEnabled;
    match a
    case Launch(t, child) => hide Apply; LaunchLowers(o, s, t, child);
    case SpawnReader(t, child) => SpawnLowers(o, s, t, child);
    case OnSnapshot(t, step) => SnapshotLowers(o, s, t, step);
    case OnSweep(t, step) => SweepLowers(o, s, t, step);
    case OnReader(t, step) => ReaderLowers(o, s, t, step);
    case OnDevice(t, step) => CallLowers(s, t, step);
  }

  // ---------------------------------------------------------------- scrapers are answered

  /** Inside Snapshot, or waiting to enter it. */
  predicate Scraping(s: State, t: Tid) {
    t in s.threads && (s.threads[t].task.WantSnapshot? || InSnapshot(s.threads[t].task))
  }

  ghost predicate Answered(s: State, t: Tid) {
    exists k :: 0 <= k < |s.served| && s.served[k].tid == t
  }

  ghost predicate Promised(s: State, t: Tid) {
    Scraping(s, t) || Answered(s, t)
  }

  lemma {:induction false} StillAnswered(s: State, s': State, t: Tid)
    requires Answered(s, t) && s.served <= s'.served
    ensures Answered(s', t)
  {
    var k :| 0 <= k < |s.served| && s.served[k].tid == t;
    assert s'.served[k] == s.served[k];
  }

  lemma {:induction false} PromiseOnSnapshot(o: Options, s: State, u: Tid, step: SnapshotStep, t: Tid)
    requires SnapshotEnabled(o, s, u, step) && Promised(s, t)
    ensures Promised(SnapshotApply(o, s, u, step), t)
  {
    hide Published, Lists;
    var s' := SnapshotApply(o, s, u, step);
    if Answered(s, t) {
      StillAnswered(s, s', t);
    } else if u == t && |s'.served| > |s.served| {
      assert s'.served[|s.served|].tid == t;
    }
  }

  lemma {:induction false} PromiseOnSweep(o: Options, s: State, u: Tid, step: SweepStep, t: Tid)
    requires SweepEnabled(o, s, u, step) && Promised(s, t)
    ensures Promised(SweepApply(o, s, u, step), t)
  {
    SweepShape(o, s, u, step);
    ServedOnSweepStays(o, s, u, step);
    hide SweepApply;
    if Answered(s, t) {
      StillAnswered(s, SweepApply(o, s, u, step), t);
    }
  }

  lemma {:induction false} ServedOnSweepStays(o: Options, s: State, u: Tid, step: SweepStep)
    requires SweepEnabled(o, s, u, step)
    ensures SweepApply(o, s, u, step).served == s.served && !s.threads[u].task.WantSnapshot?
  {
    hide Reconciled, Touched, Closures, Plans, Lists;
  }

  lemma {:induction false} PromiseOnReader(o: Options, s: State, u: Tid, step: ReaderStep, t: Tid)
    requires ReaderEnabled(o, s, u, step) && Promised(s, t)
    ensures Promised(ReaderApply(o, s, u, step), t)
  {
    ReaderShape(o, s, u, step);
    ReaderLeavesRecords(o, s, u, step);
    hide ReaderApply;
    if Answered(s, t) {
      StillAnswered(s, ReaderApply(o, s, u, step), t);
    }
  }

  lemma {:induction false} PromiseOnDevice(s: State, u: Tid, step: CallStep, t: Tid)
    requires CallEnabled(s, u, step) && Promised(s, t)
    ensures Promised(CallApply(s, u, step), t)
  {
    CallLeavesRecords(s, u, step);
    if Answered(s, t) {
      StillAnswered(s, CallApply(s, u, step), t);
    }
  }

  lemma {:induction false} PromiseKept(o: Options, s: State, a: Action, t: Tid)
    requires Enabled(o, s, a) && Promised(s, t)
    ensures Promised(Apply(o, s, a), t)
  {
    hide SnapshotApply, SweepApply, ReaderApply, CallApply, SnapshotEnabled, SweepEnabled, ReaderEnabled, CallEnabled;
    match a
    case OnSnapshot(u, step) => PromiseOnSnapshot(o, s, u, step, t);
    case OnSweep(u, step) => PromiseOnSweep(o, s, u, step, t);
    case OnReader(u, step) => PromiseOnReader(o, s, u, step, t);
    case OnDevice(u, step) => PromiseOnDevice(s, u, step, t);
    case _ =>
      if Answered(s, t) {
        StillAnswered(s, Apply(o, s, a), t);
      }
  }

  // ---------------------------------------------------------------- every schedule

  ghost predicate Busy(s: State) {
    exists t :: t in s.threads && !s.threads[t].task.Done?
  }

  /** Picks some thread's possible step for as long as any thread is unfinished, on any ground whatever. */
  ghost predicate Schedules(o: Options, pick: (seq<Action>, State) -> Action) {
    forall past, s :: Inv(o, s) && Busy(s) ==> !Environment(pick(past, s)) && Enabled(o, s, pick(past, s))
  }

  /** There is always such a scheduler, since nothing deadlocks. */
  ghost function SomeSchedule(o: Options): (pick: (seq<Action>, State) -> Action)
    ensures Schedules(o, pick)
  {
    (past: seq<Action>, s: State) => NextStep(o, s)
  }

  ghost function NextStep(o: Options, s: State): (a: Action)
    ensures Inv(o, s) && Busy(s) ==> !Environment(a) && Enabled(o, s, a)
  {
    if Inv(o, s) && Busy(s) then
      BusyCanStep(o, s);
      var a :| !Environment(a) && Enabled(o, s, a); a
    else Tick(0)
  }

  lemma BusyCanStep(o: Options, s: State)
    requires Inv(o, s) && Busy(s)
    ensures exists a :: !Environment(a) && Enabled(o, s, a)
  {
    var t :| t in s.threads && !s.threads[t].task.Done?;
    UnfinishedCanStep(o, s, t);
  }

  /** The run a scheduler drives, with any amount of time passing before each step. */
  ghost predicate Follows(
    o: Options, s: State, past: seq<Action>, run: seq<Action>, wait: seq<Action> -> nat,
        pick: (seq<Action>, State) -> Action)
    requires Legal(o, s, run)
    decreases |run|
  {
    run == [] ||
    (|run| > 1 && run[0] == Tick(wait(past))
     && var later, rest := Apply(o, s, run[0]), run[1..];
        assert Legal(o, later, rest);
        && rest[0] == pick(past + [run[0]], later)
        && Follows(o, Apply(o, later, rest[0]), past + [run[0], rest[0]], rest[1..], wait, pick))
  }

  lemma {:induction false} TickChangesNoTask(s: State, dt: nat)
    ensures var later := s.(now := s.now + dt);
      && Left(later, Distance) == Left(s, Distance) && DevCount(later) == DevCount(s)
      && (forall devs :: Left(later, Calls(devs)) == Left(s, Calls(devs))) && Left(later, Depth) == Left(s, Depth)
      && (Busy(later) <==> Busy(s)) && forall t :: Promised(s, t) ==> Promised(later, t)
  {
    forall t | Promised(s, t) ensures Promised(s.(now := s.now + dt), t) {
      if Answered(s, t) {
        StillAnswered(s, s.(now := s.now + dt), t);
      }
    }
  }

  lemma {:induction false} FinishesFrom(
    o: Options, s: State, past: seq<Action>, wait: seq<Action> -> nat, pick: (seq<Action>, State) -> Action)
        returns (run: seq<Action>)
    requires Inv(o, s) && Schedules(o, pick)
    ensures Legal(o, s, run) && Follows(o, s, past, run, wait, pick) && !Busy(After(o, s, run))
    ensures forall t :: Promised(s, t) ==> Answered(After(o, s, run), t)
    decreases Left(s, Distance), Left(s, Calls(DevCount(s))), Left(s, Depth)
  {
    hide Inv, Enabled, Apply, Left, DevCount, Promised, Follows, Schedules;
    if Busy(s) {
      var tick := Tick(wait(past));
      OneBeat(o, s, past, tick, pick);
      var later := Apply(o, s, tick);
      var a := pick(past + [tick], later);
      var next := Apply(o, later, a);
      var rest := FinishesFrom(o, next, past + [tick, a], wait, pick);
      run := [tick, a] + rest;
      Prepend(o, s, past, tick, a, rest, wait, pick);
    } else {
      run := [];
      AtRest(o, s, past, wait, pick);
    }
  }

  /** Some time passes and the scheduler takes one step: less is left to do, and nobody is forgotten. */
  lemma {:induction false} OneBeat(o: Options, s: State, past: seq<Action>, tick: Action,
      pick: (seq<Action>, State) -> Action)
    requires Inv(o, s) && Busy(s) && Schedules(o, pick) && tick.Tick?
    ensures Enabled(o, s, tick)
    ensures var later := Apply(o, s, tick);
      var a := pick(past + [tick], later);
      && Enabled(o, later, a)
      && var next := Apply(o, later, a);
         Inv(o, next) && Lower(next, s) && forall t :: Promised(s, t) ==> Promised(next, t)
  {
    TimePasses(o, s, tick);
    hide Inv, Enabled, Apply, Lower, Busy, Promised;
    var later := Apply(o, s, tick);
    var a := pick(past + [tick], later);
    InvStep(o, later, a);
    StepLowers(o, later, a);
    var next := Apply(o, later, a);
    LowerThrough(next, later, s);
    forall t | Promised(s, t) ensures Promised(next, t) {
      PromiseKept(o, later, a, t);
    }
  }

  lemma {:induction false} TimePasses(o: Options, s: State, tick: Action)
    requires Inv(o, s) && tick.Tick?
    ensures Enabled(o, s, tick)
    ensures var later := Apply(o, s, tick);
      && Inv(o, later) && SameWork(later, s) && (Busy(s) ==> Busy(later)) && forall t :: Promised(s, t) ==>
          Promised(later, t)
  {
    hide Inv, Left, DevCount, Busy, Promised;
    TickChangesNoTask(s, tick.dt);
    assert Enabled(o, s, tick);
    InvStep(o, s, tick);
  }

  ghost predicate SameWork(s': State, s: State) {
    && Left(s', Distance) == Left(s, Distance) && DevCount(s') == DevCount(s)
    && Left(s', Calls(DevCount(s))) == Left(s, Calls(DevCount(s))) && Left(s', Depth) == Left(s, Depth)
  }

  lemma LowerThrough(next: State, later: State, s: State)
    requires Lower(next, later) && SameWork(later, s)
    ensures Lower(next, s)
  {
    hide Left, DevCount;
  }

  lemma {:induction false} AtRest(o: Options, s: State, past: seq<Action>, wait: seq<Action> -> nat,
      pick: (seq<Action>, State) -> Action)
    requires !Busy(s)
    ensures Legal(o, s, []) && Follows(o, s, past, [], wait, pick) && After(o, s, []) == s
    ensures forall t :: Promised(s, t) ==> Answered(s, t)
  {
    forall t | Promised(s, t) ensures Answered(s, t) {
      NoScraperAtRest(s, t);
    }
  }

  lemma {:induction false} Prepend(
    o: Options, s: State, past: seq<Action>, tick: Action, a: Action, rest: seq<Action>,
    wait: seq<Action> -> nat, pick: (seq<Action>, State) -> Action)
    requires Enabled(o, s, tick) && tick == Tick(wait(past))
    requires var later := Apply(o, s, tick);
      && Enabled(o, later, a) && a == pick(past + [tick], later)
      && Legal(o, Apply(o, later, a), rest) && Follows(o, Apply(o, later, a), past + [tick, a], rest, wait, pick)
    ensures var later, run := Apply(o, s, tick), [tick, a] + rest;
      Legal(o, s, run) && Follows(o, s, past, run, wait, pick) && After(o, s, run) == After(o, Apply(o, later, a), rest)
  {
    hide Enabled, Apply;
    var run := [tick, a] + rest;
    assert run[1..] == [a] + rest && run[1..][1..] == rest;
    assert Legal(o, Apply(o, s, tick), run[1..]);
  }

  lemma {:induction false} NoScraperAtRest(s: State, t: Tid)
    requires !Busy(s)
    ensures !Scraping(s, t)
  {
  }

  /**
   From any reachable state, whatever the scheduler does and however time passes, the threads
   there are come to an end: every sweep, reader and closer is done and every scraper that was
   under way has been handed a snapshot.
   */
  lemma EveryScheduleFinishes(o: Options, s: State, wait: seq<Action> -> nat, pick: (seq<Action>, State) -> Action)
    returns (run: seq<Action>)
    requires Reachable(o, s) && Schedules(o, pick)
    ensures Legal(o, s, run) && Follows(o, s, [], run, wait, pick)
    ensures forall t :: t in After(o, s, run).threads ==> After(o, s, run).threads[t].task.Done?
    ensures forall t :: Scraping(s, t) ==> Answered(After(o, s, run), t)
  {
    InvReachable(o, s);
    hide Inv, Enabled, Apply, Scraping;
    run := FinishesFrom(o, s, [], wait, pick);
    assert forall t :: Scraping(s, t) ==> Promised(s, t);
  }
}
