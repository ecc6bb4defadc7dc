/**
 Which devices a round reads. The copies of the device set are told from a run's actions alone;
 every finished round made exactly one, and its rows are those of that set.
 */
module FleetCopies {
  import opened FleetHistory
  import opened FleetInvariants
  import opened FleetProtocol
  import opened FleetRounds
  import opened FleetServed
  import opened FleetTheorems

  /** The device set, if this action copies it for round j. */
  function CopyFor(s: State, a: Action, j: nat): seq<map<string, Dev>> {
    if a.OnSnapshot? && a.snap.CopyDevices? && j + 1 == |s.rounds| then [s.devices] else []
  }

  /** The device sets a run copies for round j, in order. */
  ghost function CopiesFor(o: Options, s: State, run: seq<Action>, j: nat): seq<map<string, Dev>>
    requires Legal(o, s, run)
    decreases |run|
  {
    if run == [] then [] else CopyFor(s, run[0], j) + CopiesFor(o, Apply(o, s, run[0]), run[1..], j)
  }

  /** What a state holds of them: the set of a round that has ended, or whose owner is past copying. */
  function Holding(s: State, j: nat): seq<map<string, Dev>> {
    if j < |s.rounds| && (s.rounds[j].end.Some? || OwnerCopied(s, s.rounds[j].owner)) then [s.rounds[j].fleet] else []
  }

  predicate OwnerCopied(s: State, t: Tid) {
    t in s.threads && Copied(s.threads[t].task)
  }

  lemma HoldingFrame(s: State, s': State, t: Tid, j: nat)
    requires s'.rounds == s.rounds && t in s'.threads && s'.threads == s.threads[t := s'.threads[t]]
    requires OwnerCopied(s', t) <==> OwnerCopied(s, t)
    ensures Holding(s', j) == Holding(s, j)
  {
    hide Copied;
  }

  lemma HoldingOnSweep(o: Options, s: State, t: Tid, step: SweepStep, j: nat)
    requires SweepEnabled(o, s, t, step)
    ensures Holding(SweepApply(o, s, t, step), j) == Holding(s, j)
  {
    SweepShape(o, s, t, step);
    hide SweepEnabled, SweepApply;
    HoldingFrame(s, SweepApply(o, s, t, step), t, j);
  }

  lemma HoldingOnReader(o: Options, s: State, t: Tid, step: ReaderStep, j: nat)
    requires ReaderEnabled(o, s, t, step)
    ensures Holding(ReaderApply(o, s, t, step), j) == Holding(s, j)
  {
  }

  lemma HoldingOnDevice(s: State, t: Tid, step: CallStep, j: nat)
    requires CallEnabled(s, t, step)
    ensures Holding(CallApply(s, t, step), j) == Holding(s, j)
  {
    CallLeavesRecords(s, t, step);
    HoldingFrame(s, CallApply(s, t, step), t, j);
  }

  lemma HoldingOnSpawn(s: State, t: Tid, child: Tid, j: nat)
    requires OwnersOk(s) && t in s.threads && s.threads[t].task.Spawning? && |s.rounds| > 0 && child !in s.threads
    requires s.threads[t].task.next < |Last(s).devs|
    ensures Holding(SpawnApply(s, t, child), j) == Holding(s, j)
  {
    OwnersOf(s, t);
    OwnersOf(s, child);
    hide OwnersOk;
  }

  lemma HoldingOnSnapshot(o: Options, s: State, t: Tid, step: SnapshotStep, j: nat)
    requires OwnersOk(s) && MutexesOk(s) && RoundLogOk(o, s) && SnapshotEnabled(o, s, t, step)
    ensures Holding(SnapshotApply(o, s, t, step), j) == Holding(s, j) + CopyFor(s, OnSnapshot(t, step), j)
  {
    OwnersOf(s, t);
    OlderRoundsEnded(o, s);
    hide RoundLogOk, SnapshotApply, Holding, CopyFor;
    if s.threads[t].task.CheckCache? {
      NoneOpenAtCheck(s, t);
      HoldingAtCheck(o, s, t, step, j);
    } else {
      HoldingInRound(o, s, t, step, j);
    }
  }

  lemma HoldingInRound(o: Options, s: State, t: Tid, step: SnapshotStep, j: nat)
    requires SnapshotEnabled(o, s, t, step) && !s.threads[t].task.CheckCache?
    requires InRound(s.threads[t].task) ==> Open(s) && Last(s).owner == t
    requires forall j :: 0 <= j < |s.rounds| - 1 ==> s.rounds[j].end.Some?
    ensures Holding(SnapshotApply(o, s, t, step), j) == Holding(s, j) + CopyFor(s, OnSnapshot(t, step), j)
  {
    hide Lists, Published, CacheFresh;
  }

  lemma HoldingAtCheck(o: Options, s: State, t: Tid, step: SnapshotStep, j: nat)
    requires SnapshotEnabled(o, s, t, step) && s.threads[t].task.CheckCache? && !Open(s)
    requires forall j :: 0 <= j < |s.rounds| - 1 ==> s.rounds[j].end.Some?
    ensures Holding(SnapshotApply(o, s, t, step), j) == Holding(s, j) + CopyFor(s, OnSnapshot(t, step), j)
  {
    hide Lists, Published, CacheFresh;
  }

  lemma OlderRoundsEnded(o: Options, s: State)
    requires RoundLogOk(o, s)
    ensures forall j :: 0 <= j < |s.rounds| - 1 ==> s.rounds[j].end.Some?
  {
    var spans := RoundSpans(s.rounds);
    forall j | 0 <= j < |s.rounds| - 1 ensures s.rounds[j].end.Some? {
      assert EndsBefore(spans[j + 1 - 1], spans[j + 1], o.ttl);
    }
  }

  lemma HoldingStep(o: Options, s: State, a: Action, j: nat)
    requires OwnersOk(s) && MutexesOk(s) && RoundLogOk(o, s) && Enabled(o, s, a)
    ensures Holding(Apply(o, s, a), j) == Holding(s, j) + CopyFor(s, a, j)
  {
    hide OwnersOk, MutexesOk, RoundLogOk, SnapshotApply, SweepApply, ReaderApply, CallApply, SpawnApply;
    hide SnapshotEnabled, SweepEnabled, ReaderEnabled, CallEnabled, Holding;
    match a
    case OnSnapshot(t, step) => HoldingOnSnapshot(o, s, t, step, j);
    case OnSweep(t, step) => HoldingOnSweep(o, s, t, step, j);
    case OnReader(t, step) => HoldingOnReader(o, s, t, step, j);
    case OnDevice(t, step) => HoldingOnDevice(s, t, step, j);
    case SpawnReader(t, child) => HoldingOnSpawn(s, t, child, j);
    case _ => HoldingOtherwise(o, s, a, j);
  }

  lemma HoldingOtherwise(o: Options, s: State, a: Action, j: nat)
    requires OwnersOk(s) && Enabled(o, s, a) && (Environment(a) || a.Launch?)
    ensures Holding(Apply(o, s, a), j) == Holding(s, j)
  {
  }

  lemma {:induction false} HoldingOverRun(o: Options, s: State, run: seq<Action>, j: nat)
    requires Inv(o, s) && Legal(o, s, run)
    ensures Holding(After(o, s, run), j) == Holding(s, j) + CopiesFor(o, s, run, j)
    decreases |run|
  {
    hide OwnersOk, MutexesOk, RoundLogOk, Enabled, Apply, Holding, CopyFor;
    if run != [] {
      HoldingStep(o, s, run[0], j);
      hide Inv;
      InvStep(o, s, run[0]);
      HoldingOverRun(o, Apply(o, s, run[0]), run[1..], j);
    }
  }

  /**
   A round that has ended copied the device set once, and what it published is one row for each
   address of that set, as it stood at that moment, and no others.
   */
  lemma RoundsReadTheDeviceSet(o: Options, s0: State, run: seq<Action>, j: nat)
    requires Initial(o, s0) && Legal(o, s0, run)
    requires j < |After(o, s0, run).rounds| && After(o, s0, run).rounds[j].end.Some?
    ensures var r, copies := After(o, s0, run).rounds[j], CopiesFor(o, s0, run, j);
      && |copies| == 1 && OneRowEach(Published(r), copies[0])
      && forall i :: 0 <= i < |r.devs| ==> r.devs[i].host in copies[0] && copies[0][r.devs[i].host] == r.devs[i]
  {
    hide Initial, Legal, After, Inv, Reachable, CopiesFor, Published, OneRowEach;
    var s := After(o, s0, run);
    OneCopy(o, s0, run, j);
    IsReachable(o, s0, run);
    ReadAllIsMapThenSort(o, s, j);
    InvReachable(o, s);
    CompleteLists(o, s, j);
  }

  lemma IsReachable(o: Options, s0: State, run: seq<Action>)
    requires Initial(o, s0) && Legal(o, s0, run)
    ensures Reachable(o, After(o, s0, run))
  {
  }

  lemma OneCopy(o: Options, s0: State, run: seq<Action>, j: nat)
    requires Initial(o, s0) && Legal(o, s0, run)
    requires j < |After(o, s0, run).rounds| && After(o, s0, run).rounds[j].end.Some?
    ensures CopiesFor(o, s0, run, j) == [After(o, s0, run).rounds[j].fleet]
  {
    hide Legal, After, Inv, CopiesFor;
    InvInitially(o, s0);
    HoldingOverRun(o, s0, run, j);
    assert Holding(s0, j) == [];
  }

  lemma CompleteLists(o: Options, s: State, j: nat)
    requires Inv(o, s) && j < |s.rounds| && s.rounds[j].end.Some?
    ensures var r := s.rounds[j];
      forall i :: 0 <= i < |r.devs| ==> r.devs[i].host in r.fleet && r.fleet[r.devs[i].host] == r.devs[i]
  {
    assert RoundsOk(o, s);
    assert Complete(s.rounds[j]);
  }
}
