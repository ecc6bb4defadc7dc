/** What holds of the query round in progress, and of every finished one. */
module FleetRounds {
  import opened Fleet
  import opened FleetInvariants
  import opened FleetProtocol
  import opened Wrappers

  // ---------------------------------------------------------------- who owns the round

  predicate Open(s: State) {
    |s.rounds| > 0 && Last(s).end.None?
  }

  function RoundOwner(s: State): Option<Tid> {
    if Open(s) then Some(Last(s).owner) else None
  }

  /** A round is open exactly while one thread is between deciding on it and publishing it. */
  ghost predicate OwnersOk(s: State) {
    && (forall t :: t in s.threads ==> (InRound(s.threads[t].task) <==> RoundOwner(s) == Some(t)))
    && (RoundOwner(s).Some? ==> RoundOwner(s).value in s.threads)
  }

  lemma OwnersFrame(s: State, s': State, t: Tid, th: Thread)
    requires OwnersOk(s) && s'.threads == s.threads[t := th]
    requires OwnStep(RoundOwner(s), RoundOwner(s'), t)
    requires InRound(th.task) <==> RoundOwner(s') == Some(t)
    ensures OwnersOk(s')
  {
    hide RoundOwner;
  }

  lemma OwnersOf(s: State, t: Tid)
    requires OwnersOk(s)
    ensures t in s.threads ==> (InRound(s.threads[t].task) <==> RoundOwner(s) == Some(t))
    ensures t !in s.threads ==> RoundOwner(s) != Some(t)
  {
  }

  /** A round is only begun when none is open. */
  lemma NoneOpenAtCheck(s: State, t: Tid)
    requires OwnersOk(s) && MutexesOk(s) && t in s.threads && s.threads[t].task.CheckCache?
    ensures !Open(s)
  {
    if Open(s) {
      MutexesOf(s, t);
      OwnersOf(s, t);
      MutexesOf(s, Last(s).owner);
      OwnersOf(s, Last(s).owner);
    }
  }

  lemma RoundChangesHands(o: Options, s: State, t: Tid, step: SnapshotStep)
    requires SnapshotEnabled(o, s, t, step) && (InRound(s.threads[t].task) <==> RoundOwner(s) == Some(t))
    requires s.threads[t].task.CheckCache? ==> RoundOwner(s) == None
    ensures var s' := SnapshotApply(o, s, t, step);
      && OwnStep(RoundOwner(s), RoundOwner(s'), t) && t in s'.threads
      && (InRound(s'.threads[t].task) <==> RoundOwner(s') == Some(t))
  {
    SnapshotMoves(o, s, t, step);
    RoundOwnerMoves(o, s, t, step);
    hide SnapshotApply, Lists, CacheFresh, RoundOwner;
  }

  /** A round opens when one is begun and closes when it is published. */
  lemma RoundOwnerMoves(o: Options, s: State, t: Tid, step: SnapshotStep)
    requires SnapshotEnabled(o, s, t, step)
    ensures var s' := SnapshotApply(o, s, t, step);
      RoundOwner(s') == if step.StartRound? then Some(t) else if step.Publish? then None else RoundOwner(s)
  {
    hide Published, Lists;
  }

  lemma OwnersOnSnapshot(o: Options, s: State, t: Tid, step: SnapshotStep)
    requires OwnersOk(s) && MutexesOk(s) && SnapshotEnabled(o, s, t, step)
    ensures OwnersOk(SnapshotApply(o, s, t, step))
  {
    OwnersOf(s, t);
    if s.threads[t].task.CheckCache? {
      NoneOpenAtCheck(s, t);
    }
    SnapshotShape(o, s, t, step);
    hide OwnersOk, MutexesOk, SnapshotApply, SnapshotEnabled, RoundOwner;
    RoundChangesHands(o, s, t, step);
    var s' := SnapshotApply(o, s, t, step);
    OwnersFrame(s, s', t, s'.threads[t]);
  }

  lemma OwnersOnSweep(o: Options, s: State, t: Tid, step: SweepStep)
    requires OwnersOk(s) && SweepEnabled(o, s, t, step)
    ensures OwnersOk(SweepApply(o, s, t, step))
  {
    OwnersOf(s, t);
    SweepShape(o, s, t, step);
    hide OwnersOk, SweepEnabled, SweepApply;
    var s' := SweepApply(o, s, t, step);
    OwnersFrame(s, s', t, s'.threads[t]);
  }

  lemma OwnersOnReader(o: Options, s: State, t: Tid, step: ReaderStep)
    requires OwnersOk(s) && ReaderEnabled(o, s, t, step)
    ensures OwnersOk(ReaderApply(o, s, t, step))
  {
    OwnersOf(s, t);
    ReaderShape(o, s, t, step);
    hide OwnersOk, ReaderEnabled, ReaderApply;
    var s' := ReaderApply(o, s, t, step);
    OwnersFrame(s, s', t, s'.threads[t]);
  }

  lemma OwnersOnDevice(s: State, t: Tid, step: CallStep)
    requires OwnersOk(s) && CallEnabled(s, t, step)
    ensures OwnersOk(CallApply(s, t, step))
  {
    OwnersOf(s, t);
    hide OwnersOk;
    var s' := CallApply(s, t, step);
    OwnersFrame(s, s', t, s'.threads[t]);
  }

  lemma OwnersOnSpawn(s: State, s': State, t: Tid, child: Tid)
    requires OwnersOk(s) && t in s.threads && child !in s.threads && t in s'.threads && child in s'.threads
    requires s'.threads == s.threads[child := s'.threads[child]][t := s'.threads[t]]
    requires RoundOwner(s') == RoundOwner(s) && !InRound(s'.threads[child].task)
    requires InRound(s.threads[t].task) <==> InRound(s'.threads[t].task)
    ensures OwnersOk(s')
  {
    hide RoundOwner;
  }

  lemma OwnersArrive(s: State, t: Tid, task: Task)
    requires OwnersOk(s) && t !in s.threads && !InRound(task)
    ensures OwnersOk(SetTask(s, t, task))
  {
    OwnersOf(s, t);
    hide OwnersOk;
    OwnersFrame(s, SetTask(s, t, task), t, Thread(task, Outside));
  }

  lemma OwnersOnLaunch(o: Options, s: State, t: Tid, child: Tid)
    requires OwnersOk(s) && Enabled(o, s, Launch(t, child))
    ensures OwnersOk(Apply(o, s, Launch(t, child)))
  {
    hide OwnersOk;
    OwnersOnSpawn(s, Apply(o, s, Launch(t, child)), t, child);
  }

  lemma OwnersOnReaderSpawn(s: State, t: Tid, child: Tid)
    requires OwnersOk(s) && t in s.threads && child !in s.threads
    requires s.threads[t].task.Spawning? && |s.rounds| > 0 && s.threads[t].task.next < |Last(s).devs|
    ensures OwnersOk(SpawnApply(s, t, child))
  {
    hide OwnersOk;
    OwnersOnSpawn(s, SpawnApply(s, t, child), t, child);
  }

  lemma OwnersStep(o: Options, s: State, a: Action)
    requires OwnersOk(s) && MutexesOk(s) && Enabled(o, s, a)
    ensures OwnersOk(Apply(o, s, a))
  {
    hide MutexesOk, SnapshotApply, SweepApply, ReaderApply, CallApply, SpawnApply;
    hide SnapshotEnabled, SweepEnabled, ReaderEnabled, CallEnabled;
    match a
    case Tick(dt) =>
    case CallSnapshot(t) => hide OwnersOk; OwnersArrive(s, t, WantSnapshot);
    case CallClose(t) => hide OwnersOk; OwnersArrive(s, t, WantClose);
    case Launch(t, child) => hide OwnersOk, Apply; OwnersOnLaunch(o, s, t, child);
    case SpawnReader(t, child) => hide OwnersOk; OwnersOnReaderSpawn(s, t, child);
    case OnSnapshot(t, step) => hide OwnersOk; OwnersOnSnapshot(o, s, t, step);
    case OnSweep(t, step) => hide OwnersOk; OwnersOnSweep(o, s, t, step);
    case OnReader(t, step) => hide OwnersOk; OwnersOnReader(o, s, t, step);
    case OnDevice(t, step) => hide OwnersOk; OwnersOnDevice(s, t, step);
  }

  // ---------------------------------------------------------------- readers and their slots

  predicate Written(stage: Stage) {
    stage == Releasing || stage == Leaving
  }

  /** A reader holds its own slot of the round, and its stage says what the slot has seen. */
  predicate ReaderAt(r: Round, t: Tid, i: nat, dev: Dev, stage: Stage) {
    && i in r.live && r.live[i] == t
    && i < |r.devs| == |r.results| && r.devs[i] == dev
    && (i in r.inside <==> InSlot(stage))
    && (r.results[i].Some? <==> Written(stage))
  }

  predicate ReaderOf(s: State, t: Tid, i: nat) {
    t in s.threads && s.threads[t].task.Reader? && s.threads[t].task.slot == i
  }

  /** Readers belong to the open round, one for each slot the WaitGroup still counts. */
  ghost predicate ReadersOk(s: State) {
    && (forall t :: t in s.threads && s.threads[t].task.Reader? ==>
          var task := s.threads[t].task;
          Open(s) && task.round == |s.rounds| - 1 && ReaderAt(Last(s), t, task.slot, task.dev, task.stage))
    && (Open(s) ==> forall i :: i in Last(s).live ==> ReaderOf(s, Last(s).live[i], i))
  }

  lemma ReadersOf(s: State, t: Tid)
    requires ReadersOk(s) && t in s.threads && s.threads[t].task.Reader?
    ensures var task := s.threads[t].task;
            Open(s) && task.round == |s.rounds| - 1 && ReaderAt(Last(s), t, task.slot, task.dev, task.stage)
  {
  }

  lemma ReadersFrame(s: State, s': State, t: Tid, th: Thread)
    requires ReadersOk(s) && s'.threads == s.threads[t := th] && s'.rounds == s.rounds
    requires t !in s.threads || !s.threads[t].task.Reader? ==> !th.task.Reader?
    requires t in s.threads && s.threads[t].task.Reader? ==>
               && th.task.Reader? && th.task.round == s.threads[t].task.round
               && th.task.slot == s.threads[t].task.slot && th.task.dev == s.threads[t].task.dev
               && (InSlot(th.task.stage) <==> InSlot(s.threads[t].task.stage))
               && (Written(th.task.stage) <==> Written(s.threads[t].task.stage))
    ensures ReadersOk(s')
  {
    hide InSlot, Written;
    if Open(s) {
      forall i | i in Last(s).live ensures ReaderOf(s', Last(s).live[i], i) {
        assert ReaderOf(s, Last(s).live[i], i);
      }
    }
  }

  lemma ReadersFresh(s: State, s': State, t: Tid, th: Thread)
    requires ReadersOk(s) && (Open(s) ==> Last(s).live == map[])
    requires s'.threads == s.threads[t := th] && !th.task.Reader? && (Open(s') ==> Last(s').live == map[])
    ensures ReadersOk(s')
  {
  }

  lemma ReadersMove(s: State, s': State, t: Tid, th: Thread, r: Round)
    requires ReadersOk(s) && Open(s) && t in s.threads && s.threads[t].task.Reader? && th.task.Reader?
    requires s'.threads == s.threads[t := th] && s'.rounds == s.rounds[|s.rounds| - 1 := r]
    requires r.end == Last(s).end && r.devs == Last(s).devs && r.live == Last(s).live
        && |r.results| == |Last(s).results|
    requires th.task.round == s.threads[t].task.round && th.task.slot == s.threads[t].task.slot
    requires forall j :: j != th.task.slot ==> (j in r.inside <==> j in Last(s).inside)
    requires forall j :: 0 <= j < |r.results| && j != th.task.slot ==> r.results[j] == Last(s).results[j]
    requires ReaderAt(r, t, th.task.slot, th.task.dev, th.task.stage)
    ensures ReadersOk(s')
  {
    hide InSlot, Written;
  }

  lemma ReadersLeave(s: State, s': State, t: Tid)
    requires ReadersOk(s) && Open(s) && t in s.threads && s.threads[t].task.Reader?
    requires s'.threads == s.threads[t := Thread(Done, Outside)]
    requires s'.rounds == s.rounds[|s.rounds| - 1 := Last(s).(live := Last(s).live - {s.threads[t].task.slot})]
    ensures ReadersOk(s')
  {
    hide InSlot, Written;
    forall i | i in Last(s').live ensures ReaderOf(s', Last(s').live[i], i) {
      assert ReaderOf(s, Last(s).live[i], i);
    }
  }

  lemma ReadersOnSnapshot(o: Options, s: State, t: Tid, step: SnapshotStep)
    requires ReadersOk(s) && OwnersOk(s) && MutexesOk(s) && RoundsOk(o, s) && SnapshotEnabled(o, s, t, step)
    ensures ReadersOk(SnapshotApply(o, s, t, step))
  {
    OwnersOf(s, t);
    if s.threads[t].task.CheckCache? {
      NoneOpenAtCheck(s, t);
    } else if step.CopyDevices? {
      assert Last(s).live == map[];
    }
    hide ReadersOk, OwnersOk, MutexesOk, RoundsOk, Published, Lists;
    var s' := SnapshotApply(o, s, t, step);
    if step.LockSnapshot? || step.ServeCached? || step.AllSpawned? {
      ReadersFrame(s, s', t, s'.threads[t]);
    } else {
      ReadersFresh(s, s', t, s'.threads[t]);
    }
  }

  lemma ReadersOnSweep(o: Options, s: State, t: Tid, step: SweepStep)
    requires ReadersOk(s) && SweepEnabled(o, s, t, step)
    ensures ReadersOk(SweepApply(o, s, t, step))
  {
    SweepShape(o, s, t, step);
    hide ReadersOk, SweepEnabled, SweepApply;
    var s' := SweepApply(o, s, t, step);
    ReadersFrame(s, s', t, s'.threads[t]);
  }

  lemma ReadersOnReader(o: Options, s: State, t: Tid, step: ReaderStep)
    requires ReadersOk(s) && ReaderEnabled(o, s, t, step)
    ensures ReadersOk(ReaderApply(o, s, t, step))
  {
    ReadersOf(s, t);
    ReaderShape(o, s, t, step);
    hide ReadersOk, ReaderOf;
    var s' := ReaderApply(o, s, t, step);
    if step.LeaveRound? {
      ReadersLeave(s, s', t);
    } else {
      ReadersMove(s, s', t, s'.threads[t], Last(s'));
    }
  }

  lemma ReadersOnDevice(s: State, t: Tid, step: CallStep)
    requires ReadersOk(s) && CallEnabled(s, t, step)
    ensures ReadersOk(CallApply(s, t, step))
  {
    hide ReadersOk;
    var s' := CallApply(s, t, step);
    ReadersFrame(s, s', t, s'.threads[t]);
  }

  lemma ReadersOnSpawn(o: Options, s: State, t: Tid, child: Tid)
    requires ReadersOk(s) && OwnersOk(s) && RoundsOk(o, s) && Enabled(o, s, SpawnReader(t, child))
    ensures ReadersOk(SpawnApply(s, t, child))
  {
    OwnersOf(s, t);
    var r, k := Last(s), s.threads[t].task.next;
    assert k < |r.results| == |r.devs| && k !in r.live && k !in r.inside && r.results[k].None? by {
      assert RoundOk(o, r, k);
      assert SlotOk(r, k, k);
    }
    hide OwnersOk, RoundsOk, Enabled;
    var s' := SpawnApply(s, t, child);
    ReadersJoin(s, s', t, child, k);
  }

  lemma ReadersJoin(s: State, s': State, t: Tid, child: Tid, k: nat)
    requires ReadersOk(s) && Open(s) && t in s.threads && !s.threads[t].task.Reader? && child !in s.threads
    requires var r := Last(s);
      && k < |r.results| == |r.devs| && k !in r.live && k !in r.inside && r.results[k].None?
      && s'.rounds == s.rounds[|s.rounds| - 1 := r.(live := r.live[k := child])]
      && s'.threads
         == s.threads[child := Thread(Reader(|s.rounds| - 1, k, r.devs[k], WantSlot, None), Outside)]
                     [t := Thread(Spawning(k + 1), Outside)]
    ensures ReadersOk(s')
  {
    hide Written, InSlot;
    var r := Last(s);
    forall i | i in Last(s').live ensures ReaderOf(s', Last(s').live[i], i) {
      if i != k {
        assert ReaderOf(s, r.live[i], i);
      }
    }
    forall u | u in s'.threads && s'.threads[u].task.Reader?
      ensures var task := s'.threads[u].task;
              Open(s') && task.round == |s'.rounds| - 1 && ReaderAt(Last(s'), u, task.slot, task.dev, task.stage)
    {
      if u == child {
        SpawnedAt(r, k, child);
      } else {
        ReadersOf(s, u);
      }
    }
  }

  lemma SpawnedAt(r: Round, k: nat, child: Tid)
    requires k < |r.devs| == |r.results| && k !in r.inside && r.results[k].None?
    ensures ReaderAt(r.(live := r.live[k := child]), child, k, r.devs[k], WantSlot)
  {
  }

  lemma ReadersArrive(s: State, t: Tid, task: Task)
    requires ReadersOk(s) && !task.Reader? && t !in s.threads
    ensures ReadersOk(SetTask(s, t, task))
  {
    hide ReadersOk;
    ReadersFrame(s, SetTask(s, t, task), t, Thread(task, Outside));
  }

  lemma ReadersOnLaunch(o: Options, s: State, t: Tid, child: Tid)
    requires ReadersOk(s) && Enabled(o, s, Launch(t, child))
    ensures ReadersOk(Apply(o, s, Launch(t, child)))
  {
    ReadersArrive(s, child, Sweeping(false));
    hide ReadersOk;
    var s1, s2 := SetTask(s, child, Sweeping(false)), Apply(o, s, Launch(t, child));
    ReadersFrame(s1, s2, t, s2.threads[t]);
  }

  lemma ReadersOnTick(s: State, dt: nat)
    requires ReadersOk(s)
    ensures ReadersOk(s.(now := s.now + dt))
  {
    var s' := s.(now := s.now + dt);
    if Open(s) {
      forall i | i in Last(s).live ensures ReaderOf(s', Last(s).live[i], i) {
        assert ReaderOf(s, Last(s).live[i], i);
      }
    }
  }

  lemma ReadersStep(o: Options, s: State, a: Action)
    requires ReadersOk(s) && OwnersOk(s) && MutexesOk(s) && RoundsOk(o, s) && Enabled(o, s, a)
    ensures ReadersOk(Apply(o, s, a))
  {
    hide ReadersOk, OwnersOk, MutexesOk, RoundsOk, SnapshotApply, SweepApply, ReaderApply, CallApply, SpawnApply;
    hide SnapshotEnabled, SweepEnabled, ReaderEnabled, CallEnabled;
    match a
    case Tick(dt) => ReadersOnTick(s, dt);
    case CallSnapshot(t) => ReadersArrive(s, t, WantSnapshot);
    case CallClose(t) => ReadersArrive(s, t, WantClose);
    case Launch(t, child) => ReadersOnLaunch(o, s, t, child);
    case SpawnReader(t, child) => ReadersOnSpawn(o, s, t, child);
    case OnSnapshot(t, step) => ReadersOnSnapshot(o, s, t, step);
    case OnSweep(t, step) => ReadersOnSweep(o, s, t, step);
    case OnReader(t, step) => ReadersOnReader(o, s, t, step);
    case OnDevice(t, step) => ReadersOnDevice(s, t, step);
  }

  // ---------------------------------------------------------------- slots and results

  /** How many readers the owner of the open round has spawned. */
  function SpawnedBy(task: Task, r: Round): nat {
    if task.Spawning? then task.next else if task.Waiting? then |r.devs| else 0
  }

  predicate Copied(task: Task) {
    task.Spawning? || task.Waiting?
  }

  predicate SlotOk(r: Round, k: nat, i: nat)
    requires i < |r.devs| == |r.results| == |r.writes|
  {
    && r.writes[i] == (if r.results[i].Some? then 1 else 0)
    && (r.results[i].Some? ==> r.results[i].value.host == r.devs[i].host)
    && (i >= k ==> r.results[i].None?)
    && (i < k && i !in r.live ==> r.results[i].Some?)
  }

  /** The open round after k readers were spawned: no slot has been written twice or by another reader. */
  ghost predicate RoundOk(o: Options, r: Round, k: nat) {
    && k <= |r.devs| == |r.results| == |r.writes|
    && r.inside <= r.live.Keys && |r.inside| <= o.concurrency
    && (forall i :: i in r.live ==> i < k)
    && (forall i: nat :: i < |r.devs| ==> SlotOk(r, k, i))
  }

  ghost predicate OpenOk(o: Options, r: Round, task: Task) {
    && RoundOk(o, r, SpawnedBy(task, r))
    && (if Copied(task) then Lists(r.devs, r.fleet) && HostKeyed(r.fleet) else r.devs == [])
  }

  /** A finished round: every device it listed was written exactly once, and nothing is still running. */
  ghost predicate Complete(r: Round) {
    && |r.devs| == |r.results| == |r.writes| && r.live == map[] && r.inside == {}
    && Lists(r.devs, r.fleet) && HostKeyed(r.fleet)
    && forall i :: 0 <= i < |r.devs| ==>
        r.writes[i] == 1 && r.results[i].Some? && r.results[i].value.host == r.devs[i].host
  }

  ghost predicate RoundsOk(o: Options, s: State) {
    && (forall j :: 0 <= j < |s.rounds| && s.rounds[j].end.Some? ==> Complete(s.rounds[j]))
    && (Open(s) ==> Last(s).owner in s.threads && OpenOk(o, Last(s), s.threads[Last(s).owner].task))
  }

  lemma RoundsFrame(o: Options, s: State, s': State, t: Tid, th: Thread)
    requires RoundsOk(o, s) && s'.threads == s.threads[t := th] && s'.rounds == s.rounds
    requires Open(s) && Last(s).owner == t ==>
               && SpawnedBy(th.task, Last(s)) == SpawnedBy(s.threads[t].task, Last(s))
               && Copied(th.task) == Copied(s.threads[t].task)
    ensures RoundsOk(o, s')
  {
    hide RoundOk, Complete, Lists, HostKeyed;
  }

  /** The open round's contents change; finished rounds do not. */
  lemma RoundsMove(o: Options, s: State, s': State, t: Tid, th: Thread, r: Round)
    requires RoundsOk(o, s) && Open(s) && s'.threads == s.threads[t := th] && s'.rounds == s.rounds[|s.rounds| - 1 := r]
    requires r.owner == Last(s).owner
    requires if r.end.None? then OpenOk(o, r, if r.owner == t then th.task else s.threads[r.owner].task)
      else Complete(r)
    ensures RoundsOk(o, s')
  {
    hide OpenOk, Complete;
  }

  lemma RoundsOf(o: Options, s: State)
    requires RoundsOk(o, s) && Open(s)
    ensures Last(s).owner in s.threads && OpenOk(o, Last(s), s.threads[Last(s).owner].task)
  {
  }

  lemma RoundsBegin(o: Options, s: State, s': State, t: Tid, th: Thread)
    requires RoundsOk(o, s) && !Open(s) && !Copied(th.task) && s'.threads == s.threads[t := th]
    requires s'.rounds == s.rounds + [Round(t, s.now, None, map[], [], [], [], {}, map[])]
    ensures RoundsOk(o, s')
  {
    hide Complete;
  }

  lemma CopyOk(o: Options, r: Round, fleet: map<string, Dev>, devs: seq<Dev>)
    requires RoundOk(o, r, 0) && Lists(devs, fleet) && HostKeyed(fleet)
    ensures OpenOk(o, r.(fleet := fleet, devs := devs, results := seq(|devs|, _ => None),
        writes := seq(|devs|, _ => 0)), Spawning(0))
  {
    hide Lists, HostKeyed;
  }

  lemma PublishOk(o: Options, r: Round, end: int)
    requires OpenOk(o, r, Waiting) && r.live == map[]
    ensures Complete(r.(end := Some(end)))
  {
    hide Lists, HostKeyed;
    forall i | 0 <= i < |r.devs|
      ensures r.writes[i] == 1 && r.results[i].Some? && r.results[i].value.host == r.devs[i].host
    {
      assert SlotOk(r, |r.devs|, i);
    }
  }

  lemma RoundsOnSnapshot(o: Options, s: State, t: Tid, step: SnapshotStep)
    requires OwnersOk(s) && MutexesOk(s) && DevicesOk(o, s) && RoundsOk(o, s) && SnapshotEnabled(o, s, t, step)
    ensures RoundsOk(o, SnapshotApply(o, s, t, step))
  {
    OwnersOf(s, t);
    if s.threads[t].task.CheckCache? {
      NoneOpenAtCheck(s, t);
    }
    hide OwnersOk, MutexesOk, RoundsOk, Published, Lists, HostKeyed, RoundOk, Complete;
    var s' := SnapshotApply(o, s, t, step);
    var th := s'.threads[t];
    match step
    case StartRound => RoundsBegin(o, s, s', t, th);
    case CopyDevices(devs) =>
      RoundsOf(o, s);
      CopyOk(o, Last(s), s.devices, devs);
      RoundsMove(o, s, s', t, th, Last(s'));
    case Publish =>
      RoundsOf(o, s);
      PublishOk(o, Last(s), s.now);
      RoundsMove(o, s, s', t, th, Last(s'));
    case _ => RoundsFrame(o, s, s', t, th);
  }

  lemma RoundsOnSweep(o: Options, s: State, t: Tid, step: SweepStep)
    requires OwnersOk(s) && RoundsOk(o, s) && SweepEnabled(o, s, t, step)
    ensures RoundsOk(o, SweepApply(o, s, t, step))
  {
    SweepShape(o, s, t, step);
    hide OwnersOk, RoundsOk, SweepEnabled, SweepApply;
    var s' := SweepApply(o, s, t, step);
    RoundsFrame(o, s, s', t, s'.threads[t]);
  }

  /** One reader's step keeps the round's accounts. */
  lemma SlotStep(o: Options, r: Round, k: nat, t: Tid, i: nat, dev: Dev, stage: Stage, row: FleetProtocol.Result,
      step: ReaderStep)
    requires RoundOk(o, r, k) && ReaderAt(r, t, i, dev, stage) && row.host == dev.host
    requires match step
      case TakeSlot => stage == WantSlot && |r.inside| < o.concurrency
      case WriteResult => stage == Writing
      case ReleaseSlot => stage == Releasing
      case LeaveRound => stage == Leaving
    ensures RoundOk(o, SlotAfter(r, i, row, step), k)
  {
    assert SlotOk(r, k, i);
    var r' := SlotAfter(r, i, row, step);
    forall j: nat | j < |r.devs| ensures SlotOk(r', k, j) {
      assert SlotOk(r, k, j);
    }
  }

  /** A reader works in the open round, which another thread owns. */
  lemma ReaderInOpen(o: Options, s: State, t: Tid, step: ReaderStep)
    requires OwnersOk(s) && ReadersOk(s) && RoundsOk(o, s) && ReaderEnabled(o, s, t, step)
    ensures var task, r := s.threads[t].task, Last(s);
      && Open(s) && task.round == |s.rounds| - 1 && r.owner != t && r.owner in s.threads
      && ReaderAt(r, t, task.slot, task.dev, task.stage) && OpenOk(o, r, s.threads[r.owner].task)
  {
    ReadersOf(s, t);
    OwnersOf(s, t);
    RoundsOf(o, s);
    hide OwnersOk, ReadersOk, RoundsOk, ReaderEnabled, OpenOk, ReaderAt;
  }

  lemma ReaderWrites(o: Options, s: State, t: Tid, step: ReaderStep)
    requires ReaderEnabled(o, s, t, step)
    ensures var task, s' := s.threads[t].task, ReaderApply(o, s, t, step);
      && t in s'.threads && s'.threads == s.threads[t := s'.threads[t]]
      && s'.rounds
         == s.rounds[task.round := SlotAfter(s.rounds[task.round], task.slot, Row(task.dev.host, task.got), step)]
  {
  }

  lemma SlotOpen(o: Options, r: Round, owner: Task, t: Tid, i: nat, dev: Dev, stage: Stage, row: FleetProtocol.Result,
      step: ReaderStep)
    requires OpenOk(o, r, owner) && ReaderAt(r, t, i, dev, stage) && row.host == dev.host
    requires match step
      case TakeSlot => stage == WantSlot && |r.inside| < o.concurrency
      case WriteResult => stage == Writing && i < |r.results| == |r.writes|
      case ReleaseSlot => stage == Releasing
      case LeaveRound => stage == Leaving
    ensures var r' := SlotAfter(r, i, row, step);
      OpenOk(o, r', owner) && r'.owner == r.owner && r'.end == r.end
  {
    SlotStep(o, r, SpawnedBy(owner, r), t, i, dev, stage, row, step);
    hide RoundOk, Lists, HostKeyed, ReaderAt;
  }

  lemma RoundsOnReader(o: Options, s: State, t: Tid, step: ReaderStep)
    requires OwnersOk(s) && ReadersOk(s) && RoundsOk(o, s) && ReaderEnabled(o, s, t, step)
    ensures RoundsOk(o, ReaderApply(o, s, t, step))
  {
    ReaderInOpen(o, s, t, step);
    ReaderWrites(o, s, t, step);
    var task, r, s' := s.threads[t].task, Last(s), ReaderApply(o, s, t, step);
    var row := Row(task.dev.host, task.got);
    hide OwnersOk, ReadersOk, RoundsOk, ReaderApply, ReaderAt, OpenOk, Complete, SlotAfter;
    SlotOpen(o, r, s.threads[r.owner].task, t, task.slot, task.dev, task.stage, row, step);
    hide ReaderEnabled;
    RoundsMove(o, s, s', t, s'.threads[t], SlotAfter(r, task.slot, row, step));
  }

  lemma RoundsOnDevice(o: Options, s: State, t: Tid, step: CallStep)
    requires RoundsOk(o, s) && CallEnabled(s, t, step)
    ensures RoundsOk(o, CallApply(s, t, step))
  {
    hide RoundsOk;
    var s' := CallApply(s, t, step);
    RoundsFrame(o, s, s', t, s'.threads[t]);
  }

  lemma RoundsOnSpawn(o: Options, s: State, t: Tid, child: Tid)
    requires OwnersOk(s) && RoundsOk(o, s) && Enabled(o, s, SpawnReader(t, child))
    ensures RoundsOk(o, SpawnApply(s, t, child))
  {
    OwnersOf(s, t);
    RoundsOf(o, s);
    var r, k := Last(s), s.threads[t].task.next;
    var r', n := r.(live := r.live[k := child]), k + 1;
    assert OpenOk(o, r', Spawning(n)) by {
      forall i: nat | i < |r.devs| ensures SlotOk(r', n, i) {
        assert SlotOk(r, k, i);
      }
    }
    hide OwnersOk, OpenOk, Complete;
    var s' := SpawnApply(s, t, child);
    assert Last(s') == r' && s'.threads[t].task == Spawning(n);
  }

  lemma RoundsStep(o: Options, s: State, a: Action)
    requires OwnersOk(s) && MutexesOk(s) && DevicesOk(o, s) && ReadersOk(s) && RoundsOk(o, s) && Enabled(o, s, a)
    ensures RoundsOk(o, Apply(o, s, a))
  {
    if a.Launch? || a.CallSnapshot? || a.CallClose? {
      OwnersOf(s, a.t);
    }
    hide OwnersOk, ReadersOk, MutexesOk, DevicesOk, OpenOk, Complete, SnapshotApply, SweepApply, ReaderApply,
        CallApply, SpawnApply;
    hide SnapshotEnabled, SweepEnabled, ReaderEnabled, CallEnabled;
    match a
    case Launch(t, child) => RoundsOnLaunch(o, s, t, child);
    case SpawnReader(t, child) => RoundsOnSpawn(o, s, t, child);
    case OnSnapshot(t, step) => RoundsOnSnapshot(o, s, t, step);
    case OnSweep(t, step) => RoundsOnSweep(o, s, t, step);
    case OnReader(t, step) => RoundsOnReader(o, s, t, step);
    case OnDevice(t, step) => RoundsOnDevice(o, s, t, step);
    case _ =>
  }

  lemma RoundsOnLaunch(o: Options, s: State, t: Tid, child: Tid)
    requires RoundsOk(o, s) && Enabled(o, s, Launch(t, child))
    ensures RoundsOk(o, Apply(o, s, Launch(t, child)))
  {
    hide RoundOk, Complete, Lists, HostKeyed;
  }
}
