/** The snapshot cache, and where every snapshot handed out came from. */
module FleetServed {
  import opened Fleet
  import opened FleetHistory
  import opened FleetInvariants
  import opened FleetProtocol
  import opened FleetRounds
  import opened Wrappers

  // ---------------------------------------------------------------- rounds in time

  function RoundSpans(rounds: seq<Round>): seq<Span> {
    seq(|rounds|, i requires 0 <= i < |rounds| => Span(rounds[i].start, rounds[i].end))
  }

  /** Query rounds never overlap, and each begins at least CacheTTL after the one before ended. */
  ghost predicate RoundLogOk(o: Options, s: State) {
    Spaced(RoundSpans(s.rounds), o.ttl, s.now, Open(s))
  }

  /** How many rounds have finished. */
  function Finished(s: State): nat {
    if Open(s) then |s.rounds| - 1 else |s.rounds|
  }

  /** The cache holds what the last finished round published, stamped with when it ended. */
  ghost predicate CacheOk(s: State) {
    if Finished(s) == 0 then s.snapshot.None?
    else
      && s.rounds[Finished(s) - 1].end == Some(s.snapshotTime)
      && s.snapshot == Some(Published(s.rounds[Finished(s) - 1]))
  }

  lemma SpansBegin(rounds: seq<Round>, r: Round)
    ensures RoundSpans(rounds + [r]) == RoundSpans(rounds) + [Span(r.start, r.end)]
  {
  }

  lemma SpansSet(rounds: seq<Round>, r: Round)
    requires |rounds| > 0
    ensures RoundSpans(rounds[|rounds| - 1 := r]) == RoundSpans(rounds)[|rounds| - 1 := Span(r.start, r.end)]
  {
  }

  /** The rounds of s' tell the same times as those of s, and the finished ones are untouched. */
  ghost predicate SameTimes(s: State, s': State) {
    && |s'.rounds| == |s.rounds|
    && (forall j :: 0 <= j < |s.rounds| ==>
        s'.rounds[j].start == s.rounds[j].start && s'.rounds[j].end == s.rounds[j].end)
    && (forall j :: 0 <= j < |s.rounds| && s.rounds[j].end.Some? ==> s'.rounds[j] == s.rounds[j])
  }

  lemma CacheFrame(o: Options, s: State, s': State)
    requires RoundLogOk(o, s) && CacheOk(s) && SameTimes(s, s')
    requires s'.now == s.now && s'.snapshot == s.snapshot && s'.snapshotTime == s.snapshotTime
    ensures RoundLogOk(o, s') && CacheOk(s')
  {
    hide Published, Spaced;
    assert RoundSpans(s'.rounds) == RoundSpans(s.rounds);
  }

  lemma TimesOnReader(o: Options, s: State, t: Tid, step: ReaderStep)
    requires ReadersOk(s) && ReaderEnabled(o, s, t, step)
    ensures SameTimes(s, ReaderApply(o, s, t, step))
  {
    ReadersOf(s, t);
    ReaderShape(o, s, t, step);
    hide ReadersOk, ReaderEnabled, ReaderApply, ReaderAt;
  }

  lemma CacheOnSweep(o: Options, s: State, t: Tid, step: SweepStep)
    requires SweepEnabled(o, s, t, step)
    ensures var s' := SweepApply(o, s, t, step);
            s'.now == s.now && s'.rounds == s.rounds && s'.snapshot == s.snapshot
                && s'.snapshotTime == s.snapshotTime && s'.served == s.served
  {
    hide Reconciled, Touched, Closures, Plans, Lists;
  }

  lemma TimesOnSpawn(s: State, t: Tid, child: Tid)
    requires OwnersOk(s) && t in s.threads && s.threads[t].task.Spawning? && |s.rounds| > 0
        && s.threads[t].task.next < |Last(s).devs|
    ensures SameTimes(s, SpawnApply(s, t, child))
  {
    OwnersOf(s, t);
    hide OwnersOk;
  }

  lemma CacheAtPublish(o: Options, s: State, t: Tid)
    requires RoundLogOk(o, s) && Open(s)
    ensures RoundLogOk(o, PublishRound(s, t)) && CacheOk(PublishRound(s, t))
  {
    hide Spaced, SortRows, Rows;
    var s' := PublishRound(s, t);
    SpansSet(s.rounds, Last(s'));
    assert RoundSpans(s.rounds)[|s.rounds| - 1].(end := Some(s.now)) == Span(Last(s').start, Last(s').end);
    SpacedEnd(RoundSpans(s.rounds), o.ttl, s.now);
  }

  lemma CacheAtStart(o: Options, s: State, s': State, r: Round)
    requires RoundLogOk(o, s) && CacheOk(s) && !Open(s) && !CacheFresh(o, s)
    requires s'.rounds == s.rounds + [r] && r.start == s.now && r.end == None
    requires s'.now == s.now && s'.snapshot == s.snapshot && s'.snapshotTime == s.snapshotTime
    ensures RoundLogOk(o, s') && CacheOk(s')
  {
    hide Spaced, Published;
    SpansBegin(s.rounds, r);
    SpacedBegin(RoundSpans(s.rounds), o.ttl, s.now);
  }

  lemma CacheOnSnapshot(o: Options, s: State, t: Tid, step: SnapshotStep)
    requires OwnersOk(s) && MutexesOk(s) && RoundLogOk(o, s) && CacheOk(s) && SnapshotEnabled(o, s, t, step)
    ensures RoundLogOk(o, SnapshotApply(o, s, t, step)) && CacheOk(SnapshotApply(o, s, t, step))
  {
    OwnersOf(s, t);
    if step.StartRound? {
      NoneOpenAtCheck(s, t);
    }
    hide OwnersOk, MutexesOk, RoundLogOk, CacheOk, PublishRound, Published, Lists;
    var s' := SnapshotApply(o, s, t, step);
    match step
    case StartRound => CacheAtStart(o, s, s', Last(s'));
    case Publish => CacheAtPublish(o, s, t);
    case _ => CacheFrame(o, s, s');
  }

  lemma CacheOnReader(o: Options, s: State, t: Tid, step: ReaderStep)
    requires RoundLogOk(o, s) && CacheOk(s) && ReadersOk(s) && ReaderEnabled(o, s, t, step)
    ensures RoundLogOk(o, ReaderApply(o, s, t, step)) && CacheOk(ReaderApply(o, s, t, step))
  {
    ReaderLeavesRecords(o, s, t, step);
    TimesOnReader(o, s, t, step);
    hide RoundLogOk, CacheOk, ReadersOk, ReaderApply, ReaderEnabled;
    CacheFrame(o, s, ReaderApply(o, s, t, step));
  }

  lemma CacheOnSpawn(o: Options, s: State, t: Tid, child: Tid)
    requires RoundLogOk(o, s) && CacheOk(s) && OwnersOk(s) && t in s.threads
    requires s.threads[t].task.Spawning? && |s.rounds| > 0 && s.threads[t].task.next < |Last(s).devs|
    ensures RoundLogOk(o, SpawnApply(s, t, child)) && CacheOk(SpawnApply(s, t, child))
  {
    TimesOnSpawn(s, t, child);
    SpawnLeavesRecords(s, t, child);
    hide RoundLogOk, CacheOk, OwnersOk, SpawnApply;
    CacheFrame(o, s, SpawnApply(s, t, child));
  }

  lemma CacheOnOthers(o: Options, s: State, a: Action)
    requires RoundLogOk(o, s) && CacheOk(s) && Enabled(o, s, a)
    requires a.OnSweep? || a.OnDevice? || a.CallSnapshot? || a.CallClose? || a.Launch?
    ensures RoundLogOk(o, Apply(o, s, a)) && CacheOk(Apply(o, s, a))
  {
    hide RoundLogOk, CacheOk, SweepApply, CallApply, SweepEnabled, CallEnabled;
    if a.OnSweep? {
      CacheOnSweep(o, s, a.t, a.sweep);
    } else if a.OnDevice? {
      CallLeavesRecords(s, a.t, a.call);
    }
    CacheFrame(o, s, Apply(o, s, a));
  }

  lemma CacheStep(o: Options, s: State, a: Action)
    requires OwnersOk(s) && MutexesOk(s) && ReadersOk(s) && RoundLogOk(o, s) && CacheOk(s) && Enabled(o, s, a)
    ensures RoundLogOk(o, Apply(o, s, a)) && CacheOk(Apply(o, s, a))
  {
    hide OwnersOk, MutexesOk, ReadersOk, RoundLogOk, CacheOk, SnapshotApply, SweepApply, ReaderApply, CallApply;
    hide SpawnApply, SnapshotEnabled, SweepEnabled, ReaderEnabled, CallEnabled;
    match a
    case Tick(dt) => CacheOnTick(o, s, dt);
    case OnSnapshot(t, step) => CacheOnSnapshot(o, s, t, step);
    case OnReader(t, step) => CacheOnReader(o, s, t, step);
    case SpawnReader(t, child) => CacheOnSpawn(o, s, t, child);
    case _ => hide Apply; CacheOnOthers(o, s, a);
  }

  lemma SpawnLeavesRecords(s: State, t: Tid, child: Tid)
    requires t in s.threads && s.threads[t].task.Spawning? && |s.rounds| > 0 && s.threads[t].task.next < |Last(s).devs|
    ensures SameRecords(s, SpawnApply(s, t, child))
  {
  }

  lemma CacheOnTick(o: Options, s: State, dt: nat)
    requires RoundLogOk(o, s) && CacheOk(s)
    ensures var s' := s.(now := s.now + dt); RoundLogOk(o, s') && CacheOk(s')
  {
    hide Published, Spaced;
    SpacedTick(RoundSpans(s.rounds), o.ttl, s.now, Open(s), dt);
  }

  // ---------------------------------------------------------------- snapshots handed out

  /** Run by the caller itself: checked when the round began, returned when it ended. */
  predicate OwnRound(v: Served, r: Round) {
    r.owner == v.tid && v.check == r.start && r.end == Some(v.at)
  }

  /** Answered from the cache: the round had ended less than CacheTTL before the check. */
  predicate FromCache(o: Options, v: Served, r: Round) {
    r.end.Some? && 0 <= v.check - r.end.value < o.ttl && v.at == v.check
  }

  /** A first sweep had finished by then. */
  predicate SweptBy(sweeps: seq<Span>, at: int) {
    |sweeps| > 0 && sweeps[0].end.Some? && sweeps[0].end.value <= at
  }

  ghost predicate ServedRight(o: Options, s: State, v: Served) {
    && v.round < |s.rounds| && s.rounds[v.round].end.Some? && v.rows == Published(s.rounds[v.round])
    && (OwnRound(v, s.rounds[v.round]) || FromCache(o, v, s.rounds[v.round]))
    && (o.discovery ==> SweptBy(s.sweeps, v.at))
  }

  ghost predicate ServedOk(o: Options, s: State) {
    forall k :: 0 <= k < |s.served| ==> ServedRight(o, s, s.served[k])
  }

  /** What is finished stays as it is. */
  ghost predicate Extends(s: State, s': State) {
    && (forall j :: 0 <= j < |s.rounds| && s.rounds[j].end.Some? ==> j < |s'.rounds| && s'.rounds[j] == s.rounds[j])
    && (|s.sweeps| > 0 && s.sweeps[0].end.Some? ==> |s'.sweeps| > 0 && s'.sweeps[0] == s.sweeps[0])
  }

  lemma ServedFrame(o: Options, s: State, s': State)
    requires ServedOk(o, s) && Extends(s, s') && s'.served == s.served
    ensures ServedOk(o, s')
  {
    hide Published, OwnRound, FromCache, SweptBy;
    forall k | 0 <= k < |s'.served| ensures ServedRight(o, s', s'.served[k]) {
      assert ServedRight(o, s, s.served[k]);
      StillSwept(s, s', s.served[k].at);
    }
  }

  lemma StillSwept(s: State, s': State, at: int)
    requires Extends(s, s')
    ensures SweptBy(s.sweeps, at) ==> SweptBy(s'.sweeps, at)
  {
  }

  lemma ServedMore(o: Options, s: State, s': State, v: Served)
    requires ServedOk(o, s) && Extends(s, s') && s'.served == s.served + [v] && ServedRight(o, s', v)
    ensures ServedOk(o, s')
  {
    ServedFrame(o, s, s'.(served := s.served));
    hide Published, OwnRound, FromCache, SweptBy;
    forall k | 0 <= k < |s'.served| ensures ServedRight(o, s', s'.served[k]) {
      if k < |s.served| {
        assert ServedRight(o, s'.(served := s.served), s.served[k]);
      }
    }
  }

  /** Once lastDiscovery is set, the first sweep is over. */
  lemma Swept(o: Options, s: State)
    requires SweepLogOk(o, s) && s.lastDiscovery.Some?
    ensures SweptBy(s.sweeps, s.now)
  {
    if |s.sweeps| > 1 {
      assert EndsBefore(s.sweeps[0], s.sweeps[1], o.interval);
    }
  }

  lemma ServedAtPublish(o: Options, s: State, t: Tid)
    requires ServedOk(o, s) && SweepLogOk(o, s) && GatesOk(o, s) && At(s, t, Waiting) && RoundOwner(s) == Some(t)
    ensures ServedOk(o, PublishRound(s, t))
  {
    if o.discovery {
      if s.lastDiscovery.None? {
        GatesOf(o, s, t);
      }
      Swept(o, s);
    }
    hide ServedOk, SweepLogOk, GatesOk, Published, SweptBy;
    var s' := PublishRound(s, t);
    ServedMore(o, s, s', s'.served[|s.served|]);
  }

  lemma ServedAtCache(o: Options, s: State, s': State, t: Tid)
    requires ServedOk(o, s) && SweepLogOk(o, s) && GatesOk(o, s) && RoundLogOk(o, s) && CacheOk(s)
    requires At(s, t, CheckCache) && CacheFresh(o, s) && !Open(s) && |s.rounds| > 0
    requires s'.rounds == s.rounds && s'.sweeps == s.sweeps
    requires s'.served == s.served + [Served(t, s.now, s.now, |s.rounds| - 1, s.snapshot.value)]
    ensures ServedOk(o, s')
  {
    if o.discovery {
      if s.lastDiscovery.None? {
        GatesOf(o, s, t);
      }
      Swept(o, s);
    }
    assert RoundSpans(s.rounds)[|s.rounds| - 1].end == Last(s).end;
    hide ServedOk, SweepLogOk, GatesOk, Published, SweptBy;
    ServedMore(o, s, s', s'.served[|s.served|]);
  }

  lemma ServedOnSnapshot(o: Options, s: State, t: Tid, step: SnapshotStep)
    requires ServedOk(o, s) && SweepLogOk(o, s) && GatesOk(o, s) && RoundLogOk(o, s) && CacheOk(s)
    requires OwnersOk(s) && MutexesOk(s) && SnapshotEnabled(o, s, t, step)
    ensures ServedOk(o, SnapshotApply(o, s, t, step))
  {
    OwnersOf(s, t);
    if s.threads[t].task.CheckCache? {
      NoneOpenAtCheck(s, t);
    }
    hide ServedOk, SweepLogOk, GatesOk, RoundLogOk, CacheOk, OwnersOk, MutexesOk, PublishRound, CacheFresh, Lists;
    if step.ServeCached? {
      ServedAtCache(o, s, SnapshotApply(o, s, t, step), t);
    } else if step.Publish? {
      ServedAtPublish(o, s, t);
    } else {
      SnapshotExtends(o, s, t, step);
      hide SnapshotApply, Extends;
      ServedFrame(o, s, SnapshotApply(o, s, t, step));
    }
  }

  /** A step that serves nobody ends no round and no sweep. */
  lemma SnapshotExtends(o: Options, s: State, t: Tid, step: SnapshotStep)
    requires SnapshotEnabled(o, s, t, step) && !step.ServeCached? && !step.Publish?
    requires InRound(s.threads[t].task) ==> RoundOwner(s) == Some(t)
    ensures var s' := SnapshotApply(o, s, t, step);
      Extends(s, s') && s'.served == s.served
  {
    hide CacheFresh, Lists;
  }

  lemma ServedOnSweep(o: Options, s: State, t: Tid, step: SweepStep)
    requires ServedOk(o, s) && SweepLogOk(o, s) && SweeperOk(s) && SweepEnabled(o, s, t, step)
    ensures ServedOk(o, SweepApply(o, s, t, step))
  {
    SweeperOf(s, t);
    if step.FinishSweep? {
      assert s.sweeps[|s.sweeps| - 1].end.None?;
    }
    hide ServedOk, SweepLogOk, SweeperOk, Reconciled, Touched, Closures, Plans, Lists;
    ServedFrame(o, s, SweepApply(o, s, t, step));
  }

  lemma ServedOnReader(o: Options, s: State, t: Tid, step: ReaderStep)
    requires ServedOk(o, s) && ReadersOk(s) && ReaderEnabled(o, s, t, step)
    ensures ServedOk(o, ReaderApply(o, s, t, step))
  {
    ReaderLeavesRecords(o, s, t, step);
    TimesOnReader(o, s, t, step);
    hide ServedOk, ReadersOk, ReaderApply, ReaderEnabled;
    ServedFrame(o, s, ReaderApply(o, s, t, step));
  }

  lemma ServedOnDevice(o: Options, s: State, t: Tid, step: CallStep)
    requires ServedOk(o, s) && CallEnabled(s, t, step)
    ensures ServedOk(o, CallApply(s, t, step))
  {
    CallLeavesRecords(s, t, step);
    hide ServedOk, CallApply, CallEnabled;
    ServedFrame(o, s, CallApply(s, t, step));
  }

  lemma ServedOnSpawn(o: Options, s: State, t: Tid, child: Tid)
    requires ServedOk(o, s) && OwnersOk(s) && t in s.threads
    requires s.threads[t].task.Spawning? && |s.rounds| > 0 && s.threads[t].task.next < |Last(s).devs|
    ensures ServedOk(o, SpawnApply(s, t, child))
  {
    TimesOnSpawn(s, t, child);
    SpawnLeavesRecords(s, t, child);
    hide ServedOk, OwnersOk, SpawnApply;
    ServedFrame(o, s, SpawnApply(s, t, child));
  }

  /** Nothing that is told about the past changes when a thread arrives, a sweep is launched or time passes. */
  lemma ServedOtherwise(o: Options, s: State, a: Action)
    requires ServedOk(o, s) && Enabled(o, s, a) && (Environment(a) || a.Launch?)
    ensures ServedOk(o, Apply(o, s, a))
  {
    hide ServedOk;
    ServedFrame(o, s, Apply(o, s, a));
  }

  lemma ServedStep(o: Options, s: State, a: Action)
    requires ServedOk(o, s) && SweepLogOk(o, s) && SweeperOk(s) && GatesOk(o, s) && RoundLogOk(o, s) && CacheOk(s)
    requires OwnersOk(s) && MutexesOk(s) && ReadersOk(s) && Enabled(o, s, a)
    ensures ServedOk(o, Apply(o, s, a))
  {
    hide ServedOk, SweepLogOk, SweeperOk, GatesOk, RoundLogOk, CacheOk, OwnersOk, MutexesOk, ReadersOk;
    hide SnapshotApply, SweepApply, ReaderApply, CallApply, SpawnApply;
    hide SnapshotEnabled, SweepEnabled, ReaderEnabled, CallEnabled;
    match a
    case OnSnapshot(t, step) => ServedOnSnapshot(o, s, t, step);
    case OnSweep(t, step) => ServedOnSweep(o, s, t, step);
    case OnReader(t, step) => ServedOnReader(o, s, t, step);
    case OnDevice(t, step) => ServedOnDevice(o, s, t, step);
    case SpawnReader(t, child) => ServedOnSpawn(o, s, t, child);
    case _ => ServedOtherwise(o, s, a);
  }
}
