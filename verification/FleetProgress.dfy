/**
 No deadlock: while any scraper, sweep, reader or closer is unfinished, some thread can step.
 The locks are taken in one order (snapshotMtx, devicesMtx, a device's mutex, its transport),
 and whoever waits for the semaphore or the WaitGroup waits for a reader, which waits for no
 registry lock.
 */
module FleetProgress {
  import opened FleetHistory
  import opened FleetInvariants
  import opened FleetProtocol
  import opened FleetRounds
  import opened FleetTheorems
  import opened Wrappers

  /** Some thread, rather than the outside world, has a step to take. */
  ghost predicate CanStep(o: Options, s: State) {
    exists a :: !Environment(a) && Enabled(o, s, a)
  }

  lemma Steps(o: Options, s: State, a: Action)
    requires !Environment(a) && Enabled(o, s, a)
    ensures CanStep(o, s)
  {
  }

  // ---------------------------------------------------------------- things that exist

  lemma {:induction false} ListingExists(devices: map<string, Dev>) returns (devs: seq<Dev>)
    requires HostKeyed(devices)
    ensures Lists(devs, devices)
    decreases |devices|
  {
    if devices.Keys == {} {
      devs := [];
    } else {
      var h :| h in devices.Keys;
      var rest := devices - {h};
      assert |rest| < |devices| by {
        assert rest.Keys == devices.Keys - {h};
      }
      var tail := ListingExists(rest);
      devs := [devices[h]] + tail;
      forall i | 0 <= i < |devs| ensures devs[i].host in devices && devices[devs[i].host] == devs[i] {
        if i > 0 {
          assert tail[i - 1].host in rest;
        }
      }
      forall g | g in devices ensures devices[g] in devs {
        if g != h {
          assert rest[g] in tail;
        }
      }
      forall i, j | 0 <= i < j < |devs| ensures devs[i].host != devs[j].host {
        assert tail[j - 1].host in rest;
      }
    }
  }

  lemma {:induction false} OrderExists(calls: set<Call>) returns (todo: seq<Call>)
    ensures (forall c :: c in todo <==> c in calls) && forall i, j :: 0 <= i < j < |todo| ==> todo[i] != todo[j]
    decreases |calls|
  {
    if calls == {} {
      todo := [];
    } else {
      var c :| c in calls;
      var rest := calls - {c};
      var tail := OrderExists(rest);
      todo := [c] + tail;
      assert forall e :: e in rest <==> e in calls && e != c;
      assert forall i :: 0 <= i < |tail| ==> tail[i] in tail;
    }
  }

  /** Closing calls first, then the others. */
  lemma {:induction false} PlanExists(calls: set<Call>) returns (todo: seq<Call>)
    ensures Plans(todo, calls)
  {
    var closing := set c | c in calls && c.CloseCall?;
    var naming := calls - closing;
    var first := OrderExists(closing);
    var second := OrderExists(naming);
    todo := first + second;
    assert forall i :: 0 <= i < |first| ==> first[i] in first;
    assert forall i :: 0 <= i < |second| ==> second[i] in second;
  }

  lemma {:induction false} FreshTid(threads: set<Tid>) returns (unused: Tid)
    ensures forall t :: t in threads ==> t < unused
    decreases |threads|
  {
    if threads == {} {
      unused := 0;
    } else {
      var t :| t in threads;
      var rest := threads - {t};
      var other := FreshTid(rest);
      unused := if t < other then other else t + 1;
      assert forall u :: u in threads ==> u == t || u in rest;
    }
  }

  // ---------------------------------------------------------------- inside a device

  lemma TransportHolderSteps(o: Options, s: State, t: Tid)
    requires DeviceLocksOk(s) && t in s.threads && s.threads[t].visit.InTransport?
    ensures CanStep(o, s)
  {
    Steps(o, s, OnDevice(t, LeaveTransport));
  }

  lemma MuHolderSteps(o: Options, s: State, t: Tid)
    requires DeviceLocksOk(s) && t in s.threads && HoldsMu(s.threads[t])
    ensures CanStep(o, s)
  {
    if s.threads[t].visit.InMu? {
      Steps(o, s, OnDevice(t, End(None)));
    } else if s.threads[t].visit.InTransport? {
      TransportHolderSteps(o, s, t);
    } else if TargetOf(s, t) in s.transport {
      TransportHolderSteps(o, s, s.transport[TargetOf(s, t)]);
    } else {
      Steps(o, s, OnDevice(t, TakeTransport));
    }
  }

  lemma VisitorSteps(o: Options, s: State, t: Tid)
    requires DeviceLocksOk(s) && t in s.threads && Target(s.threads[t].task).Some?
    ensures CanStep(o, s)
  {
    if s.threads[t].visit == Outside {
      Steps(o, s, OnDevice(t, Begin(0)));
    } else if HoldsMu(s.threads[t]) {
      MuHolderSteps(o, s, t);
    } else if TargetOf(s, t) in s.mu {
      MuHolderSteps(o, s, s.mu[TargetOf(s, t)]);
    } else {
      Steps(o, s, OnDevice(t, TakeMu));
    }
  }

  lemma AtItself(s: State, t: Tid)
    requires DeviceLocksOk(s) && t in s.threads && Target(s.threads[t].task).None?
    ensures s.threads[t].visit == Outside && At(s, t, s.threads[t].task)
  {
  }

  // ---------------------------------------------------------------- under devicesMtx

  lemma CopierSteps(o: Options, s: State, t: Tid)
    requires OwnersOk(s) && DevicesOk(o, s) && At(s, t, Copying)
    ensures CanStep(o, s)
  {
    OwnersOf(s, t);
    var devs := ListingExists(s.devices);
    hide OwnersOk, Lists, HostKeyed;
    Steps(o, s, OnSnapshot(t, CopyDevices(devs)));
  }

  lemma DevicesHolderSteps(o: Options, s: State, t: Tid)
    requires Inv(o, s) && t in s.threads && HoldsDevices(s.threads[t].task)
    ensures CanStep(o, s)
  {
    var task := s.threads[t].task;
    if Target(task).Some? {
      VisitorSteps(o, s, t);
    } else {
      AtItself(s, t);
      SweeperOf(s, t);
      if task.Copying? {
        CopierSteps(o, s, t);
      } else {
        assert task.Finishing? ==> |s.sweeps| > 0;
        hide Inv;
        var step := if task.Refreshing? then Decide else if task.Reconciling? then EndReconcile
                    else if task.Finishing? then FinishSweep else EndClose;
        Steps(o, s, OnSweep(t, step));
      }
    }
  }

  lemma LockableSteps(o: Options, s: State, t: Tid)
    requires HostKeyed(s.devices) && t in s.threads && s.threads[t].visit == Outside
    requires WantsDevices(s.threads[t].task) && s.devicesMtx == None
    ensures CanStep(o, s)
  {
    hide Lists, Touched, Closures, Plans, HostKeyed;
    match s.threads[t].task
    case WantReconcile(_, found) =>
      var todo := PlanExists(Touched(o, s.devices, found));
      Steps(o, s, OnSweep(t, LockDevices(todo)));
    case WantClose =>
      var todo := PlanExists(Closures(s.devices));
      Steps(o, s, OnSweep(t, LockDevices(todo)));
    case _ => Steps(o, s, OnSweep(t, LockDevices([])));
  }

  lemma DevicesWaiterSteps(o: Options, s: State, t: Tid)
    requires Inv(o, s) && t in s.threads && WantsDevices(s.threads[t].task)
    ensures CanStep(o, s)
  {
    if s.devicesMtx.Some? {
      MutexesOf(s, s.devicesMtx.value);
      DevicesHolderSteps(o, s, s.devicesMtx.value);
    } else {
      AtItself(s, t);
      LockableSteps(o, s, t);
    }
  }

  // ---------------------------------------------------------------- readers

  /** A reader past the semaphore waits for nothing but its device. */
  lemma AdmittedReaderSteps(o: Options, s: State, t: Tid)
    requires DeviceLocksOk(s) && ReadersOk(s) && RoundsOk(o, s)
    requires t in s.threads && s.threads[t].task.Reader? && s.threads[t].task.stage != WantSlot
    ensures CanStep(o, s)
  {
    hide DeviceLocksOk;
    if Target(s.threads[t].task).Some? {
      hide ReadersOk, RoundsOk;
      VisitorSteps(o, s, t);
    } else {
      AtItself(s, t);
      ReadersOf(s, t);
      RoundsOf(o, s);
      hide DeviceLocksOk, ReadersOk, RoundsOk, Lists, HostKeyed;
      if s.threads[t].task.stage == Writing {
        Steps(o, s, OnReader(t, WriteResult));
      } else {
        FinishedReaderSteps(o, s, t);
      }
    }
  }

  lemma FinishedReaderSteps(o: Options, s: State, t: Tid)
    requires t in s.threads && s.threads[t].visit == Outside && s.threads[t].task.Reader?
        && s.threads[t].task.round < |s.rounds|
    requires s.threads[t].task.stage == Releasing || s.threads[t].task.stage == Leaving
    ensures CanStep(o, s)
  {
    Steps(o, s, OnReader(t, if s.threads[t].task.stage == Releasing then ReleaseSlot else LeaveRound));
  }

  lemma LiveReader(o: Options, s: State, i: nat)
    requires ReadersOk(s) && RoundsOk(o, s) && Open(s) && i in Last(s).live
    ensures var u := Last(s).live[i];
      ReaderOf(s, u, i) && (i in Last(s).inside ==> s.threads[u].task.stage != WantSlot)
  {
    assert ReaderOf(s, Last(s).live[i], i);
    ReadersOf(s, Last(s).live[i]);
  }

  lemma ReaderSteps(o: Options, s: State, t: Tid)
    requires DeviceLocksOk(s) && ReadersOk(s) && RoundsOk(o, s) && t in s.threads && s.threads[t].task.Reader?
    ensures CanStep(o, s)
  {
    if s.threads[t].task.stage != WantSlot {
      AdmittedReaderSteps(o, s, t);
    } else {
      AtItself(s, t);
      ReadersOf(s, t);
      RoundsOf(o, s);
      hide DeviceLocksOk, ReadersOk, RoundsOk, Lists, HostKeyed;
      if |Last(s).inside| < o.concurrency {
        Steps(o, s, OnReader(t, TakeSlot));
      } else {
        var i :| i in Last(s).inside;
        LiveReader(o, s, i);
        AdmittedReaderSteps(o, s, Last(s).live[i]);
      }
    }
  }

  lemma NonEmpty(live: map<nat, Tid>)
    requires live != map[]
    ensures exists i :: i in live
  {
    assert live.Keys == {} ==> live == map[];
  }

  // ---------------------------------------------------------------- Snapshot

  lemma SpawnerSteps(o: Options, s: State, t: Tid)
    requires OwnersOk(s) && RoundsOk(o, s) && t in s.threads && s.threads[t].task.Spawning?
    requires At(s, t, s.threads[t].task)
    ensures CanStep(o, s)
  {
    OwnersOf(s, t);
    RoundsOf(o, s);
    hide OwnersOk, RoundsOk;
    var child := FreshTid(s.threads.Keys);
    if s.threads[t].task.next < |Last(s).devs| {
      Steps(o, s, SpawnReader(t, child));
    } else {
      Steps(o, s, OnSnapshot(t, AllSpawned));
    }
  }

  lemma RoundOwnerSteps(o: Options, s: State, t: Tid)
    requires Inv(o, s) && t in s.threads && (s.threads[t].task.Spawning? || s.threads[t].task.Waiting?)
    ensures CanStep(o, s)
  {
    AtItself(s, t);
    OwnersOf(s, t);
    RoundsOf(o, s);
    var r := Last(s);
    if s.threads[t].task.Spawning? {
      SpawnerSteps(o, s, t);
    } else if r.live == map[] {
      Steps(o, s, OnSnapshot(t, Publish));
    } else {
      NonEmpty(r.live);
      var i :| i in r.live;
      LiveReader(o, s, i);
      ReaderSteps(o, s, r.live[i]);
    }
  }

  lemma CheckerSteps(o: Options, s: State, t: Tid)
    requires Inv(o, s) && t in s.threads && s.threads[t].task.CheckCache?
    ensures CanStep(o, s)
  {
    AtItself(s, t);
    if CacheFresh(o, s) {
      assert |s.rounds| > 0;
      Steps(o, s, OnSnapshot(t, ServeCached));
    } else {
      Steps(o, s, OnSnapshot(t, StartRound));
    }
  }

  lemma SweeperSteps(o: Options, s: State, t: Tid)
    requires Inv(o, s) && t in s.threads && (s.threads[t].task.Launching? || s.threads[t].task.Sweeping?)
    ensures CanStep(o, s)
  {
    AtItself(s, t);
    if s.threads[t].task.Sweeping? {
      Steps(o, s, OnSweep(t, Fail));
    } else {
      var child := FreshTid(s.threads.Keys);
      Steps(o, s, Launch(t, child));
    }
  }

  lemma SomeoneSteps(o: Options, s: State, t: Tid)
    requires Inv(o, s) && t in s.threads && !s.threads[t].task.Done? && !s.threads[t].task.WantSnapshot?
    ensures CanStep(o, s)
  {
    assert DeviceLocksOk(s) && ReadersOk(s) && RoundsOk(o, s);
    hide Inv, DeviceLocksOk, ReadersOk, RoundsOk, CanStep;
    var task := s.threads[t].task;
    if WantsDevices(task) {
      DevicesWaiterSteps(o, s, t);
    } else if HoldsDevices(task) {
      DevicesHolderSteps(o, s, t);
    } else {
      match task
      case CheckCache => CheckerSteps(o, s, t);
      case Launching => SweeperSteps(o, s, t);
      case Sweeping(_) => SweeperSteps(o, s, t);
      case Spawning(_) => RoundOwnerSteps(o, s, t);
      case Waiting => RoundOwnerSteps(o, s, t);
      case Reader(_, _, _, _, _) => ReaderSteps(o, s, t);
    }
  }

  lemma UnfinishedCanStep(o: Options, s: State, t: Tid)
    requires Inv(o, s) && t in s.threads && !s.threads[t].task.Done?
    ensures CanStep(o, s)
  {
    if !s.threads[t].task.WantSnapshot? {
      SomeoneSteps(o, s, t);
    } else if s.snapshotMtx.Some? {
      MutexesOf(s, s.snapshotMtx.value);
      SomeoneSteps(o, s, s.snapshotMtx.value);
    } else {
      AtItself(s, t);
      Steps(o, s, OnSnapshot(t, LockSnapshot));
    }
  }

  /** In every reachable state with an unfinished thread, some thread can step. */
  lemma NoDeadlock(o: Options, s: State, t: Tid)
    requires Reachable(o, s) && t in s.threads && !s.threads[t].task.Done?
    ensures exists a :: !Environment(a) && Enabled(o, s, a)
  {
    InvReachable(o, s);
    UnfinishedCanStep(o, s, t);
  }
}
