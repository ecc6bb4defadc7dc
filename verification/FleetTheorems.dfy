/** Safety of the registry over every run: every schedule, every map order, every outcome of every device call. */
module FleetTheorems {
  import opened Fleet
  import opened FleetHistory
  import opened FleetInvariants
  import opened FleetProtocol
  import opened FleetRounds
  import opened FleetServed

  ghost predicate Inv(o: Options, s: State) {
    && MutexesOk(s) && DeviceLocksOk(s) && DevicesOk(o, s)
    && SweeperOk(s) && SweepLogOk(o, s) && GatesOk(o, s)
    && OwnersOk(s) && ReadersOk(s) && RoundsOk(o, s)
    && RoundLogOk(o, s) && CacheOk(s) && ServedOk(o, s)
  }

  lemma InvInitially(o: Options, s: State)
    requires Initial(o, s)
    ensures Inv(o, s)
  {
  }

  lemma InvStep(o: Options, s: State, a: Action)
    requires Inv(o, s) && Enabled(o, s, a)
    ensures Inv(o, Apply(o, s, a))
  {
    hide MutexesOk, DeviceLocksOk, DevicesOk, SweeperOk, SweepLogOk, GatesOk, OwnersOk, ReadersOk, RoundsOk;
    hide RoundLogOk, CacheOk, ServedOk, Enabled, Apply;
    MutexesStep(o, s, a);
    DeviceLocksStep(o, s, a);
    DevicesStep(o, s, a);
    SweeperStep(o, s, a);
    SweepLogStep(o, s, a);
    GatesStep(o, s, a);
    OwnersStep(o, s, a);
    ReadersStep(o, s, a);
    RoundsStep(o, s, a);
    CacheStep(o, s, a);
    ServedStep(o, s, a);
  }

  /** Every run keeps the invariant. */
  lemma {:induction false} InvOverRuns(o: Options, s: State, run: seq<Action>)
    requires Inv(o, s) && Legal(o, s, run)
    ensures Inv(o, After(o, s, run))
    decreases |run|
  {
    hide Inv, Enabled, Apply;
    if run != [] {
      InvStep(o, s, run[0]);
      InvOverRuns(o, Apply(o, s, run[0]), run[1..]);
    }
  }

  lemma InvReachable(o: Options, s: State)
    requires Reachable(o, s)
    ensures Inv(o, s)
  {
    var s0, run :| Initial(o, s0) && Legal(o, s0, run) && After(o, s0, run) == s;
    InvInitially(o, s0);
    hide Inv, Enabled, Apply;
    InvOverRuns(o, s0, run);
  }

  // ---------------------------------------------------------------- discovery

  /** At most one sweep is in flight, and `discovering` says exactly whether one is. */
  lemma OneSweepAtATime(o: Options, s: State)
    requires Reachable(o, s)
    ensures forall t, u | t in s.threads && u in s.threads ::
      InSweep(s.threads[t].task) && InSweep(s.threads[u].task) ==> t == u
    ensures s.discovering <==> exists t :: t in s.threads && InSweep(s.threads[t].task)
    ensures forall i :: 0 <= i < |s.sweeps| && s.sweeps[i].end.None? ==> i == |s.sweeps| - 1 && s.discovering
  {
    InvReachable(o, s);
    if s.discovering {
      SweeperOf(s, s.sweeper.value);
      assert InSweep(s.threads[s.sweeper.value].task);
    }
    forall i | 0 <= i && i + 1 < |s.sweeps| ensures s.sweeps[i].end.Some? {
      assert EndsBefore(s.sweeps[i + 1 - 1], s.sweeps[i + 1], o.interval);
    }
  }

  /** Each sweep begins at least DiscoveryInterval after the one before it finished, failed or not. */
  lemma SweepsKeepTheirInterval(o: Options, s: State, i: nat)
    requires Reachable(o, s) && i + 1 < |s.sweeps|
    ensures s.sweeps[i].end.Some? && s.sweeps[i].end.value <= s.sweeps[i + 1].start
    ensures s.sweeps[i + 1].start - s.sweeps[i].end.value >= o.interval
  {
    InvReachable(o, s);
    assert EndsBefore(s.sweeps[i + 1 - 1], s.sweeps[i + 1], o.interval);
  }

  /** Every device sits under its own address, and no configured host is ever lost. */
  lemma DeviceSetKeepsItsShape(o: Options, s: State)
    requires Reachable(o, s)
    ensures o.manual <= s.devices.Keys && forall h :: h in s.devices ==> s.devices[h].host == h
  {
    InvReachable(o, s);
  }

  // ---------------------------------------------------------------- rounds and the cache

  /** Query rounds never overlap, and each begins at least CacheTTL after the one before it ended. */
  lemma RoundsKeepTheirDistance(o: Options, s: State, i: nat)
    requires Reachable(o, s) && i + 1 < |s.rounds|
    ensures s.rounds[i].end.Some? && s.rounds[i].end.value <= s.rounds[i + 1].start
    ensures s.rounds[i + 1].start - s.rounds[i].end.value >= o.ttl
  {
    InvReachable(o, s);
    var spans := RoundSpans(s.rounds);
    assert EndsBefore(spans[i + 1 - 1], spans[i + 1], o.ttl);
  }

  /** So any window of length w sees at most w / CacheTTL + 1 rounds begin. */
  lemma RoundsPerWindow(o: Options, s: State, from: int, w: nat, i: nat, j: nat)
    requires Reachable(o, s) && o.ttl > 0 && i <= j < |s.rounds|
    requires from <= s.rounds[i].start && s.rounds[j].start <= from + w
    ensures j - i + 1 <= w / o.ttl + 1
  {
    InvReachable(o, s);
    var spans := RoundSpans(s.rounds);
    WindowCount(spans, o.ttl, s.now, Open(s), i, j);
    DivideAtLeast(w, o.ttl, j - i);
  }

  /**
   Every snapshot handed out is the published list of a finished round: the caller's own, or one
   that had ended less than CacheTTL before the caller looked.
   */
  lemma SnapshotsAreFresh(o: Options, s: State, k: nat)
    requires Reachable(o, s) && k < |s.served|
    ensures var v := s.served[k];
      && v.round < |s.rounds| && s.rounds[v.round].end.Some? && v.rows == Published(s.rounds[v.round])
      && (OwnRound(v, s.rounds[v.round]) || FromCache(o, v, s.rounds[v.round]))
  {
    InvReachable(o, s);
    assert ServedRight(o, s, s.served[k]);
  }

  /** With discovery on, no caller gets a snapshot before a first sweep has finished. */
  lemma FirstSweepComesFirst(o: Options, s: State, k: nat)
    requires Reachable(o, s) && o.discovery && k < |s.served|
    ensures |s.sweeps| > 0 && s.sweeps[0].end.Some? && s.sweeps[0].end.value <= s.served[k].at
  {
    InvReachable(o, s);
    assert ServedRight(o, s, s.served[k]);
  }

  // ---------------------------------------------------------------- readAll

  /** Inside a device read, or about to return the slot that let it in. */
  predicate UsingSlot(s: State, t: Tid) {
    t in s.threads && s.threads[t].task.Reader? && InSlot(s.threads[t].task.stage)
  }

  /** At most `Concurrency` readers are ever past the semaphore, counted over every thread there is. */
  lemma ReadersWithinConcurrency(o: Options, s: State, readers: set<Tid>)
    requires Reachable(o, s) && forall t :: t in readers ==> UsingSlot(s, t)
    ensures |readers| <= o.concurrency
  {
    InvReachable(o, s);
    if readers != {} {
      var u :| u in readers;
      ReadersOf(s, u);
      RoundsOf(o, s);
      var slots := set t | t in readers && UsingSlot(s, t) :: s.threads[t].task.slot;
      forall t | t in readers ensures s.threads[t].task.slot in Last(s).inside {
        ReadersOf(s, t);
      }
      SlotsAreDistinct(s, readers);
      Subset(slots, Last(s).inside);
    }
  }

  lemma {:induction false} SlotsAreDistinct(s: State, readers: set<Tid>)
    requires ReadersOk(s) && forall t :: t in readers ==> UsingSlot(s, t)
    ensures |set t | t in readers && UsingSlot(s, t) :: s.threads[t].task.slot| == |readers|
    decreases |readers|
  {
    if readers != {} {
      var u :| u in readers;
      var rest := readers - {u};
      SlotsAreDistinct(s, rest);
      var slots := set t | t in rest && UsingSlot(s, t) :: s.threads[t].task.slot;
      forall t | t in rest ensures s.threads[t].task.slot != s.threads[u].task.slot {
        ReadersOf(s, t);
        ReadersOf(s, u);
      }
      assert (set t | t in readers && UsingSlot(s, t) :: s.threads[t].task.slot) == slots + {s.threads[u].task.slot};
    }
  }

  lemma {:induction false} Subset(a: set<nat>, b: set<nat>)
    requires a <= b
    ensures |a| <= |b|
    decreases |a|
  {
    if a != {} {
      var x :| x in a;
      Subset(a - {x}, b - {x});
    }
  }

  /** The rows of a device set, listed by a deterministic walk of its hosts with one reading per device. */
  ghost predicate OneRowEach(rows: seq<FleetProtocol.Result>, fleet: map<string, Dev>) {
    && Ordered(rows)
    && (forall h :: h in fleet ==> exists i :: 0 <= i < |rows| && rows[i].host == h)
    && (forall i :: 0 <= i < |rows| ==> rows[i].host in fleet)
  }

  /**
   `readAll` refines map-then-sort: whatever order the map was walked in and however the
   goroutines interleaved, each slot was written exactly once, by the reader of its own device,
   and what is published is the list strictly ordered by address with one row per device.
   */
  lemma ReadAllIsMapThenSort(o: Options, s: State, j: nat)
    requires Reachable(o, s) && j < |s.rounds| && s.rounds[j].end.Some?
    ensures var r := s.rounds[j];
      && r.live == map[] && r.inside == {} && |r.devs| == |r.results| == |r.writes|
      && (forall i :: 0 <= i < |r.devs| ==>
          r.writes[i] == 1 && r.results[i].Some? && r.results[i].value.host == r.devs[i].host)
      && OneRowEach(Published(r), r.fleet) && multiset(Published(r)) == multiset(Rows(r.results))
  {
    InvReachable(o, s);
    CompletePublishes(s.rounds[j]);
  }

  lemma CompletePublishes(r: Round)
    requires Complete(r)
    ensures OneRowEach(Published(r), r.fleet) && multiset(Published(r)) == multiset(Rows(r.results))
  {
    var rows := Rows(r.results);
    forall i | 0 <= i < |rows| ensures rows[i].host == r.devs[i].host {
    }
    assert DistinctHosts(rows);
    SortRowsIs(rows);
    var sorted := Published(r);
    forall h | h in r.fleet ensures exists i :: 0 <= i < |sorted| && sorted[i].host == h {
      var i :| 0 <= i < |r.devs| && r.devs[i] == r.fleet[h];
      assert r.devs[i].host == h;
      assert rows[i] in multiset(sorted);
    }
    forall i | 0 <= i < |sorted| ensures sorted[i].host in r.fleet {
      assert sorted[i] in multiset(rows);
    }
  }

  /** Two rounds whose devices read the same publish the same list, in whatever orders they ran. */
  lemma ScheduleDoesNotShow(a: Round, b: Round)
    requires Complete(a) && Complete(b) && multiset(Rows(a.results)) == multiset(Rows(b.results))
    ensures Published(a) == Published(b)
  {
    forall i | 0 <= i < |a.results| ensures Rows(a.results)[i].host == a.devs[i].host {
    }
    forall i | 0 <= i < |b.results| ensures Rows(b.results)[i].host == b.devs[i].host {
    }
    SortForgetsOrder(Rows(a.results), Rows(b.results));
  }
}
