/**
 Where the rows of a snapshot come from. The reads of a run are told from its actions alone; every
 finished round holds, slot by slot, exactly what the one read of that slot's device came to.
 */
module FleetReads {
  import opened Fleet
  import opened FleetInvariants
  import opened FleetProtocol
  import opened FleetRounds
  import opened FleetTheorems
  import opened Wrappers

  /** A read that returned: the device it was of, and what it came to. */
  datatype Read = Read(dev: Dev, got: Option<nat>)

  /** Whether this action is the return of a read made for slot i of round j. */
  ghost predicate Returns(s: State, a: Action, j: nat, i: nat) {
    && a.OnDevice? && a.call.End? && a.t in s.threads
    && match s.threads[a.t].task
       case Reader(round, slot, _, stage, _) => stage == Reading && round == j && slot == i
       case _ => false
  }

  /** The reads a run returns for slot i of round j, in order. */
  ghost function ReadsFor(o: Options, s: State, run: seq<Action>, j: nat, i: nat): seq<Read>
    requires Legal(o, s, run)
    decreases |run|
  {
    if run == [] then []
    else
      (if Returns(s, run[0], j, i) then [Read(s.threads[run[0].t].task.dev, run[0].call.got)] else [])
      + ReadsFor(o, Apply(o, s, run[0]), run[1..], j, i)
  }

  // ---------------------------------------------------------------- what a state has kept of them

  /** Read, and not yet written: between the read and the write of its result. */
  predicate Carries(task: Task, j: nat, i: nat) {
    && task.Reader? && task.round == j && task.slot == i
    && (task.stage == Naming || task.stage == Typing || task.stage == Writing)
  }

  /** What a state holds of the reads of slot i of round j: the row written, or what its reader carries. */
  function Kept(s: State, j: nat, i: nat): seq<Read> {
    if j >= |s.rounds| then []
    else KeptIn(s.rounds[j], s.threads, j, i)
  }

  function KeptIn(r: Round, threads: map<Tid, Thread>, j: nat, i: nat): seq<Read> {
    if i < |r.results| == |r.devs| && r.results[i].Some? then [Read(r.devs[i], r.results[i].value.outcome)]
    else if i in r.live && r.live[i] in threads && Carries(threads[r.live[i]].task, j, i) then
      [Read(threads[r.live[i]].task.dev, threads[r.live[i]].task.got)]
    else []
  }

  /** A step that leaves the rounds alone, and the readers what they carry. */
  lemma KeptFrame(s: State, s': State, t: Tid, j: nat, i: nat)
    requires s'.rounds == s.rounds && t in s'.threads && s'.threads == s.threads[t := s'.threads[t]]
    requires if t in s.threads then KeepsCarrying(s.threads[t].task, s'.threads[t].task, j, i)
             else !Carries(s'.threads[t].task, j, i)
    ensures Kept(s', j, i) == Kept(s, j, i)
  {
    hide Carries;
  }

  predicate KeepsCarrying(task: Task, task': Task, j: nat, i: nat) {
    && (Carries(task', j, i) <==> Carries(task, j, i))
    && (Carries(task, j, i) ==> task'.dev == task.dev && task'.got == task.got)
  }

  lemma KeptOnSweep(o: Options, s: State, t: Tid, step: SweepStep, j: nat, i: nat)
    requires SweepEnabled(o, s, t, step)
    ensures Kept(SweepApply(o, s, t, step), j, i) == Kept(s, j, i)
  {
    SweepShape(o, s, t, step);
    hide SweepEnabled, SweepApply;
    KeptFrame(s, SweepApply(o, s, t, step), t, j, i);
  }

  lemma NothingReadYet(o: Options, s: State, t: Tid)
    requires OwnersOk(s) && RoundsOk(o, s) && t in s.threads && s.threads[t].task.Copying?
    ensures |s.rounds| > 0 && Last(s).live == map[] && Last(s).results == []
  {
    OwnersOf(s, t);
    RoundsOf(o, s);
    hide OwnersOk, RoundsOk, Lists, HostKeyed;
    var r := Last(s);
    assert r.live.Keys == {};
  }

  /** A reader's own slot holds its row once written, and what the reader carries before. */
  lemma KeptOf(r: Round, threads: map<Tid, Thread>, t: Tid, j: nat)
    requires t in threads && threads[t].task.Reader? && threads[t].task.round == j
    requires var task := threads[t].task; ReaderAt(r, t, task.slot, task.dev, task.stage)
    ensures var task := threads[t].task;
      KeptIn(r, threads, j, task.slot) ==
        if Written(task.stage) then [Read(task.dev, r.results[task.slot].value.outcome)]
        else if Carries(task, j, task.slot) then [Read(task.dev, task.got)] else []
  {
  }

  /** And no other slot looks at that reader. */
  lemma KeptElsewhere(r: Round, r': Round, threads: map<Tid, Thread>, threads': map<Tid, Thread>, t: Tid,
      j: nat, i: nat)
    requires t in threads && t in threads' && threads' == threads[t := threads'[t]]
    requires !Carries(threads[t].task, j, i) && !Carries(threads'[t].task, j, i)
    requires r'.devs == r.devs && |r'.results| == |r.results| && (i in r'.live <==> i in r.live)
    requires i < |r.results| ==> r'.results[i] == r.results[i]
    requires i in r.live ==> r'.live[i] == r.live[i]
    ensures KeptIn(r', threads', j, i) == KeptIn(r, threads, j, i)
  {
    hide Carries;
  }

  /** A reader's own steps around its calls move what it carries into its slot, unchanged. */
  lemma KeptInSlot(r: Round, threads: map<Tid, Thread>, threads': map<Tid, Thread>, t: Tid, j: nat, step: ReaderStep)
    requires t in threads && threads[t].task.Reader? && threads[t].task.round == j
    requires var task := threads[t].task; ReaderAt(r, t, task.slot, task.dev, task.stage)
    requires var stage := threads[t].task.stage; match step
      case TakeSlot => stage == WantSlot
      case WriteResult => stage == Writing && |r.writes| == |r.results|
      case ReleaseSlot => stage == Releasing
      case LeaveRound => stage == Leaving
    requires threads' == threads[t := Thread(AfterReader(threads[t].task, step), Outside)]
    ensures var task := threads[t].task;
      KeptIn(SlotAfter(r, task.slot, Row(task.dev.host, task.got), step), threads', j, task.slot)
      == KeptIn(r, threads, j, task.slot)
  {
    KeptOf(r, threads, t, j);
  }

  /** A step under snapshotMtx begins, lists or ends a round, and touches no result. */
  lemma SnapshotKeepsResults(o: Options, s: State, t: Tid, step: SnapshotStep, j: nat)
    requires SnapshotEnabled(o, s, t, step)
    ensures var s' := SnapshotApply(o, s, t, step);
      && |s.rounds| <= |s'.rounds|
      && (j < |s.rounds| && !(step.CopyDevices? && j == |s.rounds| - 1) ==>
            s'.rounds[j].devs == s.rounds[j].devs && s'.rounds[j].results == s.rounds[j].results
            && s'.rounds[j].live == s.rounds[j].live)
      && (|s.rounds| <= j < |s'.rounds| ==> s'.rounds[j].results == [] && s'.rounds[j].live == map[])
      && (step.CopyDevices? ==>
            && |s.rounds| > 0 && Last(s').live == Last(s).live && |s'.rounds| == |s.rounds|
            && forall i :: 0 <= i < |Last(s').results| ==> Last(s').results[i].None?)
  {
    hide Published, Lists, CacheFresh;
  }

  lemma KeptOnSnapshot(o: Options, s: State, t: Tid, step: SnapshotStep, j: nat, i: nat)
    requires OwnersOk(s) && RoundsOk(o, s) && SnapshotEnabled(o, s, t, step)
    ensures Kept(SnapshotApply(o, s, t, step), j, i) == Kept(s, j, i)
  {
    SnapshotShape(o, s, t, step);
    SnapshotMoves(o, s, t, step);
    SnapshotKeepsResults(o, s, t, step, j);
    assert !s.threads[t].task.Reader?;
    if step.CopyDevices? {
      NothingReadYet(o, s, t);
    }
    hide OwnersOk, RoundsOk, SnapshotEnabled, SnapshotApply;
    var s' := SnapshotApply(o, s, t, step);
    if j < |s.rounds| && !(step.CopyDevices? && j == |s.rounds| - 1) {
      KeptElsewhere(s.rounds[j], s'.rounds[j], s.threads, s'.threads, t, j, i);
      hide KeptIn;
    }
  }

  lemma KeptOnReader(o: Options, s: State, t: Tid, step: ReaderStep, j: nat, i: nat)
    requires ReadersOk(s) && ReaderEnabled(o, s, t, step)
    ensures Kept(ReaderApply(o, s, t, step), j, i) == Kept(s, j, i)
  {
    ReadersOf(s, t);
    var task, s' := s.threads[t].task, ReaderApply(o, s, t, step);
    assert s'.threads == s.threads[t := Thread(AfterReader(task, step), Outside)];
    ReaderWrites(o, s, t, step);
    hide ReadersOk, ReaderApply, ReaderAt;
    if j == task.round && i == task.slot {
      KeptInSlot(Last(s), s.threads, s'.threads, t, j, step);
    } else if j < |s.rounds| {
      KeptElsewhere(s.rounds[j], s'.rounds[j], s.threads, s'.threads, t, j, i);
    }
  }

  lemma KeptOnDevice(o: Options, s: State, t: Tid, step: CallStep, j: nat, i: nat)
    requires ReadersOk(s) && CallEnabled(s, t, step)
    ensures Kept(CallApply(s, t, step), j, i)
         == Kept(s, j, i) + if Returns(s, OnDevice(t, step), j, i) then [Read(s.threads[t].task.dev, step.got)] else []
  {
    var task, s' := s.threads[t].task, CallApply(s, t, step);
    if task.Reader? {
      ReadersOf(s, t);
    }
    hide ReadersOk;
    if Returns(s, OnDevice(t, step), j, i) {
      KeptOf(Last(s), s.threads, t, j);
      KeptOf(Last(s), s'.threads, t, j);
    } else {
      hide ReaderAt;
      assert KeepsCarrying(task, s'.threads[t].task, j, i);
      hide CallApply, KeepsCarrying, Returns;
      KeptFrame(s, s', t, j, i);
    }
  }

  lemma KeptOnSpawn(o: Options, s: State, t: Tid, child: Tid, j: nat, i: nat)
    requires OwnersOk(s) && RoundsOk(o, s) && Enabled(o, s, SpawnReader(t, child))
    ensures Kept(SpawnApply(s, t, child), j, i) == Kept(s, j, i)
  {
    OwnersOf(s, t);
    RoundsOf(o, s);
    hide OwnersOk, RoundsOk;
    var r, k, s' := Last(s), s.threads[t].task.next, SpawnApply(s, t, child);
    if j == |s.rounds| - 1 {
      SpawnKeeps(o, r, k, s.threads, s'.threads, t, child, j, i);
    } else if j < |s.rounds| {
      hide OpenOk;
      SpawnElsewhere(s.rounds[j], s.threads, s'.threads, t, child, j, i);
    }
  }

  /** The new reader carries nothing, and the spawning thread is no reader. */
  lemma SpawnElsewhere(r: Round, threads: map<Tid, Thread>, threads': map<Tid, Thread>, t: Tid, child: Tid,
      j: nat, i: nat)
    requires t in threads && child !in threads && t in threads' && child in threads'
    requires threads' == threads[child := threads'[child]][t := threads'[t]] && !threads[t].task.Reader?
    requires !Carries(threads'[child].task, j, i) && !threads'[t].task.Reader?
    ensures KeptIn(r, threads', j, i) == KeptIn(r, threads, j, i)
  {
  }

  lemma SpawnKeeps(o: Options, r: Round, k: nat, threads: map<Tid, Thread>, threads': map<Tid, Thread>, t: Tid,
      child: Tid, j: nat, i: nat)
    requires RoundOk(o, r, k) && k < |r.devs|
    requires t in threads && child !in threads && t in threads' && child in threads'
    requires threads' == threads[child := threads'[child]][t := threads'[t]] && !threads[t].task.Reader?
    requires !Carries(threads'[child].task, j, i) && !threads'[t].task.Reader?
    ensures KeptIn(r.(live := r.live[k := child]), threads', j, i) == KeptIn(r, threads, j, i)
  {
    SpawnElsewhere(r, threads, threads', t, child, j, i);
    if i == k {
      assert SlotOk(r, k, k);
    }
    hide RoundOk, Carries;
  }

  // ---------------------------------------------------------------- over a run

  lemma KeptStep(o: Options, s: State, a: Action, j: nat, i: nat)
    requires Inv(o, s) && Enabled(o, s, a)
    ensures Kept(Apply(o, s, a), j, i)
         == Kept(s, j, i) + if Returns(s, a, j, i) then [Read(s.threads[a.t].task.dev, a.call.got)] else []
  {
    hide OwnersOk, RoundsOk, ReadersOk, SnapshotApply, SweepApply, ReaderApply, CallApply, SpawnApply;
    hide SnapshotEnabled, SweepEnabled, ReaderEnabled, CallEnabled, Kept, Carries;
    assert OwnersOk(s) && RoundsOk(o, s) && ReadersOk(s);
    hide Inv;
    match a
    case OnSnapshot(t, step) => KeptOnSnapshot(o, s, t, step, j, i);
    case OnSweep(t, step) => KeptOnSweep(o, s, t, step, j, i);
    case OnReader(t, step) => KeptOnReader(o, s, t, step, j, i);
    case OnDevice(t, step) => KeptOnDevice(o, s, t, step, j, i);
    case SpawnReader(t, child) => KeptOnSpawn(o, s, t, child, j, i);
    case Launch(t, child) => KeptOnLaunch(o, s, t, child, j, i);
    case _ => KeptOtherwise(o, s, a, j, i);
  }

  lemma KeptOtherwise(o: Options, s: State, a: Action, j: nat, i: nat)
    requires Environment(a) && Enabled(o, s, a)
    ensures Kept(Apply(o, s, a), j, i) == Kept(s, j, i) && !Returns(s, a, j, i)
  {
    if !a.Tick? {
      KeptFrame(s, Apply(o, s, a), a.t, j, i);
    }
  }

  lemma KeptOnLaunch(o: Options, s: State, t: Tid, child: Tid, j: nat, i: nat)
    requires Enabled(o, s, Launch(t, child))
    ensures Kept(Apply(o, s, Launch(t, child)), j, i) == Kept(s, j, i)
  {
    var s' := Apply(o, s, Launch(t, child));
    if j < |s.rounds| {
      SpawnElsewhere(s.rounds[j], s.threads, s'.threads, t, child, j, i);
    }
  }

  lemma {:induction false} KeptOverRun(o: Options, s: State, run: seq<Action>, j: nat, i: nat)
    requires Inv(o, s) && Legal(o, s, run)
    ensures Kept(After(o, s, run), j, i) == Kept(s, j, i) + ReadsFor(o, s, run, j, i)
    decreases |run|
  {
    hide Inv, Enabled, Apply, Kept, Returns;
    if run != [] {
      KeptStep(o, s, run[0], j, i);
      InvStep(o, s, run[0]);
      KeptOverRun(o, Apply(o, s, run[0]), run[1..], j, i);
    }
  }

  /**
   Slot by slot, a finished round holds what was read for it: one read returned for each slot, of
   the device listed there, and the result written is what that read came to.
   */
  lemma EverySlotIsItsRead(o: Options, s0: State, run: seq<Action>, j: nat, i: nat)
    requires Initial(o, s0) && Legal(o, s0, run)
    requires var s := After(o, s0, run); j < |s.rounds| && s.rounds[j].end.Some? && i < |s.rounds[j].devs|
    ensures var r := After(o, s0, run).rounds[j];
      && |r.results| == |r.devs| && r.results[i].Some?
      && r.results[i].value.host == r.devs[i].host
      && ReadsFor(o, s0, run, j, i) == [Read(r.devs[i], r.results[i].value.outcome)]
  {
    InvInitially(o, s0);
    InvOverRuns(o, s0, run);
    KeptOverRun(o, s0, run, j, i);
    assert Kept(s0, j, i) == [];
    var r := After(o, s0, run).rounds[j];
    assert Complete(r);
    hide Inv, Complete, Initial, Legal, After, ReadsFor;
  }

  /** A row bears the outcome of the one read of this slot's device in this round. */
  ghost predicate Bears(o: Options, s0: State, run: seq<Action>, row: FleetProtocol.Result, j: nat, i: nat)
    requires Legal(o, s0, run)
  {
    var s := After(o, s0, run);
    && j < |s.rounds| && i < |s.rounds[j].devs| && row.host == s.rounds[j].devs[i].host
    && ReadsFor(o, s0, run, j, i) == [Read(s.rounds[j].devs[i], row.outcome)]
  }

  ghost predicate IsRead(o: Options, s0: State, run: seq<Action>, row: FleetProtocol.Result, j: nat)
    requires Legal(o, s0, run)
  {
    exists i :: Bears(o, s0, run, row, j, i)
  }

  ghost predicate HasRow(o: Options, s0: State, run: seq<Action>, rows: seq<FleetProtocol.Result>, j: nat, i: nat)
    requires Legal(o, s0, run)
  {
    exists p :: 0 <= p < |rows| && Bears(o, s0, run, rows[p], j, i)
  }

  lemma SlotBears(o: Options, s0: State, run: seq<Action>, j: nat, i: nat)
    requires Initial(o, s0) && Legal(o, s0, run)
    requires var s := After(o, s0, run); j < |s.rounds| && s.rounds[j].end.Some? && i < |s.rounds[j].devs|
    ensures var r := After(o, s0, run).rounds[j];
      i < |Rows(r.results)| && Bears(o, s0, run, Rows(r.results)[i], j, i)
  {
    EverySlotIsItsRead(o, s0, run, j, i);
    hide Initial, Legal, After, ReadsFor;
  }

  /** A list with the same rows has the same ones. */
  lemma SameRows(a: seq<FleetProtocol.Result>, b: seq<FleetProtocol.Result>)
    requires multiset(a) == multiset(b)
    ensures forall row :: row in a <==> row in b
  {
    SameBagSameRows(a, b);
    SameBagSameRows(b, a);
  }

  /**
   Every row of every snapshot handed out bears the outcome of its round's one read of that
   device, and every device of the round has such a row.
   */
  lemma ServedRowsBearTheirReads(o: Options, s0: State, run: seq<Action>, k: nat)
    requires Initial(o, s0) && Legal(o, s0, run) && k < |After(o, s0, run).served|
    ensures var s := After(o, s0, run);
      var v := s.served[k];
      && v.round < |s.rounds|
      && (forall p :: 0 <= p < |v.rows| ==> IsRead(o, s0, run, v.rows[p], v.round))
      && (forall i: nat :: i < |s.rounds[v.round].devs| ==> HasRow(o, s0, run, v.rows, v.round, i))
  {
    var s := After(o, s0, run);
    assert Reachable(o, s);
    hide Reachable, Initial, Legal, After, ReadsFor, Bears, Published, OneRowEach;
    SnapshotsAreFresh(o, s, k);
    var v := s.served[k];
    var r := s.rounds[v.round];
    ReadAllIsMapThenSort(o, s, v.round);
    var rows := Rows(r.results);
    SameRows(rows, v.rows);
    forall i: nat | i < |r.devs| ensures HasRow(o, s0, run, v.rows, v.round, i) {
      SlotBears(o, s0, run, v.round, i);
      assert rows[i] in rows;
      var p :| 0 <= p < |v.rows| && v.rows[p] == rows[i];
      assert Bears(o, s0, run, v.rows[p], v.round, i);
    }
    forall p | 0 <= p < |v.rows| ensures IsRead(o, s0, run, v.rows[p], v.round) {
      assert v.rows[p] in v.rows;
      var i: nat :| i < |rows| && rows[i] == v.rows[p];
      SlotBears(o, s0, run, v.round, i);
      assert Bears(o, s0, run, v.rows[p], v.round, i);
    }
  }
}
