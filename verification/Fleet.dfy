/**
 The device set and the result list of the registry (kasa/registry.go), as functions: what one
 discovery sweep does to the set, and the order results are published in. `D` is a device.
 */
module Fleet {
  import opened Text

  // ---------------------------------------------------------------- reconcile

  /** The first loop of reconcile: a host already known keeps the device it has. */
  function AddAll<D>(devices: map<string, D>, found: seq<(string, D)>): map<string, D>
    decreases |found|
  {
    if found == [] then devices
    else AddAll(if found[0].0 in devices then devices else devices[found[0].0 := found[0].1], found[1..])
  }

  function Hosts<D>(found: seq<(string, D)>): set<string> {
    set i | 0 <= i < |found| :: found[i].0
  }

  /** `reconcile`: the device set after one successful sweep. */
  function Merge<D>(devices: map<string, D>, found: seq<(string, D)>, manual: set<string>,
      keepMissing: bool): map<string, D>
  {
    var added := AddAll(devices, found);
    if keepMissing then added else map h | h in added && (h in Hosts(found) || h in manual) :: added[h]
  }

  /** The first device a sweep found at a host. */
  function FirstAt<D>(found: seq<(string, D)>, host: string): (d: D)
    requires host in Hosts(found)
  {
    if found[0].0 == host then found[0].1 else HostsTail(found); FirstAt(found[1..], host)
  }

  lemma HostsTail<D>(found: seq<(string, D)>)
    requires found != []
    ensures Hosts(found) == {found[0].0} + Hosts(found[1..])
  {
    forall h | h in Hosts(found) ensures h in {found[0].0} + Hosts(found[1..]) {
      var i :| 0 <= i < |found| && found[i].0 == h;
      if i > 0 {
        assert found[1..][i - 1].0 == h;
      }
    }
    forall h | h in {found[0].0} + Hosts(found[1..]) ensures h in Hosts(found) {
      if h in Hosts(found[1..]) {
        var i :| 0 <= i < |found[1..]| && found[1..][i].0 == h;
        assert found[i + 1].0 == h;
      } else {
        assert found[0].0 == h;
      }
    }
  }

  lemma {:induction false} AddAllIs<D>(devices: map<string, D>, found: seq<(string, D)>)
    ensures AddAll(devices, found).Keys == devices.Keys + Hosts(found)
    ensures forall h :: h in devices ==> AddAll(devices, found)[h] == devices[h]
    ensures forall h :: h in Hosts(found) && h !in devices ==> AddAll(devices, found)[h] == FirstAt(found, h)
    decreases |found|
  {
    if found != [] {
      HostsTail(found);
      AddAllIs(if found[0].0 in devices then devices else devices[found[0].0 := found[0].1], found[1..]);
    }
  }

  /**
   One sweep, exactly: with KeepMissing the hosts are the old ones and the found ones, without
   it the configured ones and the found ones. A host that stays keeps its device, and a new one
   gets the first device found there.
   */
  lemma MergeIs<D>(devices: map<string, D>, found: seq<(string, D)>, manual: set<string>, keepMissing: bool)
    requires manual <= devices.Keys
    ensures Merge(devices, found, manual, keepMissing).Keys
        == (if keepMissing then devices.Keys else manual) + Hosts(found)
    ensures var merged := Merge(devices, found, manual, keepMissing);
      && (forall h :: h in merged && h in devices ==> merged[h] == devices[h])
      && (forall h :: h in merged && h !in devices ==> h in Hosts(found) && merged[h] == FirstAt(found, h))
  {
    AddAllIs(devices, found);
  }

  /** The device set after a run of sweeps. */
  function Sweeps<D>(devices: map<string, D>, run: seq<seq<(string, D)>>, manual: set<string>,
      keepMissing: bool): map<string, D>
  {
    if run == [] then devices
    else Merge(Sweeps(devices, run[..|run| - 1], manual, keepMissing), run[|run| - 1], manual, keepMissing)
  }

  ghost predicate Keyed<D>(devices: map<string, D>, hostOf: D -> string) {
    forall h :: h in devices ==> hostOf(devices[h]) == h
  }

  /**
   Over any run of sweeps every configured host stays present with its original device, and
   every device stays under its own address.
   */
  lemma {:induction false} SweepsKeepConfigured<D>(
    devices: map<string, D>, run: seq<seq<(string, D)>>, manual: set<string>, keepMissing: bool, hostOf: D -> string)
    requires manual <= devices.Keys && Keyed(devices, hostOf)
    requires forall i, j :: 0 <= i < |run| && 0 <= j < |run[i]| ==> hostOf(run[i][j].1) == run[i][j].0
    ensures var after := Sweeps(devices, run, manual, keepMissing);
      && manual <= after.Keys && Keyed(after, hostOf)
      && (forall h :: h in manual ==> after[h] == devices[h])
      && (keepMissing ==> devices.Keys <= after.Keys && forall h :: h in devices ==> after[h] == devices[h])
  {
    if run != [] {
      var front, last := run[..|run| - 1], run[|run| - 1];
      SweepsKeepConfigured(devices, front, manual, keepMissing, hostOf);
      var before := Sweeps(devices, front, manual, keepMissing);
      MergeIs(before, last, manual, keepMissing);
      forall h | h in Hosts(last) ensures hostOf(FirstAt(last, h)) == h {
        FirstAtIsThere(last, h, hostOf);
      }
    }
  }

  lemma {:induction false} FirstAtIsThere<D>(found: seq<(string, D)>, host: string, hostOf: D -> string)
    requires host in Hosts(found) && forall j :: 0 <= j < |found| ==> hostOf(found[j].1) == found[j].0
    ensures hostOf(FirstAt(found, host)) == host
  {
    if found[0].0 != host {
      HostsTail(found);
      assert forall j :: 0 <= j < |found[1..]| ==> found[1..][j] == found[j + 1];
      FirstAtIsThere(found[1..], host, hostOf);
    }
  }

  // ---------------------------------------------------------------- the published order

  datatype Row<T> = Row(host: string, outcome: T)

  predicate Ordered<T>(rows: seq<Row<T>>) {
    forall i, j :: 0 <= i < j < |rows| ==> Below(rows[i].host, rows[j].host)
  }

  predicate DistinctHosts<T>(rows: seq<Row<T>>) {
    forall i, j :: 0 <= i < j < |rows| ==> rows[i].host != rows[j].host
  }

  function Insert<T>(row: Row<T>, rows: seq<Row<T>>): seq<Row<T>> {
    if rows == [] || Below(row.host, rows[0].host) then [row] + rows else [rows[0]] + Insert(row, rows[1..])
  }

  /** `sort.Slice` by host. */
  function SortRows<T>(rows: seq<Row<T>>): seq<Row<T>> {
    if rows == [] then [] else Insert(rows[0], SortRows(rows[1..]))
  }

  lemma {:induction false} InsertIs<T>(row: Row<T>, rows: seq<Row<T>>)
    requires Ordered(rows) && forall i :: 0 <= i < |rows| ==> rows[i].host != row.host
    ensures Ordered(Insert(row, rows)) && multiset(Insert(row, rows)) == multiset(rows) + multiset{row}
  {
    if rows == [] {
    } else if Below(row.host, rows[0].host) {
      forall i | 0 < i < |rows| ensures Below(row.host, rows[i].host) {
        BelowTransitive(row.host, rows[0].host, rows[i].host);
      }
    } else {
      BelowTotal(row.host, rows[0].host);
      InsertIs(row, rows[1..]);
      var tail := Insert(row, rows[1..]);
      forall i | 0 <= i < |tail| ensures Below(rows[0].host, tail[i].host) {
        assert tail[i] in multiset(tail);
        if tail[i] != row {
          assert tail[i] in rows[1..];
        }
      }
      assert rows == [rows[0]] + rows[1..];
    }
  }

  lemma BagOfTail<T>(a: seq<T>)
    requires a != []
    ensures multiset(a[1..]) == multiset(a) - multiset{a[0]}
  {
    assert a == [a[0]] + a[1..];
  }

  lemma TailDistinct<T>(rows: seq<Row<T>>)
    requires DistinctHosts(rows) && rows != []
    ensures DistinctHosts(rows[1..])
    ensures forall row :: row in rows[1..] ==> row.host != rows[0].host
  {
  }

  lemma SameBagSameRows<T>(a: seq<T>, b: seq<T>)
    requires multiset(a) == multiset(b)
    ensures forall i :: 0 <= i < |a| ==> a[i] in b
  {
    forall i | 0 <= i < |a| ensures a[i] in b {
      assert a[i] in multiset(a);
    }
  }

  /** Sorting rows of distinct hosts orders them and neither adds nor loses one. */
  lemma {:induction false} SortRowsIs<T>(rows: seq<Row<T>>)
    requires DistinctHosts(rows)
    ensures Ordered(SortRows(rows)) && multiset(SortRows(rows)) == multiset(rows)
  {
    if rows != [] {
      TailDistinct(rows);
      hide Below, Insert, Ordered, DistinctHosts;
      SortRowsIs(rows[1..]);
      var sorted := SortRows(rows[1..]);
      SameBagSameRows(sorted, rows[1..]);
      InsertIs(rows[0], sorted);
      BagOfTail(rows);
    }
  }

  lemma FirstAgrees<T>(a: seq<Row<T>>, b: seq<Row<T>>)
    requires Ordered(a) && Ordered(b) && multiset(a) == multiset(b) && a != [] && b != []
    ensures a[0] == b[0]
  {
    hide Below;
    assert a[0] in multiset(b) && b[0] in multiset(a);
    if a[0] != b[0] {
      var i :| 0 <= i < |a| && a[i] == b[0];
      var j :| 0 <= j < |b| && b[j] == a[0];
      BelowAsymmetric(a[0].host, b[0].host);
    }
  }

  /** There is only one way to list a set of rows in order. */
  lemma {:induction false} OrderedUnique<T>(a: seq<Row<T>>, b: seq<Row<T>>)
    requires Ordered(a) && Ordered(b) && multiset(a) == multiset(b)
    ensures a == b
  {
    hide Below;
    assert |a| == |multiset(a)| == |multiset(b)| == |b|;
    if a != [] {
      FirstAgrees(a, b);
      BagOfTail(a);
      BagOfTail(b);
      OrderedUnique(a[1..], b[1..]);
      assert a == [a[0]] + a[1..] && b == [b[0]] + b[1..];
    }
  }

  /** The published list does not depend on the order the rows were collected in. */
  lemma SortForgetsOrder<T>(a: seq<Row<T>>, b: seq<Row<T>>)
    requires DistinctHosts(a) && DistinctHosts(b) && multiset(a) == multiset(b)
    ensures SortRows(a) == SortRows(b)
  {
    SortRowsIs(a);
    SortRowsIs(b);
    OrderedUnique(SortRows(a), SortRows(b));
  }
}
