/**
 From the registry to the collectors: the rows of every snapshot handed out, whatever the
 schedule, are of distinct hosts and stamped with them, so the collectors repeat no series.
 */
module Snapshots {
  import opened Connect
  import opened Devices
  import opened Discovery
  import opened Fleet
  import opened FleetProtocol
  import opened FleetReads
  import opened FleetTheorems
  import opened Readings
  import opened Series
  import opened SeriesValues
  import opened Text
  import opened Wrappers

  /** A reader's row carries the reading of its own device. */
  ghost predicate Stamped(row: DeviceRow) {
    row.reading.Some? ==> row.reading.value.host == row.host
  }

  /** The body of one reader goroutine: read the device, then note what it is called and what it is. */
  method ReadRow(device: Device, asked: Option<Found>)
    returns (row: DeviceRow, ghost r: Wrappers.Result<Reading, ReadError>, ghost tried: seq<Attempt>,
      ghost contacts: seq<Plan>)
    requires device.Valid()
    modifies device, device.wire
    ensures device.Valid() && row.host == device.host && Stamped(row)
    ensures row.alias == device.Alias() && row.kind == device.Type()
    ensures row.reading.Some? <==> device.querier != null
    ensures device.ReadIs(old(device.Held()), old(device.wire.log), asked, tried, contacts, r)
    ensures row.reading == match r case Ok(reading) => Some(reading) case Err(_) => None
    ensures row.reading.Some? ==> device.names == old(device.names) + [row.reading.value.alias]
    ensures row.reading.Some? ==> device.kinds == old(device.kinds) + [row.reading.value.kind]
  {
    var read;
    read, tried, contacts := device.Read(asked);
    r := read;
    row := DeviceRow(device.host, device.Alias(), device.Type(), if read.Ok? then Some(read.value) else None);
  }

  /** The rows readers like these wrote, in the order in which a snapshot lists them. */
  ghost predicate Fills(rows: seq<DeviceRow>, published: seq<FleetProtocol.Result>) {
    && |rows| == |published|
    && forall i :: 0 <= i < |rows| ==>
        && rows[i].host == published[i].host && Stamped(rows[i])
        && (rows[i].reading.Some? <==> published[i].outcome.Some?)
  }

  /** No snapshot lists a host twice. */
  lemma ServedRowsDistinct(o: Options, s: State, k: nat, rows: seq<DeviceRow>)
    requires Reachable(o, s) && k < |s.served| && Fills(rows, s.served[k].rows)
    ensures DistinctRows(rows)
  {
    SnapshotsAreFresh(o, s, k);
    ReadAllIsMapThenSort(o, s, s.served[k].round);
    var published := s.served[k].rows;
    assert Ordered(published);
    forall i, j | 0 <= i < j < |rows| ensures rows[i].host != rows[j].host {
      BelowAsymmetric(published[i].host, published[j].host);
    }
  }

  /**
   Over every run of the registry, the series the collectors emit for any snapshot it hands out
   repeat exactly when some strip or hub of it does not tell its parts apart.
   */
  lemma ServedSeriesOnceIff(
    o: Options, s: State, k: nat, rows: seq<DeviceRow>, counts: seq<Metric>, kinds: seq<DeviceType>)
    requires Reachable(o, s) && k < |s.served| && Fills(rows, s.served[k].rows) && ListsCounts(counts, rows, kinds)
    ensures NoDuplicates(AllSeries(rows, counts)) <==> RowsTold(rows)
  {
    ServedRowsDistinct(o, s, k, rows);
    hide Reachable, Fills, DistinctRows, ListsCounts, AllSeries, RowsTold, NoDuplicates;
    NoSeriesTwiceIff(rows, counts, kinds);
  }

  ghost predicate UpSent(rows: seq<DeviceRow>, counts: seq<Metric>, host: string, x: real) {
    exists name :: Metric(Up, [host, name], x) in AllSeries(rows, counts)
  }

  /** Rows of distinct hosts: `up` of a host is 1 if its row has a reading and 0 if it has none. */
  lemma UpOfRow(rows: seq<DeviceRow>, counts: seq<Metric>, kinds: seq<DeviceType>, p: nat, x: real)
    requires ListsCounts(counts, rows, kinds) && DistinctRows(rows) && p < |rows|
    requires forall q :: 0 <= q < |rows| ==> Stamped(rows[q])
    ensures UpSent(rows, counts, rows[p].host, x) <==> x == if rows[p].reading.Some? then 1.0 else 0.0
  {
    hide AllSeries, ListsCounts;
    var host := rows[p].host;
    var last := if rows[p].reading.None? then rows[p].alias else NameOf(rows[p].reading.value);
    UpSaysWhatWasRead(rows, counts, kinds, host, last, x);
    forall name | Metric(Up, [host, name], x) in AllSeries(rows, counts)
      ensures x == if rows[p].reading.Some? then 1.0 else 0.0
    {
      UpSaysWhatWasRead(rows, counts, kinds, host, name, x);
    }
  }

  /**
   Over every run of the registry, `up` of a device of a snapshot handed out is 1 exactly when the
   one read made of it for that snapshot came to a reading, and 0 exactly when it did not.
   */
  lemma UpIsTheRead(o: Options, s0: State, run: seq<Action>, k: nat, rows: seq<DeviceRow>, counts: seq<Metric>,
      kinds: seq<DeviceType>, i: nat, x: real)
    requires Initial(o, s0) && Legal(o, s0, run) && k < |After(o, s0, run).served|
    requires Fills(rows, After(o, s0, run).served[k].rows) && ListsCounts(counts, rows, kinds)
    ensures var s := After(o, s0, run);
      var j := s.served[k].round;
      j < |s.rounds| &&
      (i < |s.rounds[j].devs| ==>
        var dev := s.rounds[j].devs[i];
        UpSent(rows, counts, dev.host, x) <==>
        exists got :: ReadsFor(o, s0, run, j, i) == [Read(dev, got)] && x == if got.Some? then 1.0 else 0.0)
  {
    var s := After(o, s0, run);
    var v := s.served[k];
    assert Reachable(o, s);
    ServedRowsDistinct(o, s, k, rows);
    ServedRowsBearTheirReads(o, s0, run, k);
    if i >= |s.rounds[v.round].devs| {
      return;
    }
    assert HasRow(o, s0, run, v.rows, v.round, i);
    var p :| 0 <= p < |v.rows| && Bears(o, s0, run, v.rows[p], v.round, i);
    UpOfRow(rows, counts, kinds, p, x);
    hide Reachable, Initial, Legal, After, ReadsFor, DistinctRows, ListsCounts, UpSent;
  }
}
