/**
 The collectors' loops (collector/device.go, strip.go, hub.go, metrics.go), each proved to send
 exactly its part of the series.
 */
module Collectors {
  import opened Emeter
  import opened Readings
  import opened Series
  import opened Wrappers

  datatype Report = Sent | NoData

  /** The metrics channel of one scrape. */
  class Channel {
    var sent: seq<Metric>

    method Send(m: Metric)
      modifies this
      ensures sent == old(sent) + [m]
    {
      sent := sent + [m];
    }
  }

  lemma EmittedSnoc(fields: seq<Field>, f: Field, labels: seq<string>)
    ensures Emitted(fields + [f], labels)
        == Emitted(fields, labels) + if f.value.Some? then [Metric(f.desc, labels, f.value.value)] else []
  {
    assert (fields + [f])[..|fields|] == fields;
  }

  lemma NothingEmitted(start: seq<Metric>, labels: seq<string>)
    ensures start + Emitted([], labels) == start
  {
  }

  /** `emitGauge` and `emitCounter`, carrying the list of series emitted so far under these labels. */
  method Emit(ch: Channel, desc: Desc, value: Option<real>, labels: seq<string>, ghost start: seq<Metric>,
      ghost done: seq<Field>)
    returns (ghost more: seq<Field>)
    requires ch.sent == start + Emitted(done, labels)
    modifies ch
    ensures more == done + [Field(desc, value)] && ch.sent == start + Emitted(more, labels)
  {
    EmittedSnoc(done, Field(desc, value), labels);
    more := done + [Field(desc, value)];
    if value.None? {
      return;
    }
    ch.Send(Metric(desc, labels, value.value));
  }

  /** `energyMetrics.emit`. */
  method EmitEnergy(ch: Channel, energy: Option<EnergyValue>, labels: seq<string>, ghost start: seq<Metric>,
      ghost done: seq<Field>)
    requires ch.sent == start + Emitted(done, labels)
    modifies ch
    ensures ch.sent == start + Emitted(done + EnergyFields(energy), labels)
  {
    hide Emitted;
    if energy.None? {
      assert done + EnergyFields(energy) == done;
      return;
    }
    ghost var more := Emit(ch, PowerWatts, energy.value.power, labels, start, done);
    more := Emit(ch, VoltageVolts, energy.value.voltage, labels, start, more);
    more := Emit(ch, CurrentAmperes, energy.value.current, labels, start, more);
    more := Emit(ch, EnergyTotal, energy.value.total, labels, start, more);
    assert more == done + EnergyFields(energy);
  }

  /** `lightMetrics.emit`: hardware without colour has no colour series. */
  method EmitLight(ch: Channel, r: Reading, kind: DeviceType, withColor: bool)
    modifies ch
    ensures ch.sent == old(ch.sent) + Emitted(LightFields(r, kind, withColor), LabelsFor(r))
  {
    ghost var start := ch.sent;
    var labels := LabelsFor(r);
    hide Emitted;
    NothingEmitted(start, labels);
    ghost var more := Emit(ch, On(kind), Flag(r.on), labels, start, []);
    more := Emit(ch, Brightness(kind), r.brightness, labels, start, more);
    if withColor {
      more := Emit(ch, ColorTemp(kind), r.colorTemp, labels, start, more);
      more := Emit(ch, Hue(kind), r.hue, labels, start, more);
      more := Emit(ch, Saturation(kind), r.saturation, labels, start, more);
    }
    assert more == LightFields(r, kind, withColor);
  }

  /** `readingsOfType`: the kind's readings, and whether there were any devices at all. */
  method ReadingsOfType(rows: seq<DeviceRow>, kind: DeviceType) returns (readings: seq<Reading>, anyDevices: bool)
    ensures readings == ReadingsOf(rows, kind) && (anyDevices <==> rows != [])
  {
    readings, anyDevices := [], false;
    for i := 0 to |rows|
      invariant readings == ReadingsOf(rows[..i], kind) && (anyDevices <==> i > 0)
    {
      assert rows[..i + 1][..i] == rows[..i];
      anyDevices := true;
      if rows[i].reading.None? {
        continue;
      }
      if rows[i].reading.value.kind == kind {
        readings := readings + [rows[i].reading.value];
      }
    }
    assert rows[..|rows|] == rows;
  }

  // ---------------------------------------------------------------- device collector

  method EmitRow(ch: Channel, row: DeviceRow)
    modifies ch
    ensures ch.sent == old(ch.sent) + DeviceBlock(row)
  {
    ghost var start := ch.sent;
    if row.reading.None? {
      EmittedSnoc([], Field(Up, Some(0.0)), [row.host, row.alias]);
      ch.Send(Metric(Up, [row.host, row.alias], 0.0));
      assert [] + [Field(Up, Some(0.0))] == [Field(Up, Some(0.0))];
      return;
    }
    var r := row.reading.value;
    var labels := LabelsFor(r);
    EmittedSnoc([], Field(Up, Some(1.0)), labels);
    EmittedSnoc([], Field(Info, Some(1.0)), InfoLabels(r));
    assert [] + [Field(Up, Some(1.0))] == [Field(Up, Some(1.0))]
        && [] + [Field(Info, Some(1.0))] == [Field(Info, Some(1.0))];
    ch.Send(Metric(Up, labels, 1.0));
    ch.Send(Metric(Info, InfoLabels(r), 1.0));
    ghost var head := ch.sent;
    assert head == start + Emitted([Field(Up, Some(1.0))], labels)
        + Emitted([Field(Info, Some(1.0))], InfoLabels(r));
    EmitCommon(ch, r);
  }

  method EmitCommon(ch: Channel, r: Reading)
    modifies ch
    ensures ch.sent == old(ch.sent) + Emitted(CommonFields(r), LabelsFor(r))
  {
    ghost var start := ch.sent;
    var labels := LabelsFor(r);
    hide Emitted;
    NothingEmitted(start, labels);
    ghost var more := Emit(ch, SignalStrength, r.rssi, labels, start, []);
    more := Emit(ch, SignalLevel, r.signalLevel, labels, start, more);
    more := Emit(ch, Uptime, r.uptime, labels, start, more);
    more := Emit(ch, LedOn, Flag(r.ledOn), labels, start, more);
    more := Emit(ch, Overheated, Flag(r.overheated), labels, start, more);
    more := Emit(ch, Updating, Flag(r.updating), labels, start, more);
    assert more == CommonFields(r);
  }

  /** The map of counts holds each category seen, with how often it was seen. */
  ghost predicate CountsOf(counts: map<DeviceType, nat>, rows: seq<DeviceRow>) {
    forall k :: (k in counts <==> CountOf(rows, k) > 0) && (k in counts ==> counts[k] == CountOf(rows, k))
  }

  lemma CountOneMore(counts: map<DeviceType, nat>, rows: seq<DeviceRow>, n: nat)
    requires n < |rows| && CountsOf(counts, rows[..n])
    ensures var kind := Category(rows[n]);
      CountsOf(counts[kind := (if kind in counts then counts[kind] else 0) + 1], rows[..n + 1])
  {
    assert rows[..n + 1][..n] == rows[..n];
  }

  /**
   `deviceCollector.Update`. A device that failed this scrape is reported as down, and counted as
   what it last was.
   */
  method UpdateDevices(ch: Channel, rows: seq<DeviceRow>)
      returns (outcome: Report, ghost counted: seq<Metric>, ghost kinds: seq<DeviceType>)
    modifies ch
    ensures outcome.NoData? <==> rows == []
    ensures rows == [] ==> ch.sent == old(ch.sent)
    ensures rows != [] ==> ch.sent == old(ch.sent) + DeviceSeries(rows) + counted && ListsCounts(counted, rows, kinds)
  {
    if |rows| == 0 {
      return NoData, [], [];
    }
    var counts: map<DeviceType, nat> := map[];
    ghost var start := ch.sent;
    assert start == start + DeviceSeries(rows[..0]) && CountsOf(counts, rows[..0]);
    hide DeviceSeries, DeviceBlock, CountsOf;
    for i := 0 to |rows|
      invariant ch.sent == start + DeviceSeries(rows[..i])
      invariant CountsOf(counts, rows[..i])
    {
      DeviceSeriesNext(start, rows, i);
      CountOneMore(counts, rows, i);
      var kind := if rows[i].reading.None? then rows[i].kind else rows[i].reading.value.kind;
      counts := counts[kind := (if kind in counts then counts[kind] else 0) + 1];
      EmitRow(ch, rows[i]);
    }
    assert rows[..|rows|] == rows;
    ghost var before := ch.sent;
    counted, kinds := EmitCounts(ch, counts, rows);
    outcome := Sent;
  }

  /** The closing range over the counts, in whatever order the map is walked. */
  method EmitCounts(ch: Channel, counts: map<DeviceType, nat>, ghost rows: seq<DeviceRow>)
      returns (ghost counted: seq<Metric>, ghost kinds: seq<DeviceType>)
    requires CountsOf(counts, rows)
    modifies ch
    ensures ch.sent == old(ch.sent) + counted && ListsCounts(counted, rows, kinds)
  {
    counted, kinds := [], [];
    var todo := counts.Keys;
    while todo != {}
      invariant todo <= counts.Keys && ch.sent == old(ch.sent) + counted && |counted| == |kinds|
      invariant forall i :: 0 <= i < |kinds| ==> counted[i] == CountMetric(rows, kinds[i])
      invariant forall i, j :: 0 <= i < j < |kinds| ==> kinds[i] != kinds[j]
      invariant forall k :: k in kinds <==> k in counts && k !in todo
      decreases |todo|
    {
      var kind :| kind in todo;
      todo := todo - {kind};
      ch.Send(Metric(Devices, [TypeName(kind)], counts[kind] as real));
      counted := counted + [CountMetric(rows, kind)];
      kinds := kinds + [kind];
    }
  }

  lemma {:induction false} KindSeriesNext(start: seq<Metric>, readings: seq<Reading>, i: nat)
    requires i < |readings|
    ensures start + KindSeries(readings[..i + 1]) == start + KindSeries(readings[..i]) + KindBlock(readings[i])
  {
    hide KindBlock;
    assert readings[..i + 1][..i] == readings[..i];
  }

  lemma {:induction false} DeviceSeriesNext(start: seq<Metric>, rows: seq<DeviceRow>, i: nat)
    requires i < |rows|
    ensures start + DeviceSeries(rows[..i + 1]) == start + DeviceSeries(rows[..i]) + DeviceBlock(rows[i])
  {
    hide DeviceBlock;
    assert rows[..i + 1][..i] == rows[..i];
  }

  lemma {:induction false} ChildBlocksNext(start: seq<Metric>, labels: seq<string>, children: seq<Child>, i: nat)
    requires i < |children|
    ensures start + ChildBlocks(labels, children[..i + 1])
        == start + ChildBlocks(labels, children[..i]) + ChildBlock(labels, children[i])
  {
    hide ChildBlock;
    assert children[..i + 1][..i] == children[..i];
  }

  lemma {:induction false} SocketBlocksNext(start: seq<Metric>, labels: seq<string>, sockets: seq<Socket>, i: nat)
    requires i < |sockets|
    ensures start + SocketBlocks(labels, sockets[..i + 1])
        == start + SocketBlocks(labels, sockets[..i]) + SocketBlock(labels, sockets[i])
  {
    hide SocketBlock;
    assert sockets[..i + 1][..i] == sockets[..i];
  }

  // ---------------------------------------------------------------- strip collector

  method EmitSocket(ch: Channel, labels: seq<string>, socket: Socket)
    modifies ch
    ensures ch.sent == old(ch.sent) + SocketBlock(labels, socket)
  {
    ghost var start := ch.sent;
    var values := labels + [socket.id, socket.alias];
    hide Emitted;
    NothingEmitted(start, values);
    ghost var more := Emit(ch, SocketOn, Flag(socket.on), values, start, []);
    more := Emit(ch, SocketUptime, socket.uptime, values, start, more);
    if socket.energy.None? {
      assert more == SocketFields(socket);
      return;
    }
    more := Emit(ch, SocketPower, socket.energy.value.power, values, start, more);
    more := Emit(ch, SocketVoltage, socket.energy.value.voltage, values, start, more);
    more := Emit(ch, SocketCurrent, socket.energy.value.current, values, start, more);
    more := Emit(ch, SocketEnergy, socket.energy.value.total, values, start, more);
    assert more == SocketFields(socket);
  }

  lemma {:induction false} StripSeries(r: Reading)
    requires r.kind == Strip
    ensures KindBlock(r) == Emitted(OwnFields(r), LabelsFor(r)) + SocketBlocks(LabelsFor(r), r.sockets)
    ensures OwnFields(r) == [Field(On(Strip), Flag(r.on)), Field(Sockets, Some(|r.sockets| as real))]
                            + EnergyFields(r.energy)
  {
    hide Emitted, EnergyFields, LightFields, ChildBlocks, SocketBlocks, LabelsFor;
    assert SwitchFields(r) == [Field(On(Strip), Flag(r.on)), Field(Sockets, Some(|r.sockets| as real))];
    var own, parts := Emitted(OwnFields(r), LabelsFor(r)), SocketBlocks(LabelsFor(r), r.sockets);
    assert KindBlock(r) == own + parts + [];
  }

  method EmitSockets(ch: Channel, labels: seq<string>, sockets: seq<Socket>)
    modifies ch
    ensures ch.sent == old(ch.sent) + SocketBlocks(labels, sockets)
  {
    ghost var start := ch.sent;
    assert start == start + SocketBlocks(labels, sockets[..0]);
    hide SocketBlocks, SocketBlock;
    for i := 0 to |sockets|
      invariant ch.sent == start + SocketBlocks(labels, sockets[..i])
    {
      SocketBlocksNext(start, labels, sockets, i);
      EmitSocket(ch, labels, sockets[i]);
    }
    assert sockets[..|sockets|] == sockets;
  }

  /** The strip's own series, outlets apart. */
  method EmitStripOwn(ch: Channel, r: Reading, labels: seq<string>)
    modifies ch
    ensures ch.sent == old(ch.sent)
            + Emitted([Field(On(Strip), Flag(r.on)), Field(Sockets, Some(|r.sockets| as real))]
                      + EnergyFields(r.energy), labels)
  {
    hide Emitted, EnergyFields, Flag;
    ghost var start := ch.sent;
    NothingEmitted(start, labels);
    ghost var more := Emit(ch, On(Strip), Flag(r.on), labels, start, []);
    more := Emit(ch, Sockets, Some(|r.sockets| as real), labels, start, more);
    assert more == [Field(On(Strip), Flag(r.on)), Field(Sockets, Some(|r.sockets| as real))];
    EmitEnergy(ch, r.energy, labels, start, more);
  }

  method EmitStrip(ch: Channel, r: Reading)
    requires r.kind == Strip
    modifies ch
    ensures ch.sent == old(ch.sent) + KindBlock(r)
  {
    hide Emitted, EnergyFields, SocketBlocks, KindBlock, OwnFields, LabelsFor, Flag;
    StripSeries(r);
    var labels := LabelsFor(r);
    EmitStripOwn(ch, r, labels);
    EmitSockets(ch, labels, r.sockets);
  }

  /** `stripCollector.Update`. */
  method UpdateStrips(ch: Channel, rows: seq<DeviceRow>) returns (outcome: Report)
    modifies ch
    ensures outcome.NoData? <==> rows == []
    ensures ch.sent == old(ch.sent) + KindSeries(ReadingsOf(rows, Strip))
  {
    var readings, anyDevices := ReadingsOfType(rows, Strip);
    if !anyDevices {
      return NoData;
    }
    ReadingsHaveKind(rows, Strip);
    ghost var start := ch.sent;
    assert start == start + KindSeries(readings[..0]);
    hide KindSeries, KindBlock, ReadingsOf;
    for i := 0 to |readings|
      invariant ch.sent == start + KindSeries(readings[..i])
    {
      KindSeriesNext(start, readings, i);
      EmitStrip(ch, readings[i]);
    }
    assert readings[..|readings|] == readings;
    return Sent;
  }

  lemma {:induction false} ReadingsHaveKind(rows: seq<DeviceRow>, kind: DeviceType)
    ensures forall i :: 0 <= i < |ReadingsOf(rows, kind)| ==> ReadingsOf(rows, kind)[i].kind == kind
  {
    if rows != [] {
      ReadingsHaveKind(rows[..|rows| - 1], kind);
    }
  }

  // ---------------------------------------------------------------- hub collector

  method EmitChild(ch: Channel, labels: seq<string>, child: Child)
    modifies ch
    ensures ch.sent == old(ch.sent) + ChildBlock(labels, child)
  {
    var values := labels + [child.id, child.alias];
    var full := values + [child.model, child.category];
    EmittedSnoc([], Field(ChildInfo, Some(1.0)), full);
    assert [] + [Field(ChildInfo, Some(1.0))] == [Field(ChildInfo, Some(1.0))];
    ch.Send(Metric(ChildInfo, full, 1.0));
    assert ch.sent == old(ch.sent) + Emitted([Field(ChildInfo, Some(1.0))], full);
    hide Emitted, ChildFields;
    EmitSensors(ch, child, values);
  }

  method EmitSensors(ch: Channel, child: Child, values: seq<string>)
    modifies ch
    ensures ch.sent == old(ch.sent) + Emitted(ChildFields(child), values)
  {
    ghost var start := ch.sent;
    hide Emitted;
    NothingEmitted(start, values);
    ghost var more := Emit(ch, ChildUp, Flag(child.online), values, start, []);
    more := Emit(ch, Battery, child.battery, values, start, more);
    more := Emit(ch, BatteryLow, Flag(child.batteryLow), values, start, more);
    more := Emit(ch, Temperature, child.temperature, values, start, more);
    more := Emit(ch, Humidity, child.humidity, values, start, more);
    more := Emit(ch, ChildSignal, child.rssi, values, start, more);
    more := Emit(ch, ChildSignalLevel, child.signalLevel, values, start, more);
    assert more == ChildFields(child);
  }

  lemma {:induction false} OneEmitted(desc: Desc, value: real, labels: seq<string>)
    ensures Emitted([Field(desc, Some(value))], labels) == [Metric(desc, labels, value)]
  {
    var one := [Field(desc, Some(value))];
    assert one[..|one| - 1] == [];
  }

  lemma {:induction false} HubOwn(r: Reading)
    requires r.kind == Hub
    ensures OwnFields(r) == [Field(Children, Some(|r.children| as real))]
  {
    hide LightFields, EnergyFields, Emitted;
    var one := Field(Children, Some(|r.children| as real));
    assert SwitchFields(r) == [one];
    assert OwnFields(r) == [one] + [];
  }

  lemma {:induction false} HubSeries(r: Reading)
    requires r.kind == Hub
    ensures KindBlock(r)
        == [Metric(Children, LabelsFor(r), |r.children| as real)] + ChildBlocks(LabelsFor(r), r.children)
  {
    hide Emitted, OwnFields, ChildBlocks, SocketBlocks, LabelsFor;
    HubOwn(r);
    OneEmitted(Children, |r.children| as real, LabelsFor(r));
    var own, parts := Emitted(OwnFields(r), LabelsFor(r)), ChildBlocks(LabelsFor(r), r.children);
    assert KindBlock(r) == own + [] + parts;
  }

  method EmitChildren(ch: Channel, labels: seq<string>, children: seq<Child>)
    modifies ch
    ensures ch.sent == old(ch.sent) + ChildBlocks(labels, children)
  {
    ghost var start := ch.sent;
    assert start == start + ChildBlocks(labels, children[..0]);
    hide ChildBlocks, ChildBlock;
    for i := 0 to |children|
      invariant ch.sent == start + ChildBlocks(labels, children[..i])
    {
      ChildBlocksNext(start, labels, children, i);
      EmitChild(ch, labels, children[i]);
    }
    assert children[..|children|] == children;
  }

  method EmitHub(ch: Channel, r: Reading)
    requires r.kind == Hub
    modifies ch
    ensures ch.sent == old(ch.sent) + KindBlock(r)
  {
    hide Emitted, ChildBlock, ChildBlocks, KindBlock, OwnFields, LabelsFor;
    HubSeries(r);
    var labels := LabelsFor(r);
    ch.Send(Metric(Children, labels, |r.children| as real));
    EmitChildren(ch, labels, r.children);
  }

  /** `hubCollector.Update`. */
  method UpdateHubs(ch: Channel, rows: seq<DeviceRow>) returns (outcome: Report)
    modifies ch
    ensures outcome.NoData? <==> rows == []
    ensures ch.sent == old(ch.sent) + KindSeries(ReadingsOf(rows, Hub))
  {
    var readings, anyDevices := ReadingsOfType(rows, Hub);
    if !anyDevices {
      return NoData;
    }
    ReadingsHaveKind(rows, Hub);
    ghost var start := ch.sent;
    assert start == start + KindSeries(readings[..0]);
    hide KindSeries, KindBlock, ReadingsOf;
    for i := 0 to |readings|
      invariant ch.sent == start + KindSeries(readings[..i])
    {
      KindSeriesNext(start, readings, i);
      EmitHub(ch, readings[i]);
    }
    assert readings[..|readings|] == readings;
    return Sent;
  }
}
