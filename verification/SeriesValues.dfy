/**
 What the series of one snapshot say (collector/): which metric is sent for which row, under which
 labels and with which value, written out quantity by quantity from the readings themselves.
 */
module SeriesValues {
  import opened Readings
  import opened Series
  import opened Wrappers

  /** A reading's name, or its address as long as it has none. */
  function NameOf(r: Reading): string {
    if r.alias == "" then r.host else r.alias
  }

  /** The device reported this flag, and 1 stands for set, 0 for not set. */
  predicate OneOrZero(flag: Option<bool>, value: real) {
    flag.Some? && value == (if flag.value then 1.0 else 0.0)
  }

  predicate Reported(quantity: Option<real>, value: real) {
    quantity == Some(value)
  }

  /** Hubs, and devices of a kind the exporter does not know, are not metered. */
  predicate Metered(r: Reading) {
    r.kind !in {Hub, UnknownType} && r.energy.Some?
  }

  /** What a reading says under its device's own labels. */
  predicate DeviceSays(r: Reading, desc: Desc, value: real) {
    match desc
    case Up => value == 1.0
    case SignalStrength => Reported(r.rssi, value)
    case SignalLevel => Reported(r.signalLevel, value)
    case Uptime => Reported(r.uptime, value)
    case LedOn => OneOrZero(r.ledOn, value)
    case Overheated => OneOrZero(r.overheated, value)
    case Updating => OneOrZero(r.updating, value)
    case _ => OwnSays(r, desc, value)
  }

  /** What the collector of its kind adds to that. */
  predicate OwnSays(r: Reading, desc: Desc, value: real) {
    match desc
    case PowerWatts => Metered(r) && Reported(r.energy.value.power, value)
    case VoltageVolts => Metered(r) && Reported(r.energy.value.voltage, value)
    case CurrentAmperes => Metered(r) && Reported(r.energy.value.current, value)
    case EnergyTotal => Metered(r) && Reported(r.energy.value.total, value)
    case On(kind) => kind == r.kind && kind !in {Hub, UnknownType} && OneOrZero(r.on, value)
    case Brightness(kind) => kind == r.kind && kind in {Bulb, LightStrip, Dimmer} && Reported(r.brightness, value)
    case ColorTemp(kind) => kind == r.kind && kind in {Bulb, LightStrip} && Reported(r.colorTemp, value)
    case Hue(kind) => kind == r.kind && kind in {Bulb, LightStrip} && Reported(r.hue, value)
    case Saturation(kind) => kind == r.kind && kind in {Bulb, LightStrip} && Reported(r.saturation, value)
    case Length => r.kind == LightStrip && Reported(r.length, value)
    case Sockets => r.kind == Strip && value == |r.sockets| as real
    case Children => r.kind == Hub && value == |r.children| as real
    case _ => false
  }

  /** What one outlet of a strip says under its own labels. */
  predicate OutletSays(s: Socket, desc: Desc, value: real) {
    match desc
    case SocketOn => OneOrZero(s.on, value)
    case SocketUptime => Reported(s.uptime, value)
    case SocketPower => s.energy.Some? && Reported(s.energy.value.power, value)
    case SocketVoltage => s.energy.Some? && Reported(s.energy.value.voltage, value)
    case SocketCurrent => s.energy.Some? && Reported(s.energy.value.current, value)
    case SocketEnergy => s.energy.Some? && Reported(s.energy.value.total, value)
    case _ => false
  }

  /** What one sensor of a hub says under its own labels. */
  predicate SensorSays(c: Child, desc: Desc, value: real) {
    match desc
    case ChildUp => OneOrZero(c.online, value)
    case Battery => Reported(c.battery, value)
    case BatteryLow => OneOrZero(c.batteryLow, value)
    case Temperature => Reported(c.temperature, value)
    case Humidity => Reported(c.humidity, value)
    case ChildSignal => Reported(c.rssi, value)
    case ChildSignalLevel => Reported(c.signalLevel, value)
    case _ => false
  }

  predicate SocketMetric(r: Reading, s: Socket, m: Metric) {
    m.labels == [r.host, NameOf(r), s.id, s.alias] && OutletSays(s, m.desc, m.value)
  }

  predicate ChildMetric(r: Reading, c: Child, m: Metric) {
    || (m.labels == [r.host, NameOf(r), c.id, c.alias] && SensorSays(c, m.desc, m.value))
    || m == Metric(ChildInfo, [r.host, NameOf(r), c.id, c.alias, c.model, c.category], 1.0)
  }

  predicate InfoMetric(r: Reading, m: Metric) {
    m == Metric(Info, [r.host, NameOf(r), r.facts.model, r.facts.deviceID, r.facts.hardwareVersion,
                       r.facts.firmwareVersion, r.facts.mac, Spelled(r.kind), r.facts.protocol], 1.0)
  }

  function Spelled(kind: DeviceType): string {
    if kind == Plug then "plug"
    else if kind == Strip then "strip"
    else if kind == Bulb then "bulb"
    else if kind == LightStrip then "lightstrip"
    else if kind == Dimmer then "dimmer"
    else if kind == WallSwitch then "wallswitch"
    else if kind == Hub then "hub"
    else "unknown"
  }

  /** Everything a reading says, about the device and about its parts. */
  predicate ReadingSays(r: Reading, m: Metric) {
    || (m.labels == [r.host, NameOf(r)] && DeviceSays(r, m.desc, m.value))
    || InfoMetric(r, m)
    || (r.kind == Strip && exists i :: 0 <= i < |r.sockets| && SocketMetric(r, r.sockets[i], m))
    || (r.kind == Hub && exists i :: 0 <= i < |r.children| && ChildMetric(r, r.children[i], m))
  }

  /** A device that could not be read says only that it is down, under the name it was last known by. */
  predicate RowSays(row: DeviceRow, m: Metric) {
    match row.reading
    case None => m == Metric(Up, [row.host, row.alias], 0.0)
    case Some(r) => ReadingSays(r, m)
  }

  // ---------------------------------------------------------------- lists of fields

  lemma {:induction false} EmittedAre(fields: seq<Field>, labels: seq<string>, m: Metric)
    ensures m in Emitted(fields, labels) <==> m.labels == labels && Field(m.desc, Some(m.value)) in fields
  {
    if fields != [] {
      var front, last := fields[..|fields| - 1], fields[|fields| - 1];
      EmittedAre(front, labels, m);
      assert fields == front + [last];
    }
  }

  lemma CommonFieldsSay(r: Reading, desc: Desc, value: real)
    ensures Field(desc, Some(value)) in CommonFields(r)
        <==> DeviceSays(r, desc, value) && desc != Up && !OwnSays(r, desc, value)
  {
  }

  lemma EnergyFieldsSay(r: Reading, desc: Desc, value: real)
    requires r.kind !in {Hub, UnknownType}
    ensures Field(desc, Some(value)) in EnergyFields(r.energy)
        <==> EnergyDesc(desc) && OwnSays(r, desc, value)
  {
  }

  lemma LightFieldsSay(r: Reading, desc: Desc, value: real)
    requires r.kind in {Bulb, LightStrip, Dimmer}
    ensures Field(desc, Some(value)) in LightFields(r, r.kind, r.kind != Dimmer)
        <==> !EnergyDesc(desc) && desc != Length && OwnSays(r, desc, value)
  {
    var base := [Field(On(r.kind), Flag(r.on)), Field(Brightness(r.kind), r.brightness)];
    if r.kind == Dimmer {
      assert LightFields(r, r.kind, false) == base;
    } else {
      var color := [Field(ColorTemp(r.kind), r.colorTemp), Field(Hue(r.kind), r.hue),
                    Field(Saturation(r.kind), r.saturation)];
      assert LightFields(r, r.kind, true) == base + color;
    }
  }

  lemma SwitchFieldsSay(r: Reading, desc: Desc, value: real)
    ensures Field(desc, Some(value)) in SwitchFields(r) <==> !EnergyDesc(desc) && OwnSays(r, desc, value)
  {
    if r.kind in {Bulb, LightStrip, Dimmer} {
      LightFieldsSay(r, desc, value);
      hide LightFields;
      if r.kind == LightStrip {
        assert SwitchFields(r) == LightFields(r, LightStrip, true) + [Field(Length, r.length)];
      }
    }
  }

  lemma OwnFieldsSay(r: Reading, desc: Desc, value: real)
    ensures Field(desc, Some(value)) in OwnFields(r) <==> OwnSays(r, desc, value)
  {
    SwitchFieldsSay(r, desc, value);
    if r.kind !in {Hub, UnknownType} {
      EnergyFieldsSay(r, desc, value);
    }
    hide SwitchFields, EnergyFields;
  }

  lemma SocketFieldsSay(s: Socket, desc: Desc, value: real)
    ensures Field(desc, Some(value)) in SocketFields(s) <==> OutletSays(s, desc, value)
  {
    var base := [Field(SocketOn, Flag(s.on)), Field(SocketUptime, s.uptime)];
    if s.energy.None? {
      assert SocketFields(s) == base;
    } else {
      var e := s.energy.value;
      var meter := [Field(SocketPower, e.power), Field(SocketVoltage, e.voltage), Field(SocketCurrent, e.current),
                    Field(SocketEnergy, e.total)];
      assert SocketFields(s) == base + meter;
    }
  }

  lemma ChildFieldsSay(c: Child, desc: Desc, value: real)
    ensures Field(desc, Some(value)) in ChildFields(c) <==> SensorSays(c, desc, value)
  {
  }

  // ---------------------------------------------------------------- one reading

  lemma {:induction false} SocketBlocksSay(r: Reading, sockets: seq<Socket>, m: Metric)
    ensures m in SocketBlocks(LabelsFor(r), sockets)
        <==> exists i :: 0 <= i < |sockets| && SocketMetric(r, sockets[i], m)
  {
    if sockets != [] {
      var front, last := sockets[..|sockets| - 1], sockets[|sockets| - 1];
      SocketBlocksSay(r, front, m);
      SocketBlockSays(r, last, m);
      hide SocketMetric, SocketBlock;
      assert forall i :: 0 <= i < |front| ==> sockets[i] == front[i];
    }
  }

  lemma SocketBlockSays(r: Reading, s: Socket, m: Metric)
    ensures m in SocketBlock(LabelsFor(r), s) <==> SocketMetric(r, s, m)
  {
    EmittedAre(SocketFields(s), SocketLabels(LabelsFor(r), s), m);
    SocketFieldsSay(s, m.desc, m.value);
    hide Emitted, SocketFields, OutletSays;
    assert SocketLabels(LabelsFor(r), s) == [r.host, NameOf(r), s.id, s.alias];
  }

  lemma ChildBlockSays(r: Reading, c: Child, m: Metric)
    ensures m in ChildBlock(LabelsFor(r), c) <==> ChildMetric(r, c, m)
  {
    var labels := LabelsFor(r);
    EmittedAre(InfoFields(), ChildInfoLabels(labels, c), m);
    EmittedAre(ChildFields(c), ChildLabels(labels, c), m);
    ChildFieldsSay(c, m.desc, m.value);
    hide Emitted, ChildFields, SensorSays;
    assert ChildLabels(labels, c) == [r.host, NameOf(r), c.id, c.alias];
    assert ChildInfoLabels(labels, c) == [r.host, NameOf(r), c.id, c.alias, c.model, c.category];
  }

  lemma {:induction false} ChildBlocksSay(r: Reading, children: seq<Child>, m: Metric)
    ensures m in ChildBlocks(LabelsFor(r), children)
        <==> exists i :: 0 <= i < |children| && ChildMetric(r, children[i], m)
  {
    if children != [] {
      var front, last := children[..|children| - 1], children[|children| - 1];
      ChildBlocksSay(r, front, m);
      ChildBlockSays(r, last, m);
      hide ChildMetric, ChildBlock;
      assert forall i :: 0 <= i < |front| ==> children[i] == front[i];
    }
  }

  /** What the collector of a reading's kind sends for it. */
  predicate KindSays(r: Reading, m: Metric) {
    || (m.labels == [r.host, NameOf(r)] && OwnSays(r, m.desc, m.value))
    || (r.kind == Strip && exists i :: 0 <= i < |r.sockets| && SocketMetric(r, r.sockets[i], m))
    || (r.kind == Hub && exists i :: 0 <= i < |r.children| && ChildMetric(r, r.children[i], m))
  }

  lemma KindBlockSays(r: Reading, m: Metric)
    ensures m in KindBlock(r) <==> KindSays(r, m)
  {
    EmittedAre(OwnFields(r), LabelsFor(r), m);
    OwnFieldsSay(r, m.desc, m.value);
    SocketBlocksSay(r, r.sockets, m);
    ChildBlocksSay(r, r.children, m);
    hide Emitted, OwnFields, OwnSays, SocketBlocks, ChildBlocks, SocketMetric, ChildMetric;
  }

  /** What the device collector sends for a reading. */
  predicate CommonSays(r: Reading, m: Metric) {
    || (m.labels == [r.host, NameOf(r)] && DeviceSays(r, m.desc, m.value) && !OwnSays(r, m.desc, m.value))
    || InfoMetric(r, m)
  }

  lemma InfoLabelsAre(r: Reading)
    ensures InfoLabels(r) == [r.host, NameOf(r), r.facts.model, r.facts.deviceID, r.facts.hardwareVersion,
                              r.facts.firmwareVersion, r.facts.mac, Spelled(r.kind), r.facts.protocol]
  {
  }

  lemma DeviceBlockSays(row: DeviceRow, m: Metric)
    ensures m in DeviceBlock(row) <==>
      match row.reading
      case None => m == Metric(Up, [row.host, row.alias], 0.0)
      case Some(r) => CommonSays(r, m)
  {
    match row.reading
    case None =>
      EmittedAre([Field(Up, Some(0.0))], [row.host, row.alias], m);
    case Some(r) =>
      EmittedAre([Field(Up, Some(1.0))], LabelsFor(r), m);
      EmittedAre([Field(Info, Some(1.0))], InfoLabels(r), m);
      EmittedAre(CommonFields(r), LabelsFor(r), m);
      CommonFieldsSay(r, m.desc, m.value);
      InfoLabelsAre(r);
      hide Emitted, CommonFields, InfoLabels;
  }

  // ---------------------------------------------------------------- one snapshot

  ghost predicate SomeRow(rows: seq<DeviceRow>, m: Metric) {
    exists i :: 0 <= i < |rows| && RowSays(rows[i], m)
  }

  ghost predicate SomeBlock(rows: seq<DeviceRow>, m: Metric) {
    exists i :: 0 <= i < |rows| && m in DeviceBlock(rows[i])
  }

  lemma SomeBlockMore(rows: seq<DeviceRow>, m: Metric)
    requires rows != []
    ensures SomeBlock(rows, m) <==> SomeBlock(rows[..|rows| - 1], m) || m in DeviceBlock(rows[|rows| - 1])
  {
    hide DeviceBlock;
    var front := rows[..|rows| - 1];
    if SomeBlock(front, m) {
      var i :| 0 <= i < |front| && m in DeviceBlock(front[i]);
      assert m in DeviceBlock(rows[i]);
    }
    assert forall i :: 0 <= i < |front| ==> rows[i] == front[i];
  }

  lemma {:induction false} DeviceSeriesAre(rows: seq<DeviceRow>, m: Metric)
    ensures m in DeviceSeries(rows) <==> SomeBlock(rows, m)
  {
    hide DeviceBlock;
    if rows != [] {
      DeviceSeriesAre(rows[..|rows| - 1], m);
      SomeBlockMore(rows, m);
    }
  }

  /** A row whose reading is of one of these kinds, and whose own collector sends this metric for it. */
  predicate OfKinds(row: DeviceRow, kinds: seq<DeviceType>, m: Metric) {
    row.reading.Some? && row.reading.value.kind in kinds && m in KindBlock(row.reading.value)
  }

  ghost predicate SomeOfKinds(rows: seq<DeviceRow>, kinds: seq<DeviceType>, m: Metric) {
    exists i :: 0 <= i < |rows| && OfKinds(rows[i], kinds, m)
  }

  lemma SomeOfMore(rows: seq<DeviceRow>, kinds: seq<DeviceType>, m: Metric)
    requires rows != []
    ensures SomeOfKinds(rows, kinds, m)
        <==> SomeOfKinds(rows[..|rows| - 1], kinds, m) || OfKinds(rows[|rows| - 1], kinds, m)
  {
    hide OfKinds;
    var front := rows[..|rows| - 1];
    assert forall i :: 0 <= i < |front| ==> rows[i] == front[i];
    if SomeOfKinds(front, kinds, m) {
      var i :| 0 <= i < |front| && OfKinds(front[i], kinds, m);
      assert OfKinds(rows[i], kinds, m);
    }
  }

  lemma SomeOfMoreKinds(rows: seq<DeviceRow>, kinds: seq<DeviceType>, m: Metric)
    requires kinds != []
    ensures SomeOfKinds(rows, kinds, m)
        <==> SomeOfKinds(rows, kinds[..|kinds| - 1], m) || SomeOfKinds(rows, [kinds[|kinds| - 1]], m)
  {
    hide KindBlock;
    var front, last := kinds[..|kinds| - 1], kinds[|kinds| - 1];
    assert kinds == front + [last];
    assert forall row :: OfKinds(row, kinds, m) <==> OfKinds(row, front, m) || OfKinds(row, [last], m);
    hide OfKinds;
  }

  lemma KindSeriesJoin(readings: seq<Reading>, r: Reading, m: Metric)
    ensures m in KindSeries(readings + [r]) <==> m in KindSeries(readings) || m in KindBlock(r)
  {
    hide KindBlock;
    assert (readings + [r])[..|readings|] == readings;
  }

  lemma {:induction false} KindSeriesAre(rows: seq<DeviceRow>, kind: DeviceType, m: Metric)
    ensures m in KindSeries(ReadingsOf(rows, kind)) <==> SomeOfKinds(rows, [kind], m)
  {
    hide KindBlock;
    if rows != [] {
      hide KindSeries;
      var front, last := rows[..|rows| - 1], rows[|rows| - 1];
      KindSeriesAre(front, kind, m);
      SomeOfMore(rows, [kind], m);
      hide SomeOfKinds;
      if last.reading.Some? && last.reading.value.kind == kind {
        KindSeriesJoin(ReadingsOf(front, kind), last.reading.value, m);
      } else {
        assert ReadingsOf(rows, kind) == ReadingsOf(front, kind);
      }
    }
  }

  lemma {:induction false} KindsSeriesAre(rows: seq<DeviceRow>, kinds: seq<DeviceType>, m: Metric)
    ensures m in KindsSeries(rows, kinds) <==> SomeOfKinds(rows, kinds, m)
  {
    hide KindBlock, KindSeries, ReadingsOf;
    if kinds != [] {
      var front, last := kinds[..|kinds| - 1], kinds[|kinds| - 1];
      KindsSeriesAre(rows, front, m);
      KindSeriesAre(rows, last, m);
      SomeOfMoreKinds(rows, kinds, m);
    }
  }

  lemma RowIsSaid(row: DeviceRow, m: Metric)
    ensures RowSays(row, m) <==> m in DeviceBlock(row) || OfKinds(row, KINDS, m)
  {
    DeviceBlockSays(row, m);
    if row.reading.Some? {
      var r := row.reading.value;
      KindBlockSays(r, m);
      hide DeviceBlock, KindBlock, InfoMetric, SocketMetric, ChildMetric;
      if r.kind == UnknownType {
        hide DeviceSays;
        assert !OwnSays(r, m.desc, m.value);
      } else {
        assert r.kind in KINDS;
        assert OwnSays(r, m.desc, m.value) ==> DeviceSays(r, m.desc, m.value);
      }
    }
  }

  /**
   Everything all collectors together send for one snapshot: the counts, and of every row exactly
   what its reading says.
   */
  lemma SeriesSayTheReadings(rows: seq<DeviceRow>, counts: seq<Metric>, m: Metric)
    ensures m in AllSeries(rows, counts) <==> m in counts || SomeRow(rows, m)
  {
    DeviceSeriesAre(rows, m);
    KindsSeriesAre(rows, KINDS, m);
    forall i | 0 <= i < |rows|
      ensures RowSays(rows[i], m)
         <==> m in DeviceBlock(rows[i]) || OfKinds(rows[i], KINDS, m)
    {
      RowIsSaid(rows[i], m);
    }
    hide DeviceBlock, OfKinds, RowSays, DeviceSeries, KindsSeries;
  }

  // ---------------------------------------------------------------- as a reader of the metrics sees it

  /** The row was read, and its reading goes by this address and name. */
  predicate ReadAs(row: DeviceRow, host: string, name: string) {
    && row.reading.Some? && row.reading.value.host == host
    && name == if row.reading.value.alias == "" then host else row.reading.value.alias
  }

  predicate MeteredAs(row: DeviceRow, host: string, name: string) {
    && ReadAs(row, host, name)
    && row.reading.value.kind in {Plug, Strip, Bulb, LightStrip, Dimmer, WallSwitch}
    && row.reading.value.energy.Some?
  }

  lemma {:induction false} CountsAreDevices(rows: seq<DeviceRow>, counts: seq<Metric>, kinds: seq<DeviceType>,
      m: Metric)
    requires ListsCounts(counts, rows, kinds) && m in counts
    ensures m.desc.Devices?
  {
    CountsOnce(counts, rows, kinds);
  }

  lemma PairsDiffer(a: string, b: string, host: string, name: string)
    ensures [a, b] == [host, name] <==> a == host && b == name
  {
    assert [a, b][0] == a && [a, b][1] == b && [host, name][0] == host && [host, name][1] == name;
  }

  /** Under a device's own two labels, a row says what its reading says of the device. */
  lemma RowSaysOfDevice(row: DeviceRow, desc: Desc, host: string, name: string, x: real)
    requires !desc.Up?
    ensures RowSays(row, Metric(desc, [host, name], x))
        <==> ReadAs(row, host, name) && DeviceSays(row.reading.value, desc, x)
  {
    var m := Metric(desc, [host, name], x);
    hide DeviceSays, OutletSays, SensorSays;
    if row.reading.Some? {
      var r := row.reading.value;
      PairsDiffer(r.host, NameOf(r), host, name);
      assert |m.labels| == 2;
    }
  }

  lemma RowSaysUp(row: DeviceRow, host: string, name: string, x: real)
    ensures RowSays(row, Metric(Up, [host, name], x))
        <==> if row.reading.Some? then ReadAs(row, host, name) && x == 1.0
             else row.host == host && row.alias == name && x == 0.0
  {
    var m := Metric(Up, [host, name], x);
    hide OutletSays, SensorSays;
    if row.reading.Some? {
      var r := row.reading.value;
      PairsDiffer(r.host, NameOf(r), host, name);
      assert |m.labels| == 2;
    } else {
      PairsDiffer(row.host, row.alias, host, name);
    }
  }

  ghost predicate SomeDevice(rows: seq<DeviceRow>, desc: Desc, host: string, name: string, x: real) {
    exists i :: 0 <= i < |rows| && ReadAs(rows[i], host, name) && DeviceSays(rows[i].reading.value, desc, x)
  }

  lemma DeviceSeriesIff(rows: seq<DeviceRow>, counts: seq<Metric>, kinds: seq<DeviceType>, desc: Desc, host: string,
      name: string, x: real)
    requires ListsCounts(counts, rows, kinds) && !desc.Up? && !desc.Devices?
    ensures Metric(desc, [host, name], x) in AllSeries(rows, counts) <==> SomeDevice(rows, desc, host, name, x)
  {
    var m := Metric(desc, [host, name], x);
    SeriesSayTheReadings(rows, counts, m);
    if m in counts {
      CountsAreDevices(rows, counts, kinds, m);
    }
    forall i | 0 <= i < |rows|
      ensures RowSays(rows[i], m) <==> ReadAs(rows[i], host, name) && DeviceSays(rows[i].reading.value, desc, x)
    {
      RowSaysOfDevice(rows[i], desc, host, name, x);
    }
    hide RowSays, DeviceSays, ReadAs, AllSeries;
  }

  predicate SaysOfEnergy(row: DeviceRow, desc: Desc, host: string, name: string, x: real) {
    ReadAs(row, host, name) && OwnSays(row.reading.value, desc, x)
  }

  lemma EnergySeriesIff(rows: seq<DeviceRow>, counts: seq<Metric>, kinds: seq<DeviceType>, desc: Desc, host: string,
      name: string, x: real)
    requires ListsCounts(counts, rows, kinds) && desc in {PowerWatts, VoltageVolts, CurrentAmperes, EnergyTotal}
    ensures Metric(desc, [host, name], x) in AllSeries(rows, counts)
        <==> exists i :: 0 <= i < |rows| && SaysOfEnergy(rows[i], desc, host, name, x)
  {
    DeviceSeriesIff(rows, counts, kinds, desc, host, name, x);
    hide AllSeries, ListsCounts, ReadAs, OwnSays;
  }

  lemma MeteredKinds(row: DeviceRow, host: string, name: string)
    ensures MeteredAs(row, host, name) <==> ReadAs(row, host, name) && Metered(row.reading.value)
  {
    if ReadAs(row, host, name) {
      var kind := row.reading.value.kind;
      assert kind.Plug? || kind.Strip? || kind.Bulb? || kind.LightStrip? || kind.Dimmer? || kind.WallSwitch?
          || kind.Hub? || kind.UnknownType?;
    }
  }

  /**
   A quantity of energy is sent for a host and a name exactly when a reading of theirs, of a kind
   with energy, has it; and with the value it has there.
   */
  lemma EnergyIsWhatWasRead(rows: seq<DeviceRow>, counts: seq<Metric>, kinds: seq<DeviceType>, host: string,
      name: string, x: real)
    requires ListsCounts(counts, rows, kinds)
    ensures Metric(PowerWatts, [host, name], x) in AllSeries(rows, counts) <==> exists i ::
      0 <= i < |rows| && MeteredAs(rows[i], host, name) && rows[i].reading.value.energy.value.power == Some(x)
    ensures Metric(VoltageVolts, [host, name], x) in AllSeries(rows, counts) <==> exists i ::
      0 <= i < |rows| && MeteredAs(rows[i], host, name) && rows[i].reading.value.energy.value.voltage == Some(x)
    ensures Metric(CurrentAmperes, [host, name], x) in AllSeries(rows, counts) <==> exists i ::
      0 <= i < |rows| && MeteredAs(rows[i], host, name) && rows[i].reading.value.energy.value.current == Some(x)
    ensures Metric(EnergyTotal, [host, name], x) in AllSeries(rows, counts) <==> exists i ::
      0 <= i < |rows| && MeteredAs(rows[i], host, name) && rows[i].reading.value.energy.value.total == Some(x)
  {
    hide AllSeries, ListsCounts;
    forall i | 0 <= i < |rows|
      ensures SaysOfEnergy(rows[i], PowerWatts, host, name, x)
          <==> MeteredAs(rows[i], host, name) && rows[i].reading.value.energy.value.power == Some(x)
      ensures SaysOfEnergy(rows[i], VoltageVolts, host, name, x)
          <==> MeteredAs(rows[i], host, name) && rows[i].reading.value.energy.value.voltage == Some(x)
      ensures SaysOfEnergy(rows[i], CurrentAmperes, host, name, x)
          <==> MeteredAs(rows[i], host, name) && rows[i].reading.value.energy.value.current == Some(x)
      ensures SaysOfEnergy(rows[i], EnergyTotal, host, name, x)
          <==> MeteredAs(rows[i], host, name) && rows[i].reading.value.energy.value.total == Some(x)
    {
      MeteredKinds(rows[i], host, name);
      hide ReadAs;
    }
    hide MeteredAs, SaysOfEnergy;
    EnergySeriesIff(rows, counts, kinds, PowerWatts, host, name, x);
    EnergySeriesIff(rows, counts, kinds, VoltageVolts, host, name, x);
    EnergySeriesIff(rows, counts, kinds, CurrentAmperes, host, name, x);
    EnergySeriesIff(rows, counts, kinds, EnergyTotal, host, name, x);
  }

  /** `up` is 1 exactly for a row with a reading and 0 exactly for one without. */
  lemma UpSaysWhatWasRead(rows: seq<DeviceRow>, counts: seq<Metric>, kinds: seq<DeviceType>, host: string,
      name: string, x: real)
    requires ListsCounts(counts, rows, kinds)
    ensures Metric(Up, [host, name], x) in AllSeries(rows, counts) <==> exists i ::
      0 <= i < |rows|
      && if rows[i].reading.Some? then ReadAs(rows[i], host, name) && x == 1.0
         else rows[i].host == host && rows[i].alias == name && x == 0.0
  {
    var m := Metric(Up, [host, name], x);
    SeriesSayTheReadings(rows, counts, m);
    if m in counts {
      CountsAreDevices(rows, counts, kinds, m);
    }
    forall i | 0 <= i < |rows|
      ensures RowSays(rows[i], m) <==>
        if rows[i].reading.Some? then ReadAs(rows[i], host, name) && x == 1.0
        else rows[i].host == host && rows[i].alias == name && x == 0.0
    {
      RowSaysUp(rows[i], host, name, x);
    }
    hide RowSays, ReadAs, AllSeries;
  }

  // ---------------------------------------------------------------- how many of each kind

  /** What a row is counted as: what was read, and what it last was when it could not be read. */
  predicate CountedAs(row: DeviceRow, kind: DeviceType) {
    kind == if row.reading.Some? then row.reading.value.kind else row.kind
  }

  lemma LastCounted(rows: seq<DeviceRow>, kind: DeviceType)
    requires rows != []
    ensures var front := rows[..|rows| - 1];
      |set i | 0 <= i < |rows| && CountedAs(rows[i], kind)|
      == |set i | 0 <= i < |front| && CountedAs(front[i], kind)|
         + if CountedAs(rows[|rows| - 1], kind) then 1 else 0
  {
    hide CountedAs;
    var front, last := rows[..|rows| - 1], rows[|rows| - 1];
    var before := set i | 0 <= i < |front| && CountedAs(front[i], kind);
    var after := set i | 0 <= i < |rows| && CountedAs(rows[i], kind);
    assert forall i :: 0 <= i < |front| ==> rows[i] == front[i];
    if CountedAs(last, kind) {
      assert after == before + {|front|};
    } else {
      assert after == before;
    }
  }

  lemma {:induction false} CountIs(rows: seq<DeviceRow>, kind: DeviceType)
    ensures CountOf(rows, kind) == |set i | 0 <= i < |rows| && CountedAs(rows[i], kind)|
  {
    if rows != [] {
      var front, last := rows[..|rows| - 1], rows[|rows| - 1];
      CountIs(front, kind);
      LastCounted(rows, kind);
      assert Category(last) == kind <==> CountedAs(last, kind);
      hide CountedAs, Category;
    }
  }

  /** One count for each kind there is a row of, and none for any other. */
  lemma CountsSayHowMany(rows: seq<DeviceRow>, counts: seq<Metric>, kinds: seq<DeviceType>, m: Metric)
    requires ListsCounts(counts, rows, kinds)
    ensures m in counts <==> exists kind: DeviceType ::
      var n := |set i | 0 <= i < |rows| && CountedAs(rows[i], kind)|;
      n > 0 && m == Metric(Devices, [Spelled(kind)], n as real)
  {
    forall kind: DeviceType
      ensures CountOf(rows, kind) == |set i | 0 <= i < |rows| && CountedAs(rows[i], kind)|
      ensures TypeName(kind) == Spelled(kind)
    {
      CountIs(rows, kind);
    }
  }
}
