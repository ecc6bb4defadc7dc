/** What the collectors emit for one snapshot (collector/), as values: metric names are constructors of `Desc`. */
module Series {
  import opened Emeter
  import opened Readings
  import opened Wrappers

  datatype Desc =
    | Up | Info | SignalStrength | SignalLevel | Uptime | LedOn | Overheated | Updating | Devices
    | PowerWatts | VoltageVolts | CurrentAmperes | EnergyTotal
    | On(kind: DeviceType) | Brightness(kind: DeviceType) | ColorTemp(kind: DeviceType)
    | Hue(kind: DeviceType) | Saturation(kind: DeviceType) | Length
    | Sockets | SocketOn | SocketUptime | SocketPower | SocketVoltage | SocketCurrent | SocketEnergy
    | Children | ChildInfo | ChildUp | Battery | BatteryLow | Temperature | Humidity | ChildSignal | ChildSignalLevel

  datatype Metric = Metric(desc: Desc, labels: seq<string>, value: real)

  /** One device's row of the snapshot, with the name and category it was last known by. */
  datatype DeviceRow = DeviceRow(host: string, alias: string, kind: DeviceType, reading: Option<Reading>)

  /** A series and the value to send for it, if the device reported one. */
  datatype Field = Field(desc: Desc, value: Option<real>)

  /** `emitGauge` and `emitCounter` over a list of series with one set of labels. */
  function Emitted(fields: seq<Field>, labels: seq<string>): seq<Metric> {
    if fields == [] then []
    else
      var last := fields[|fields| - 1];
      Emitted(fields[..|fields| - 1], labels)
      + if last.value.Some? then [Metric(last.desc, labels, last.value.value)] else []
  }

  /** `boolValue`. */
  function Flag(v: Option<bool>): Option<real> {
    if v.Some? then Some(if v.value then 1.0 else 0.0) else None
  }

  /** `aliasOf`. */
  function AliasOf(r: Reading): string {
    if r.alias != "" then r.alias else r.host
  }

  function LabelsFor(r: Reading): seq<string> {
    [r.host, AliasOf(r)]
  }

  // ---------------------------------------------------------------- one reading

  function TypeName(kind: DeviceType): string {
    match kind
    case Plug => "plug" case Strip => "strip" case Bulb => "bulb" case LightStrip => "lightstrip"
    case Dimmer => "dimmer" case WallSwitch => "wallswitch" case Hub => "hub" case UnknownType => "unknown"
  }

  function CommonFields(r: Reading): seq<Field> {
    [ Field(SignalStrength, r.rssi), Field(SignalLevel, r.signalLevel), Field(Uptime, r.uptime),
      Field(LedOn, Flag(r.ledOn)), Field(Overheated, Flag(r.overheated)), Field(Updating, Flag(r.updating)) ]
  }

  function InfoLabels(r: Reading): seq<string> {
    var f := r.facts;
    LabelsFor(r)
    + [f.model, f.deviceID, f.hardwareVersion, f.firmwareVersion, f.mac, TypeName(r.kind), f.protocol]
  }

  /** The device collector's series for one row, reachable or not. */
  function DeviceBlock(row: DeviceRow): seq<Metric> {
    match row.reading
    case None => Emitted([Field(Up, Some(0.0))], [row.host, row.alias])
    case Some(r) =>
      Emitted([Field(Up, Some(1.0))], LabelsFor(r))
      + Emitted([Field(Info, Some(1.0))], InfoLabels(r))
      + Emitted(CommonFields(r), LabelsFor(r))
  }

  function EnergyFields(e: Option<EnergyValue>): seq<Field> {
    match e
    case None => []
    case Some(v) =>
      [ Field(PowerWatts, v.power), Field(VoltageVolts, v.voltage), Field(CurrentAmperes, v.current),
        Field(EnergyTotal, v.total) ]
  }

  function LightFields(r: Reading, kind: DeviceType, withColor: bool): seq<Field> {
    [Field(On(kind), Flag(r.on)), Field(Brightness(kind), r.brightness)]
    + if withColor then [Field(ColorTemp(kind), r.colorTemp), Field(Hue(kind), r.hue),
        Field(Saturation(kind), r.saturation)] else []
  }

  function SocketFields(s: Socket): seq<Field> {
    [Field(SocketOn, Flag(s.on)), Field(SocketUptime, s.uptime)]
    + match s.energy
      case None => []
      case Some(e) =>
        [ Field(SocketPower, e.power), Field(SocketVoltage, e.voltage), Field(SocketCurrent, e.current),
          Field(SocketEnergy, e.total) ]
  }

  function SocketLabels(labels: seq<string>, s: Socket): seq<string> {
    labels + [s.id, s.alias]
  }

  function SocketBlock(labels: seq<string>, s: Socket): seq<Metric> {
    Emitted(SocketFields(s), SocketLabels(labels, s))
  }

  function SocketBlocks(labels: seq<string>, sockets: seq<Socket>): seq<Metric> {
    if sockets == [] then []
    else SocketBlocks(labels, sockets[..|sockets| - 1]) + SocketBlock(labels, sockets[|sockets| - 1])
  }

  function ChildLabels(labels: seq<string>, c: Child): seq<string> {
    labels + [c.id, c.alias]
  }

  function ChildFields(c: Child): seq<Field> {
    [ Field(ChildUp, Flag(c.online)), Field(Battery, c.battery), Field(BatteryLow, Flag(c.batteryLow)),
      Field(Temperature, c.temperature), Field(Humidity, c.humidity), Field(ChildSignal, c.rssi),
      Field(ChildSignalLevel, c.signalLevel) ]
  }

  function InfoFields(): seq<Field> {
    [Field(ChildInfo, Some(1.0))]
  }

  function ChildInfoLabels(labels: seq<string>, c: Child): seq<string> {
    ChildLabels(labels, c) + [c.model, c.category]
  }

  function ChildBlock(labels: seq<string>, c: Child): seq<Metric> {
    Emitted(InfoFields(), ChildInfoLabels(labels, c)) + Emitted(ChildFields(c), ChildLabels(labels, c))
  }

  function ChildBlocks(labels: seq<string>, children: seq<Child>): seq<Metric> {
    if children == [] then []
    else ChildBlocks(labels, children[..|children| - 1]) + ChildBlock(labels, children[|children| - 1])
  }

  /** The series a kind's own collector emits under the device's labels, before energy. */
  function SwitchFields(r: Reading): seq<Field> {
    match r.kind
    case Plug => [Field(On(Plug), Flag(r.on))]
    case WallSwitch => [Field(On(WallSwitch), Flag(r.on))]
    case Bulb => LightFields(r, Bulb, true)
    case LightStrip => LightFields(r, LightStrip, true) + [Field(Length, r.length)]
    case Dimmer => LightFields(r, Dimmer, false)
    case Strip => [Field(On(Strip), Flag(r.on)), Field(Sockets, Some(|r.sockets| as real))]
    case Hub => [Field(Children, Some(|r.children| as real))]
    case UnknownType => []
  }

  function OwnFields(r: Reading): seq<Field> {
    SwitchFields(r) + if r.kind == Hub || r.kind == UnknownType then [] else EnergyFields(r.energy)
  }

  function KindBlock(r: Reading): seq<Metric> {
    Emitted(OwnFields(r), LabelsFor(r))
    + (if r.kind == Strip then SocketBlocks(LabelsFor(r), r.sockets) else [])
    + if r.kind == Hub then ChildBlocks(LabelsFor(r), r.children) else []
  }

  // ---------------------------------------------------------------- one snapshot

  function DeviceSeries(rows: seq<DeviceRow>): seq<Metric> {
    if rows == [] then [] else DeviceSeries(rows[..|rows| - 1]) + DeviceBlock(rows[|rows| - 1])
  }

  /** The readings of one kind, in snapshot order. */
  function ReadingsOf(rows: seq<DeviceRow>, kind: DeviceType): seq<Reading> {
    if rows == [] then []
    else
      var last := rows[|rows| - 1];
      ReadingsOf(rows[..|rows| - 1], kind)
      + if last.reading.Some? && last.reading.value.kind == kind then [last.reading.value] else []
  }

  function KindSeries(readings: seq<Reading>): seq<Metric> {
    if readings == [] then [] else KindSeries(readings[..|readings| - 1]) + KindBlock(readings[|readings| - 1])
  }

  function Category(row: DeviceRow): DeviceType {
    match row.reading case None => row.kind case Some(r) => r.kind
  }

  function CountOf(rows: seq<DeviceRow>, kind: DeviceType): nat {
    if rows == [] then 0 else CountOf(rows[..|rows| - 1], kind) + if Category(rows[|rows| - 1]) == kind then 1 else 0
  }

  function CountMetric(rows: seq<DeviceRow>, kind: DeviceType): Metric {
    Metric(Devices, [TypeName(kind)], CountOf(rows, kind) as real)
  }

  /** The kasa_devices series in whatever order the map of counts was walked. */
  ghost predicate ListsCounts(counts: seq<Metric>, rows: seq<DeviceRow>, kinds: seq<DeviceType>) {
    && |counts| == |kinds|
    && (forall i :: 0 <= i < |kinds| ==> counts[i] == CountMetric(rows, kinds[i]))
    && (forall i, j :: 0 <= i < j < |kinds| ==> kinds[i] != kinds[j])
    && (forall k :: k in kinds <==> CountOf(rows, k) > 0)
  }

  const KINDS: seq<DeviceType> := [Plug, Strip, Bulb, LightStrip, Dimmer, WallSwitch, Hub]

  /** Everything the kind collectors emit, one collector after another. */
  function KindsSeries(rows: seq<DeviceRow>, kinds: seq<DeviceType>): seq<Metric> {
    if kinds == [] then []
    else KindsSeries(rows, kinds[..|kinds| - 1]) + KindSeries(ReadingsOf(rows, kinds[|kinds| - 1]))
  }

  /** Everything all collectors together emit for one snapshot. */
  function AllSeries(rows: seq<DeviceRow>, counts: seq<Metric>): seq<Metric> {
    DeviceSeries(rows) + counts + KindsSeries(rows, KINDS)
  }

  // ---------------------------------------------------------------- no series twice

  predicate SameSeries(a: Metric, b: Metric) {
    a.desc == b.desc && a.labels == b.labels
  }

  ghost predicate NoDuplicates(ms: seq<Metric>) {
    forall i, j :: 0 <= i < j < |ms| ==> !SameSeries(ms[i], ms[j])
  }

  ghost predicate Apart(a: seq<Metric>, b: seq<Metric>) {
    forall x, y :: x in a && y in b ==> !SameSeries(x, y)
  }

  /** Two lists together repeat a series exactly when one of them does or they share one. */
  lemma JoinedIff(a: seq<Metric>, b: seq<Metric>)
    ensures NoDuplicates(a + b) <==> NoDuplicates(a) && NoDuplicates(b) && Apart(a, b)
  {
    var all := a + b;
    if NoDuplicates(all) {
      assert forall i :: 0 <= i < |b| ==> all[|a| + i] == b[i];
      forall i, j | 0 <= i < j < |a| ensures !SameSeries(a[i], a[j]) {
        assert all[i] == a[i] && all[j] == a[j];
      }
      forall i, j | 0 <= i < j < |b| ensures !SameSeries(b[i], b[j]) {
        assert !SameSeries(all[|a| + i], all[|a| + j]);
      }
      forall x, y | x in a && y in b ensures !SameSeries(x, y) {
        var i :| 0 <= i < |a| && a[i] == x;
        var j :| 0 <= j < |b| && b[j] == y;
        assert !SameSeries(all[i], all[|a| + j]);
      }
    }
  }

  predicate DistinctDescs(fields: seq<Field>) {
    forall i, j :: 0 <= i < j < |fields| ==> fields[i].desc != fields[j].desc
  }

  /** The field list reports this quantity. */
  ghost predicate Reports(fields: seq<Field>, desc: Desc) {
    exists i :: 0 <= i < |fields| && fields[i].desc == desc && fields[i].value.Some?
  }

  ghost predicate BothReport(f: seq<Field>, g: seq<Field>) {
    exists desc :: Reports(f, desc) && Reports(g, desc)
  }

  /** What is emitted for a list of fields: its labels on every reported quantity. */
  lemma {:induction false} EmittedIs(fields: seq<Field>, labels: seq<string>)
    ensures forall m :: m in Emitted(fields, labels) ==> m.labels == labels && Reports(fields, m.desc)
    ensures forall desc :: Reports(fields, desc) ==> exists m :: m in Emitted(fields, labels) && m.desc == desc
  {
    if fields != [] {
      var front, last := fields[..|fields| - 1], fields[|fields| - 1];
      EmittedIs(front, labels);
      forall m | m in Emitted(fields, labels) ensures m.labels == labels && Reports(fields, m.desc) {
        if m in Emitted(front, labels) {
          var i :| 0 <= i < |front| && front[i].desc == m.desc && front[i].value.Some?;
          assert fields[i] == front[i];
        } else {
          assert fields[|fields| - 1].desc == m.desc;
        }
      }
      forall desc | Reports(fields, desc) ensures exists m :: m in Emitted(fields, labels) && m.desc == desc {
        if Reports(front, desc) {
          var m :| m in Emitted(front, labels) && m.desc == desc;
        } else {
          var m := Metric(last.desc, labels, last.value.value);
          assert m in Emitted(fields, labels);
        }
      }
    }
  }

  lemma {:induction false} EmittedOnce(fields: seq<Field>, labels: seq<string>)
    requires DistinctDescs(fields)
    ensures NoDuplicates(Emitted(fields, labels))
  {
    if fields != [] {
      var front, last := fields[..|fields| - 1], fields[|fields| - 1];
      EmittedOnce(front, labels);
      EmittedIs(front, labels);
      var tail := if last.value.Some? then [Metric(last.desc, labels, last.value.value)] else [];
      JoinedIff(Emitted(front, labels), tail);
    }
  }

  /** Two lists emitted under the same labels share a series exactly when they report one quantity both. */
  lemma {:induction false} EmittedApartIff(f: seq<Field>, g: seq<Field>, a: seq<string>, b: seq<string>)
    ensures Apart(Emitted(f, a), Emitted(g, b)) <==> a != b || !BothReport(f, g)
  {
    EmittedIs(f, a);
    EmittedIs(g, b);
    hide Emitted, Reports;
    if a == b && BothReport(f, g) {
      var desc :| Reports(f, desc) && Reports(g, desc);
      var x :| x in Emitted(f, a) && x.desc == desc;
      var y :| y in Emitted(g, b) && y.desc == desc;
      assert SameSeries(x, y);
    }
  }

  lemma ApartOfJoined(a: seq<Metric>, b: seq<Metric>, c: seq<Metric>)
    ensures Apart(a + b, c) <==> Apart(a, c) && Apart(b, c)
    ensures Apart(c, a + b) <==> Apart(c, a) && Apart(c, b)
  {
    assert forall m :: m in a + b <==> m in a || m in b;
  }

  // ---------------------------------------------------------------- within one reading

  /** Two outlets share a series: one position and one name, and a quantity both report. */
  ghost predicate SocketsClash(a: Socket, b: Socket) {
    a.id == b.id && a.alias == b.alias && BothReport(SocketFields(a), SocketFields(b))
  }

  /** Two sensors share a series: one id and one name, and one description or a quantity both report. */
  ghost predicate ChildrenClash(a: Child, b: Child) {
    a.id == b.id && a.alias == b.alias
    && ((a.model == b.model && a.category == b.category) || BothReport(ChildFields(a), ChildFields(b)))
  }

  ghost predicate SocketsTold(sockets: seq<Socket>) {
    forall i, j :: 0 <= i < j < |sockets| ==> !SocketsClash(sockets[i], sockets[j])
  }

  ghost predicate ChildrenTold(children: seq<Child>) {
    forall i, j :: 0 <= i < j < |children| ==> !ChildrenClash(children[i], children[j])
  }

  /** No two parts of the device share a series. */
  ghost predicate PartsTold(r: Reading) {
    (r.kind == Strip ==> SocketsTold(r.sockets)) && (r.kind == Hub ==> ChildrenTold(r.children))
  }

  predicate DeviceDesc(d: Desc) {
    d.Up? || d.Info? || d.SignalStrength? || d.SignalLevel? || d.Uptime? || d.LedOn? || d.Overheated? || d.Updating?
  }

  predicate EnergyDesc(d: Desc) {
    d.PowerWatts? || d.VoltageVolts? || d.CurrentAmperes? || d.EnergyTotal?
  }

  /** A part's own series are neither the device collector's nor energy. */
  predicate PartDesc(d: Desc) {
    !DeviceDesc(d) && !d.Devices? && !EnergyDesc(d)
  }

  ghost predicate OfParts(fields: seq<Field>) {
    forall desc :: Reports(fields, desc) ==> PartDesc(desc) && !desc.ChildInfo?
  }

  lemma SocketFieldsAreParts(s: Socket)
    ensures DistinctDescs(SocketFields(s)) && OfParts(SocketFields(s))
  {
  }

  lemma ChildFieldsAreParts(c: Child)
    ensures DistinctDescs(ChildFields(c)) && OfParts(ChildFields(c))
  {
  }

  /** Metrics of a part: the device's labels, then the part's. */
  ghost predicate UnderLabels(ms: seq<Metric>, labels: seq<string>) {
    forall m :: m in ms ==> |m.labels| > |labels| && m.labels[..|labels|] == labels && PartDesc(m.desc)
  }

  lemma LabelsTell(labels: seq<string>, a: seq<string>, b: seq<string>)
    ensures labels + a == labels + b <==> a == b
  {
    assert (labels + a)[|labels|..] == a && (labels + b)[|labels|..] == b;
  }

  lemma {:induction false} SocketBlockIs(labels: seq<string>, s: Socket)
    ensures NoDuplicates(SocketBlock(labels, s)) && UnderLabels(SocketBlock(labels, s), labels)
  {
    SocketFieldsAreParts(s);
    hide SocketFields;
    EmittedOnce(SocketFields(s), SocketLabels(labels, s));
    EmittedIs(SocketFields(s), SocketLabels(labels, s));
  }

  lemma {:induction false} SocketBlocksApart(labels: seq<string>, a: Socket, b: Socket)
    ensures Apart(SocketBlock(labels, a), SocketBlock(labels, b)) <==> !SocketsClash(a, b)
  {
    hide SocketFields, Emitted;
    EmittedApartIff(SocketFields(a), SocketFields(b), SocketLabels(labels, a), SocketLabels(labels, b));
    LabelsTell(labels, [a.id, a.alias], [b.id, b.alias]);
    assert [a.id, a.alias] == [b.id, b.alias] <==> a.id == b.id && a.alias == b.alias;
  }

  ghost predicate SocketClear(sockets: seq<Socket>, s: Socket) {
    forall i :: 0 <= i < |sockets| ==> !SocketsClash(sockets[i], s)
  }

  ghost predicate ChildClear(children: seq<Child>, c: Child) {
    forall i :: 0 <= i < |children| ==> !ChildrenClash(children[i], c)
  }

  lemma SocketClearMore(sockets: seq<Socket>, s: Socket)
    requires sockets != []
    ensures SocketClear(sockets, s)
       <==> SocketClear(sockets[..|sockets| - 1], s) && !SocketsClash(sockets[|sockets| - 1], s)
  {
    hide SocketsClash;
    assert forall i :: 0 <= i < |sockets| - 1 ==> sockets[..|sockets| - 1][i] == sockets[i];
  }

  lemma ChildClearMore(children: seq<Child>, c: Child)
    requires children != []
    ensures ChildClear(children, c)
       <==> ChildClear(children[..|children| - 1], c) && !ChildrenClash(children[|children| - 1], c)
  {
    hide ChildrenClash;
    assert forall i :: 0 <= i < |children| - 1 ==> children[..|children| - 1][i] == children[i];
  }

  /** One more outlet is apart from those before it exactly when it clashes with none of them. */
  lemma {:induction false} SocketJoins(labels: seq<string>, sockets: seq<Socket>, s: Socket)
    ensures Apart(SocketBlocks(labels, sockets), SocketBlock(labels, s))
       <==> SocketClear(sockets, s)
  {
    if sockets != [] {
      var front, last := sockets[..|sockets| - 1], sockets[|sockets| - 1];
      hide SocketBlock, SocketsClash, Apart, SocketClear;
      SocketJoins(labels, front, s);
      SocketBlocksApart(labels, last, s);
      ApartOfJoined(SocketBlocks(labels, front), SocketBlock(labels, last), SocketBlock(labels, s));
      SocketClearMore(sockets, s);
    }
  }

  lemma {:induction false} SocketsToldMore(sockets: seq<Socket>)
    requires sockets != []
    ensures var front, last := sockets[..|sockets| - 1], sockets[|sockets| - 1];
      SocketsTold(sockets) <==> SocketsTold(front) && SocketClear(front, last)
  {
    hide SocketsClash;
    var front := sockets[..|sockets| - 1];
    assert forall i :: 0 <= i < |front| ==> front[i] == sockets[i];
  }

  lemma {:induction false} SocketsOnceIff(labels: seq<string>, sockets: seq<Socket>)
    ensures NoDuplicates(SocketBlocks(labels, sockets)) <==> SocketsTold(sockets)
    ensures UnderLabels(SocketBlocks(labels, sockets), labels)
  {
    if sockets != [] {
      var front, last := sockets[..|sockets| - 1], sockets[|sockets| - 1];
      hide SocketBlock, SocketsClash, Apart, NoDuplicates, PartDesc, SocketsTold;
      SocketsOnceIff(labels, front);
      SocketBlockIs(labels, last);
      SocketJoins(labels, front, last);
      JoinedIff(SocketBlocks(labels, front), SocketBlock(labels, last));
      SocketsToldMore(sockets);
    }
  }

  lemma {:induction false} ChildBlockIs(labels: seq<string>, c: Child)
    ensures NoDuplicates(ChildBlock(labels, c)) && UnderLabels(ChildBlock(labels, c), labels)
  {
    var info, own := Emitted(InfoFields(), ChildInfoLabels(labels, c)), Emitted(ChildFields(c), ChildLabels(labels, c));
    ChildFieldsAreParts(c);
    hide ChildFields;
    EmittedOnce(InfoFields(), ChildInfoLabels(labels, c));
    EmittedIs(InfoFields(), ChildInfoLabels(labels, c));
    EmittedOnce(ChildFields(c), ChildLabels(labels, c));
    EmittedIs(ChildFields(c), ChildLabels(labels, c));
    JoinedIff(info, own);
  }

  /** A description and a measurement never share a series. */
  lemma {:induction false} InfoStandsApart(labels: seq<string>, a: Child, b: Child)
    ensures Apart(Emitted(InfoFields(), ChildInfoLabels(labels, a)), Emitted(ChildFields(b), ChildLabels(labels, b)))
    ensures Apart(Emitted(ChildFields(b), ChildLabels(labels, b)), Emitted(InfoFields(), ChildInfoLabels(labels, a)))
  {
    ChildFieldsAreParts(b);
    hide ChildFields;
    EmittedIs(InfoFields(), ChildInfoLabels(labels, a));
    EmittedIs(ChildFields(b), ChildLabels(labels, b));
  }

  lemma {:induction false} ChildBlocksApart(labels: seq<string>, a: Child, b: Child)
    ensures Apart(ChildBlock(labels, a), ChildBlock(labels, b)) <==> !ChildrenClash(a, b)
  {
    ChildLabelsTell(labels, a, b);
    var infoA, infoB := Emitted(InfoFields(), ChildInfoLabels(labels, a)),
        Emitted(InfoFields(), ChildInfoLabels(labels, b));
    var ownA, ownB := Emitted(ChildFields(a), ChildLabels(labels, a)), Emitted(ChildFields(b), ChildLabels(labels, b));
    hide ChildLabels, ChildInfoLabels, Emitted, Apart, ChildFields, BothReport;
    EmittedApartIff(InfoFields(), InfoFields(), ChildInfoLabels(labels, a), ChildInfoLabels(labels, b));
    EmittedApartIff(ChildFields(a), ChildFields(b), ChildLabels(labels, a), ChildLabels(labels, b));
    InfoIsAlwaysReported();
    InfoStandsApart(labels, a, b);
    InfoStandsApart(labels, b, a);
    ApartOfJoined(infoA, ownA, infoB + ownB);
    ApartOfJoined(infoB, ownB, infoA);
    ApartOfJoined(infoB, ownB, ownA);
  }

  lemma InfoIsAlwaysReported()
    ensures BothReport(InfoFields(), InfoFields())
  {
    assert InfoFields()[0].desc == ChildInfo;
    assert Reports(InfoFields(), ChildInfo);
  }

  lemma ChildLabelsTell(labels: seq<string>, a: Child, b: Child)
    ensures ChildLabels(labels, a) == ChildLabels(labels, b) <==> a.id == b.id && a.alias == b.alias
    ensures ChildInfoLabels(labels, a) == ChildInfoLabels(labels, b)
       <==> a.id == b.id && a.alias == b.alias && a.model == b.model && a.category == b.category
  {
    var fourA, fourB := [a.id, a.alias, a.model, a.category], [b.id, b.alias, b.model, b.category];
    LabelsTell(labels, fourA[..2], fourB[..2]);
    LabelsTell(labels, fourA, fourB);
    assert ChildLabels(labels, a) == labels + fourA[..2] && ChildInfoLabels(labels, a) == labels + fourA;
    assert ChildLabels(labels, b) == labels + fourB[..2] && ChildInfoLabels(labels, b) == labels + fourB;
    assert fourA == fourB
        <==> fourA[0] == fourB[0] && fourA[1] == fourB[1] && fourA[2] == fourB[2] && fourA[3] == fourB[3];
    var twoA, twoB := fourA[..2], fourB[..2];
    assert twoA == twoB <==> twoA[0] == twoB[0] && twoA[1] == twoB[1];
  }

  lemma {:induction false} ChildJoins(labels: seq<string>, children: seq<Child>, c: Child)
    ensures Apart(ChildBlocks(labels, children), ChildBlock(labels, c))
       <==> ChildClear(children, c)
  {
    if children != [] {
      var front, last := children[..|children| - 1], children[|children| - 1];
      hide ChildBlock, ChildrenClash, Apart, ChildClear;
      ChildJoins(labels, front, c);
      ChildBlocksApart(labels, last, c);
      ApartOfJoined(ChildBlocks(labels, front), ChildBlock(labels, last), ChildBlock(labels, c));
      ChildClearMore(children, c);
    }
  }

  lemma {:induction false} ChildrenToldMore(children: seq<Child>)
    requires children != []
    ensures var front, last := children[..|children| - 1], children[|children| - 1];
      ChildrenTold(children) <==> ChildrenTold(front) && ChildClear(front, last)
  {
    hide ChildrenClash;
    var front := children[..|children| - 1];
    assert forall i :: 0 <= i < |front| ==> front[i] == children[i];
  }

  lemma {:induction false} ChildrenOnceIff(labels: seq<string>, children: seq<Child>)
    ensures NoDuplicates(ChildBlocks(labels, children)) <==> ChildrenTold(children)
    ensures UnderLabels(ChildBlocks(labels, children), labels)
  {
    if children != [] {
      var front, last := children[..|children| - 1], children[|children| - 1];
      hide ChildBlock, ChildrenClash, Apart, NoDuplicates, PartDesc, ChildrenTold;
      ChildrenOnceIff(labels, front);
      ChildBlockIs(labels, last);
      ChildJoins(labels, front, last);
      JoinedIff(ChildBlocks(labels, front), ChildBlock(labels, last));
      ChildrenToldMore(children);
    }
  }

  /** A metric of a kind's series belongs to this reading. */
  ghost predicate Owned(m: Metric, r: Reading) {
    |m.labels| > 0 && m.labels[0] == r.host && !DeviceDesc(m.desc) && !m.desc.Devices?
        && (EnergyDesc(m.desc) ==> m.labels == LabelsFor(r))
  }

  lemma LightFieldsDistinct(r: Reading, kind: DeviceType, withColor: bool)
    ensures var fields := LightFields(r, kind, withColor);
      DistinctDescs(fields) && forall i :: 0 <= i < |fields| ==> PartDesc(fields[i].desc) && !fields[i].desc.Length?
  {
  }

  lemma SwitchFieldsDistinct(r: Reading)
    ensures DistinctDescs(SwitchFields(r)) && forall i :: 0 <= i < |SwitchFields(r)| ==>
        PartDesc(SwitchFields(r)[i].desc)
  {
    LightFieldsDistinct(r, r.kind, r.kind != Dimmer);
    hide LightFields;
  }

  lemma EnergyFieldsDistinct(e: Option<EnergyValue>)
    ensures DistinctDescs(EnergyFields(e)) && forall i :: 0 <= i < |EnergyFields(e)| ==>
        EnergyDesc(EnergyFields(e)[i].desc)
  {
  }

  lemma OwnFieldsDistinct(r: Reading)
    ensures DistinctDescs(OwnFields(r))
    ensures forall desc :: Reports(OwnFields(r), desc) ==> !DeviceDesc(desc) && !desc.Devices?
  {
    SwitchFieldsDistinct(r);
    EnergyFieldsDistinct(r.energy);
    hide SwitchFields, EnergyFields;
  }

  lemma {:induction false} OwnOnce(r: Reading)
    ensures var own := Emitted(OwnFields(r), LabelsFor(r));
      NoDuplicates(own) && forall m :: m in own ==> Owned(m, r) && m.labels == LabelsFor(r)
  {
    OwnFieldsDistinct(r);
    hide OwnFields, DeviceDesc, EnergyDesc;
    EmittedOnce(OwnFields(r), LabelsFor(r));
    EmittedIs(OwnFields(r), LabelsFor(r));
  }

  /** Parts listed under a device's labels repeat none of its own series. */
  lemma {:induction false} PartsJoin(r: Reading, own: seq<Metric>, parts: seq<Metric>)
    requires NoDuplicates(own) && UnderLabels(parts, LabelsFor(r))
    requires forall m :: m in own ==> Owned(m, r) && m.labels == LabelsFor(r)
    ensures NoDuplicates(own + parts) <==> NoDuplicates(parts)
    ensures forall m :: m in own + parts ==> Owned(m, r)
    ensures forall m :: m in parts ==> !EnergyDesc(m.desc)
  {
    forall m | m in parts ensures m.labels[0] == r.host {
      assert m.labels[..2][0] == r.host;
    }
    JoinedIff(own, parts);
  }

  function PartsOf(r: Reading): seq<Metric> {
    if r.kind == Strip then SocketBlocks(LabelsFor(r), r.sockets)
    else if r.kind == Hub then ChildBlocks(LabelsFor(r), r.children)
    else []
  }

  lemma {:induction false} PartsOnceIff(r: Reading)
    ensures (NoDuplicates(PartsOf(r)) <==> PartsTold(r)) && UnderLabels(PartsOf(r), LabelsFor(r))
    ensures KindBlock(r) == Emitted(OwnFields(r), LabelsFor(r)) + PartsOf(r)
  {
    SocketsOnceIff(LabelsFor(r), r.sockets);
    ChildrenOnceIff(LabelsFor(r), r.children);
    hide Emitted, OwnFields, SocketBlocks, ChildBlocks, LabelsFor, SocketsTold, ChildrenTold;
    assert KindBlock(r) == Emitted(OwnFields(r), LabelsFor(r)) + PartsOf(r);
  }

  /** One reading's series repeat exactly when two of its parts share one. */
  lemma {:induction false} KindBlockOnceIff(r: Reading)
    ensures NoDuplicates(KindBlock(r)) <==> PartsTold(r)
    ensures forall m :: m in KindBlock(r) ==> Owned(m, r)
    ensures NoEnergyTwice(KindBlock(r))
  {
    hide Emitted, OwnFields, PartsTold;
    OwnOnce(r);
    PartsOnceIff(r);
    var own := Emitted(OwnFields(r), LabelsFor(r));
    PartsJoin(r, own, PartsOf(r));
    EnergyJoins(own, PartsOf(r));
  }

  // ---------------------------------------------------------------- energy

  /** No energy series is repeated. */
  ghost predicate NoEnergyTwice(ms: seq<Metric>) {
    forall i, j :: 0 <= i < j < |ms| && SameSeries(ms[i], ms[j]) ==> !EnergyDesc(ms[i].desc)
  }

  lemma EnergyJoins(a: seq<Metric>, b: seq<Metric>)
    requires NoEnergyTwice(a) && NoEnergyTwice(b)
    requires forall x, y :: x in a && y in b && SameSeries(x, y) ==> !EnergyDesc(x.desc)
    ensures NoEnergyTwice(a + b)
  {
  }

  // ---------------------------------------------------------------- across the snapshot

  /** A snapshot as Registry.Snapshot hands it out: one row per host, readings stamped with their row's host. */
  ghost predicate DistinctRows(rows: seq<DeviceRow>) {
    && (forall i, j :: 0 <= i < j < |rows| ==> rows[i].host != rows[j].host)
    && (forall i :: 0 <= i < |rows| && rows[i].reading.Some? ==> rows[i].reading.value.host == rows[i].host)
  }

  lemma {:induction false} DeviceBlockOnce(row: DeviceRow)
    requires row.reading.Some? ==> row.reading.value.host == row.host
    ensures NoDuplicates(DeviceBlock(row))
    ensures forall m :: m in DeviceBlock(row) ==> |m.labels| > 0 && m.labels[0] == row.host && DeviceDesc(m.desc)
  {
    match row.reading
    case None => UpOnce(0.0, [row.host, row.alias]);
    case Some(r) =>
      var labels, full := LabelsFor(r), InfoLabels(r);
      var up := Emitted([Field(Up, Some(1.0))], labels);
      UpOnce(1.0, labels);
      InfoOnce(full);
      var info := Emitted([Field(Info, Some(1.0))], full);
      CommonOnce(r);
      var common := Emitted(CommonFields(r), labels);
      hide Emitted, CommonFields, DeviceDesc;
      JoinedIff(up, info);
      JoinedIff(up + info, common);
  }

  lemma {:induction false} UpOnce(value: real, labels: seq<string>)
    ensures NoDuplicates(Emitted([Field(Up, Some(value))], labels))
    ensures forall m :: m in Emitted([Field(Up, Some(value))], labels) ==>
      m.labels == labels && m.desc.Up? && DeviceDesc(m.desc)
  {
    EmittedOnce([Field(Up, Some(value))], labels);
    EmittedIs([Field(Up, Some(value))], labels);
  }

  lemma {:induction false} InfoOnce(labels: seq<string>)
    ensures NoDuplicates(Emitted([Field(Info, Some(1.0))], labels))
    ensures forall m :: m in Emitted([Field(Info, Some(1.0))], labels) ==>
      m.labels == labels && m.desc.Info? && DeviceDesc(m.desc)
  {
    EmittedOnce([Field(Info, Some(1.0))], labels);
    EmittedIs([Field(Info, Some(1.0))], labels);
  }

  lemma {:induction false} CommonOnce(r: Reading)
    ensures var common := Emitted(CommonFields(r), LabelsFor(r));
      && NoDuplicates(common)
      && forall m :: m in common ==> m.labels == LabelsFor(r) && DeviceDesc(m.desc) && !m.desc.Up? && !m.desc.Info?
  {
    EmittedOnce(CommonFields(r), LabelsFor(r));
    EmittedIs(CommonFields(r), LabelsFor(r));
  }

  /** Which row a metric of the device collector came from. */
  lemma {:induction false} DeviceMetricRow(rows: seq<DeviceRow>, m: Metric) returns (j: nat)
    requires DistinctRows(rows) && m in DeviceSeries(rows)
    ensures j < |rows| && |m.labels| > 0 && m.labels[0] == rows[j].host && DeviceDesc(m.desc)
  {
    var front, last := rows[..|rows| - 1], rows[|rows| - 1];
    hide DeviceBlock, DeviceDesc, NoDuplicates;
    DeviceBlockOnce(last);
    assert DistinctRows(front);
    var before, block := DeviceSeries(front), DeviceBlock(last);
    assert m in before || m in block;
    hide DistinctRows, DeviceSeries;
    if m in before {
      j := DeviceMetricRow(front, m);
    } else {
      j := |rows| - 1;
    }
  }

  lemma {:induction false} DeviceSeriesOnce(rows: seq<DeviceRow>)
    requires DistinctRows(rows)
    ensures NoDuplicates(DeviceSeries(rows)) && forall m :: m in DeviceSeries(rows) ==> DeviceDesc(m.desc)
  {
    if rows != [] {
      var front, last := rows[..|rows| - 1], rows[|rows| - 1];
      DeviceSeriesOnce(front);
      DeviceBlockOnce(last);
      hide DeviceBlock, DeviceDesc, NoDuplicates;
      forall m | m in DeviceSeries(front) ensures |m.labels| > 0 && m.labels[0] != last.host {
        var j := DeviceMetricRow(front, m);
      }
      assert Apart(DeviceSeries(front), DeviceBlock(last));
      JoinedIff(DeviceSeries(front), DeviceBlock(last));
    }
  }

  /** Which row a reading of one kind came from. */
  lemma {:induction false} ReadingRow(rows: seq<DeviceRow>, kind: DeviceType, r: Reading) returns (j: nat)
    requires r in ReadingsOf(rows, kind)
    ensures j < |rows| && rows[j].reading == Some(r) && r.kind == kind
  {
    var front := rows[..|rows| - 1];
    if r in ReadingsOf(front, kind) {
      j := ReadingRow(front, kind, r);
    } else {
      j := |rows| - 1;
    }
  }

  /** Every reading of the kind is there. */
  lemma {:induction false} RowReading(rows: seq<DeviceRow>, j: nat)
    requires j < |rows| && rows[j].reading.Some?
    ensures rows[j].reading.value in ReadingsOf(rows, rows[j].reading.value.kind)
  {
    if j < |rows| - 1 {
      RowReading(rows[..|rows| - 1], j);
    }
  }

  ghost predicate DistinctReadings(readings: seq<Reading>) {
    forall i, j :: 0 <= i < j < |readings| ==> readings[i].host != readings[j].host
  }

  lemma {:induction false} ReadingsDistinct(rows: seq<DeviceRow>, kind: DeviceType)
    requires DistinctRows(rows)
    ensures DistinctReadings(ReadingsOf(rows, kind))
  {
    if rows != [] {
      var front, last := rows[..|rows| - 1], rows[|rows| - 1];
      ReadingsDistinct(front, kind);
      forall r | r in ReadingsOf(front, kind) ensures r.host != last.host {
        var j := ReadingRow(front, kind, r);
        assert rows[j] == front[j];
      }
    }
  }

  ghost predicate AllTold(readings: seq<Reading>) {
    forall i :: 0 <= i < |readings| ==> PartsTold(readings[i])
  }

  /** Which reading a metric of a kind's collector came from. */
  lemma {:induction false} KindSeriesOwner(readings: seq<Reading>, m: Metric) returns (i: nat)
    requires m in KindSeries(readings)
    ensures i < |readings| && Owned(m, readings[i])
  {
    hide KindBlock, NoDuplicates, NoEnergyTwice, PartsTold, Owned;
    var front, last := readings[..|readings| - 1], readings[|readings| - 1];
    var before, block := KindSeries(front), KindBlock(last);
    assert m in before || m in block;
    hide KindSeries;
    KindBlockOnceIff(last);
    if m in before {
      i := KindSeriesOwner(front, m);
    } else {
      i := |readings| - 1;
    }
  }

  lemma {:induction false} AllToldMore(readings: seq<Reading>)
    requires readings != []
    ensures AllTold(readings) <==> AllTold(readings[..|readings| - 1]) && PartsTold(readings[|readings| - 1])
  {
    hide PartsTold;
    var front := readings[..|readings| - 1];
    assert forall i :: 0 <= i < |front| ==> front[i] == readings[i];
  }

  lemma {:induction false} KindSeriesOnceIff(readings: seq<Reading>)
    requires DistinctReadings(readings)
    ensures NoDuplicates(KindSeries(readings)) <==> AllTold(readings)
    ensures NoEnergyTwice(KindSeries(readings))
  {
    if readings == [] {
      NothingTwice(KindSeries(readings));
    } else {
      var front, last := readings[..|readings| - 1], readings[|readings| - 1];
      hide KindBlock, NoDuplicates, NoEnergyTwice, PartsTold, AllTold, DeviceDesc, EnergyDesc, LabelsFor;
      KindSeriesOnceIff(front);
      KindBlockOnceIff(last);
      forall x, y | x in KindSeries(front) && y in KindBlock(last) ensures x.labels != y.labels {
        var i := KindSeriesOwner(front, x);
        assert front[i] == readings[i] && Owned(y, last);
      }
      JoinApart(KindSeries(front), KindBlock(last));
      AllToldMore(readings);
    }
  }

  lemma JoinApart(a: seq<Metric>, b: seq<Metric>)
    requires forall x, y :: x in a && y in b ==> x.labels != y.labels
    ensures NoDuplicates(a + b) <==> NoDuplicates(a) && NoDuplicates(b)
    ensures NoEnergyTwice(a) && NoEnergyTwice(b) ==> NoEnergyTwice(a + b)
  {
    JoinedIff(a, b);
  }

  /** Which row a metric of a kind's collector came from. */
  lemma {:induction false} KindMetricRow(rows: seq<DeviceRow>, kind: DeviceType, m: Metric) returns (j: nat)
    requires DistinctRows(rows) && m in KindSeries(ReadingsOf(rows, kind))
    ensures j < |rows| && rows[j].reading.Some? && rows[j].reading.value.kind == kind && Owned(m, rows[j].reading.value)
  {
    var readings := ReadingsOf(rows, kind);
    hide KindSeries, ReadingsOf, Owned;
    var i := KindSeriesOwner(readings, m);
    j := ReadingRow(rows, kind, readings[i]);
  }

  lemma {:induction false} KindsMetricRow(rows: seq<DeviceRow>, kinds: seq<DeviceType>, m: Metric)
      returns (k: nat, j: nat)
    requires DistinctRows(rows) && m in KindsSeries(rows, kinds)
    ensures k < |kinds| && j < |rows| && rows[j].reading.Some?
    ensures rows[j].reading.value.kind == kinds[k] && Owned(m, rows[j].reading.value)
  {
    hide KindSeries, ReadingsOf, Owned, DistinctRows;
    var front := kinds[..|kinds| - 1];
    if m in KindsSeries(rows, front) {
      k, j := KindsMetricRow(rows, front, m);
    } else {
      k := |kinds| - 1;
      j := KindMetricRow(rows, kinds[k], m);
    }
  }

  lemma RowHosts(rows: seq<DeviceRow>, i: nat, j: nat)
    requires DistinctRows(rows) && i < |rows| && j < |rows| && rows[i].reading.Some? && rows[j].reading.Some?
    ensures rows[i].reading.value.host == rows[j].reading.value.host ==> i == j
  {
  }

  /** The readings of these kinds tell their parts apart. */
  ghost predicate KindsTold(rows: seq<DeviceRow>, kinds: seq<DeviceType>) {
    forall k :: 0 <= k < |kinds| ==> AllTold(ReadingsOf(rows, kinds[k]))
  }

  /** Two kinds never report one host. */
  lemma {:induction false} KindsApart(rows: seq<DeviceRow>, front: seq<DeviceType>, kind: DeviceType)
    requires DistinctRows(rows) && kind !in front
    ensures forall x, y :: x in KindsSeries(rows, front) && y in KindSeries(ReadingsOf(rows, kind)) ==>
        x.labels != y.labels
  {
    hide KindsSeries, KindSeries, ReadingsOf, DistinctRows, DeviceDesc, EnergyDesc, LabelsFor;
    forall x, y | x in KindsSeries(rows, front) && y in KindSeries(ReadingsOf(rows, kind))
      ensures x.labels != y.labels
    {
      var k, i := KindsMetricRow(rows, front, x);
      var j := KindMetricRow(rows, kind, y);
      RowHosts(rows, i, j);
    }
  }

  lemma {:induction false} KindsToldMore(rows: seq<DeviceRow>, kinds: seq<DeviceType>)
    requires kinds != []
    ensures KindsTold(rows, kinds)
       <==> KindsTold(rows, kinds[..|kinds| - 1]) && AllTold(ReadingsOf(rows, kinds[|kinds| - 1]))
  {
    hide AllTold, ReadingsOf;
    var front := kinds[..|kinds| - 1];
    assert forall k :: 0 <= k < |front| ==> front[k] == kinds[k];
  }

  /** So the kind collectors only repeat a series within one reading. */
  lemma {:induction false} KindsSeriesOnceIff(rows: seq<DeviceRow>, kinds: seq<DeviceType>)
    requires DistinctRows(rows) && forall i, j :: 0 <= i < j < |kinds| ==> kinds[i] != kinds[j]
    ensures NoDuplicates(KindsSeries(rows, kinds)) <==> KindsTold(rows, kinds)
    ensures NoEnergyTwice(KindsSeries(rows, kinds))
  {
    hide KindSeries, ReadingsOf, NoDuplicates, NoEnergyTwice, DistinctRows, DistinctReadings, AllTold, Owned;
    if kinds == [] {
      NothingTwice(KindsSeries(rows, kinds));
    } else {
      var front, kind := kinds[..|kinds| - 1], kinds[|kinds| - 1];
      KindsSeriesOnceIff(rows, front);
      ReadingsDistinct(rows, kind);
      KindSeriesOnceIff(ReadingsOf(rows, kind));
      KindsApart(rows, front, kind);
      JoinApart(KindsSeries(rows, front), KindSeries(ReadingsOf(rows, kind)));
      KindsToldMore(rows, kinds);
    }
  }

  lemma NothingTwice(ms: seq<Metric>)
    requires ms == []
    ensures NoDuplicates(ms) && NoEnergyTwice(ms)
  {
  }

  /** Every row's reading tells its parts apart. */
  ghost predicate RowsTold(rows: seq<DeviceRow>) {
    forall j :: 0 <= j < |rows| && rows[j].reading.Some? ==> PartsTold(rows[j].reading.value)
  }

  lemma {:induction false} RowsToldByKind(rows: seq<DeviceRow>)
    ensures KindsTold(rows, KINDS) <==> RowsTold(rows)
  {
    if RowsTold(rows) {
      forall k, i | 0 <= k < |KINDS| && 0 <= i < |ReadingsOf(rows, KINDS[k])|
        ensures PartsTold(ReadingsOf(rows, KINDS[k])[i])
      {
        var j := ReadingRow(rows, KINDS[k], ReadingsOf(rows, KINDS[k])[i]);
      }
    }
    if KindsTold(rows, KINDS) {
      forall j | 0 <= j < |rows| && rows[j].reading.Some? ensures PartsTold(rows[j].reading.value) {
        var r := rows[j].reading.value;
        RowReading(rows, j);
        assert KINDS[1] == Strip && KINDS[6] == Hub;
        assert AllTold(ReadingsOf(rows, Strip)) && AllTold(ReadingsOf(rows, Hub));
      }
    }
  }

  lemma TypeNamesDiffer(a: DeviceType, b: DeviceType)
    requires TypeName(a) == TypeName(b)
    ensures a == b
  {
    assert |TypeName(a)| == |TypeName(b)|;
  }

  lemma {:induction false} CountsOnce(counts: seq<Metric>, rows: seq<DeviceRow>, kinds: seq<DeviceType>)
    requires ListsCounts(counts, rows, kinds)
    ensures NoDuplicates(counts) && forall m :: m in counts ==> m.desc.Devices?
  {
    forall i, j | 0 <= i < j < |counts| ensures !SameSeries(counts[i], counts[j]) {
      if TypeName(kinds[i]) == TypeName(kinds[j]) {
        TypeNamesDiffer(kinds[i], kinds[j]);
      }
      assert counts[i].labels[0] == TypeName(kinds[i]) && counts[j].labels[0] == TypeName(kinds[j]);
    }
  }

  lemma {:induction false} JoinThree(device: seq<Metric>, counts: seq<Metric>, own: seq<Metric>)
    requires NoDuplicates(device) && NoDuplicates(counts)
    requires forall m :: m in device ==> DeviceDesc(m.desc)
    requires forall m :: m in counts ==> m.desc.Devices?
    requires forall m :: m in own ==> !DeviceDesc(m.desc) && !m.desc.Devices?
    ensures NoDuplicates(device + counts + own) <==> NoDuplicates(own)
    ensures NoEnergyTwice(own) ==> NoEnergyTwice(device + counts + own)
  {
    assert Apart(device, counts);
    JoinedIff(device, counts);
    assert Apart(device + counts, own);
    JoinedIff(device + counts, own);
    assert NoEnergyTwice(device + counts);
    EnergyMayJoin(device + counts, own);
  }

  lemma EnergyMayJoin(a: seq<Metric>, b: seq<Metric>)
    requires Apart(a, b) && NoEnergyTwice(a)
    ensures NoEnergyTwice(b) ==> NoEnergyTwice(a + b)
  {
  }

  lemma {:induction false} KindsLeaveDeviceSeries(rows: seq<DeviceRow>)
    requires DistinctRows(rows)
    ensures forall y :: y in KindsSeries(rows, KINDS) ==> !DeviceDesc(y.desc) && !y.desc.Devices?
  {
    hide KindsSeries, DistinctRows, DeviceDesc;
    forall y | y in KindsSeries(rows, KINDS) ensures !DeviceDesc(y.desc) && !y.desc.Devices? {
      var k, j := KindsMetricRow(rows, KINDS, y);
    }
  }

  lemma EnergyIsOwn(device: seq<Metric>, counts: seq<Metric>, own: seq<Metric>, m: Metric)
    requires forall m :: m in device ==> DeviceDesc(m.desc)
    requires forall m :: m in counts ==> m.desc.Devices?
    requires m in device + counts + own && EnergyDesc(m.desc)
    ensures m in own
  {
  }

  /** What all collectors emit together repeats a series exactly when the kind collectors do. */
  lemma {:induction false} AllSeriesParts(rows: seq<DeviceRow>, counts: seq<Metric>, kinds: seq<DeviceType>)
    requires DistinctRows(rows) && ListsCounts(counts, rows, kinds)
    ensures NoDuplicates(AllSeries(rows, counts)) <==> NoDuplicates(KindsSeries(rows, KINDS))
    ensures NoEnergyTwice(AllSeries(rows, counts))
    ensures forall m :: m in AllSeries(rows, counts) && EnergyDesc(m.desc) ==> m in KindsSeries(rows, KINDS)
  {
    hide KindsSeries, DeviceSeries, NoDuplicates, NoEnergyTwice, DistinctRows, ListsCounts, DeviceDesc, KindsTold;
    DeviceSeriesOnce(rows);
    CountsOnce(counts, rows, kinds);
    KindsSeriesOnceIff(rows, KINDS);
    KindsLeaveDeviceSeries(rows);
    var device, own := DeviceSeries(rows), KindsSeries(rows, KINDS);
    JoinThree(device, counts, own);
    forall m | m in AllSeries(rows, counts) && EnergyDesc(m.desc) ensures m in own {
      EnergyIsOwn(device, counts, own, m);
    }
  }

  /**
   Over one snapshot all collectors together emit two metrics with one name and one set of labels
   exactly when some strip has two outlets, or some hub two sensors, that share one.
   */
  lemma {:induction false} NoSeriesTwiceIff(rows: seq<DeviceRow>, counts: seq<Metric>, kinds: seq<DeviceType>)
    requires DistinctRows(rows) && ListsCounts(counts, rows, kinds)
    ensures NoDuplicates(AllSeries(rows, counts)) <==> RowsTold(rows)
  {
    hide AllSeries, KindsSeries, NoDuplicates, NoEnergyTwice, DistinctRows, ListsCounts, KindsTold, RowsTold;
    AllSeriesParts(rows, counts, kinds);
    KindsSeriesOnceIff(rows, KINDS);
    RowsToldByKind(rows);
  }

  /** Energy is reported at most once per host and quantity, whichever kind of hardware it comes from. */
  lemma {:induction false} EnergyOncePerHost(rows: seq<DeviceRow>, counts: seq<Metric>, kinds: seq<DeviceType>,
      i: nat, j: nat)
    requires DistinctRows(rows) && ListsCounts(counts, rows, kinds)
    requires var all := AllSeries(rows, counts);
      && i < |all| && j < |all| && i != j && EnergyDesc(all[i].desc) && all[i].desc == all[j].desc
    ensures var all := AllSeries(rows, counts);
      |all[i].labels| == |all[j].labels| == 2 && all[i].labels[0] != all[j].labels[0]
  {
    AllSeriesParts(rows, counts, kinds);
    var all, own := AllSeries(rows, counts), KindsSeries(rows, KINDS);
    var x, y := all[i], all[j];
    assert !SameSeries(x, y) && !SameSeries(y, x);
    assert x in all && y in all;
    hide KindsSeries, AllSeries;
    var k, a := KindsMetricRow(rows, KINDS, x);
    var l, b := KindsMetricRow(rows, KINDS, y);
    assert a != b;
  }

  /** Parts with ids of their own always tell apart, whatever their names. */
  lemma DistinctIdsTell(r: Reading)
    requires r.kind == Strip ==> DistinctIds(r.sockets)
    requires r.kind == Hub ==> forall i, j :: 0 <= i < j < |r.children| ==> r.children[i].id != r.children[j].id
    ensures PartsTold(r)
  {
  }

  // ---------------------------------------------------------------- the fleet inventory

  function Without(rows: seq<DeviceRow>, kind: DeviceType): seq<DeviceRow> {
    if rows == [] then []
    else Without(rows[..|rows| - 1], kind) + if Category(rows[|rows| - 1]) == kind then [] else [rows[|rows| - 1]]
  }

  lemma {:induction false} WithoutIs(rows: seq<DeviceRow>, kind: DeviceType, other: DeviceType)
    ensures |Without(rows, kind)| + CountOf(rows, kind) == |rows|
    ensures CountOf(Without(rows, kind), other) == if other == kind then 0 else CountOf(rows, other)
  {
    hide Category;
    if rows != [] {
      var front, last := rows[..|rows| - 1], rows[|rows| - 1];
      WithoutIs(front, kind, other);
      var rest := Without(rows, kind);
      if Category(last) == kind {
        assert rest == Without(front, kind);
      } else {
        assert rest == Without(front, kind) + [last];
        assert rest[..|rest| - 1] == Without(front, kind);
      }
    }
  }

  function Total(counts: seq<Metric>): real {
    if counts == [] then 0.0 else counts[0].value + Total(counts[1..])
  }

  lemma LastIsCounted(rows: seq<DeviceRow>)
    ensures rows != [] ==> exists k :: CountOf(rows, k) > 0
  {
    if rows != [] {
      assert CountOf(rows, Category(rows[|rows| - 1])) > 0;
    }
  }

  /** The kasa_devices counts, unreachable devices included, add up to the number of rows. */
  lemma {:induction false} CountsAddUp(counts: seq<Metric>, rows: seq<DeviceRow>, kinds: seq<DeviceType>)
    requires ListsCounts(counts, rows, kinds)
    ensures Total(counts) == |rows| as real
  {
    if kinds == [] {
      LastIsCounted(rows);
    } else {
      var kind, rest := kinds[0], Without(rows, kinds[0]);
      forall k ensures CountOf(rest, k) == (if k == kind then 0 else CountOf(rows, k))
          && |rest| + CountOf(rows, kind) == |rows| {
        WithoutIs(rows, kind, k);
      }
      assert forall i :: 0 <= i < |kinds| - 1 ==> counts[1..][i] == counts[i + 1] && kinds[1..][i] == kinds[i + 1];
      assert forall k :: k in kinds[1..] <==> k in kinds && k != kind;
      CountsAddUp(counts[1..], rest, kinds[1..]);
    }
  }
}
