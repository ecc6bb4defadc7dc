/**
 The IOT dialect (kasa/iot.go): remembered emeter modules, and a strip's outlets folded into
 its totals through pointers to floats.
 */
module Iot {
  import opened Emeter
  import opened Readings
  import opened Text
  import opened Wrappers

  // ---------------------------------------------------------------- energy on the heap

  /** A `*float64`. */
  class Cell {
    var value: real

    constructor (value: real)
      ensures this.value == value
    {
      this.value := value;
    }
  }

  function Get(c: Cell?): Option<real>
    reads c
  {
    if c == null then None else Some(c.value)
  }

  /** `float`, or nil. */
  method Float(v: Option<real>) returns (c: Cell?)
    ensures Get(c) == v && (c != null ==> fresh(c))
  {
    c := null;
    if v.Some? {
      c := new Cell(v.value);
    }
  }

  class Energy {
    var power: Cell?
    var voltage: Cell?
    var current: Cell?
    var total: Cell?

    /** The cells this reading's quantities live in. */
    ghost var cells: set<Cell>

    constructor (power: Cell?, voltage: Cell?, current: Cell?, total: Cell?)
      requires power != null ==> power != voltage && power != current && power != total
      requires voltage != null ==> voltage != current && voltage != total
      requires current != null ==> current != total
      ensures this.power == power && this.voltage == voltage && this.current == current && this.total == total
      ensures Valid() && cells == Just(power) + Just(voltage) + Just(current) + Just(total)
    {
      this.power, this.voltage, this.current, this.total := power, voltage, current, total;
      cells := Just(power) + Just(voltage) + Just(current) + Just(total);
    }

    function Value(): EnergyValue
      reads this, power, voltage, current, total
    {
      EnergyValue(Get(power), Get(voltage), Get(current), Get(total))
    }

    function At(q: Quantity): Cell?
      reads this
    {
      match q case Power => power case Current => current case Total => total
    }

    /** The four quantities live in four different cells. */
    ghost predicate Valid()
      reads this
    {
      && Just(power) <= cells && Just(voltage) <= cells && Just(current) <= cells && Just(total) <= cells
      && (power != null ==> power != voltage && power != current && power != total)
      && (voltage != null ==> voltage != current && voltage != total)
      && (current != null ==> current != total)
    }
  }

  ghost function Just(c: Cell?): set<Cell> {
    if c == null then {} else {c}
  }

  /** The quantities there are, in cells of their own; nil when there are none. */
  method Allocate(v: EnergyValue) returns (e: Energy?)
    ensures e == null <==> v == NOTHING
    ensures e != null ==> fresh(e) && e.Valid() && e.Value() == v && fresh(e.cells)
  {
    var power := Float(v.power);
    var voltage := Float(v.voltage);
    var current := Float(v.current);
    var total := Float(v.total);
    if power == null && voltage == null && current == null && total == null {
      return null;
    }
    e := new Energy(power, voltage, current, total);
  }

  /** `energy`: each quantity from the first spelling present, in cells of its own. */
  method FromRaw(raw: Option<RawReading>) returns (e: Energy?)
    ensures e == null <==> Normalise(raw) == None
    ensures e != null ==> fresh(e) && e.Valid() && e.Value() == Normalise(raw).value && fresh(e.cells)
  {
    hide Milli;
    if raw.None? || Errs(raw.value.errCode) {
      return null;
    }
    var r := raw.value;
    e := Allocate(EnergyValue(
      Milli(r.powerMW, r.power), Milli(r.voltageMV, r.voltage), Milli(r.currentMA, r.current),
      Milli(r.totalWH, if r.total.Some? then r.total else Milli(r.energyWH, r.energy))));
  }

  /** `addFloat(&total.q, v)`: add into the cell the field points to, or into a new one for a first contribution. */
  method AddFloat(total: Energy, q: Quantity, v: Cell?)
    requires total.Valid() && v !in total.cells
    modifies total, total.At(q)
    ensures total.Valid() && fresh(total.cells - old(total.cells))
    ensures total.Value() == Put(old(total.Value()), q, Plus(Pick(old(total.Value()), q), Get(v)))
  {
    if v == null {
      return;
    }
    var target := total.At(q);
    if target != null {
      target.value := target.value + v.value;
      return;
    }
    var first := new Cell(v.value);
    total.cells := total.cells + {first};
    match q
    case Power => total.power := first;
    case Current => total.current := first;
    case Total => total.total := first;
  }

  /** Voltage is taken rather than summed, and copied into a cell of the total's own. */
  method TakeVoltage(total: Energy, v: Cell?)
    requires total.Valid()
    modifies total
    ensures total.Valid() && fresh(total.cells - old(total.cells))
    ensures var was := old(total.Value());
      total.Value() == was.(voltage := if old(total.voltage) == null then Get(v) else was.voltage)
  {
    if total.voltage == null && v != null {
      var copy := new Cell(v.value);
      total.voltage := copy;
      total.cells := total.cells + {copy};
    }
  }

  method AddGauges(total: Energy, add: Energy)
    requires total != add && total.Valid() && add.Valid() && total.cells !! add.cells
    modifies total, total.cells
    ensures total.Valid() && fresh(total.cells - old(total.cells)) && add.Value() == old(add.Value())
    ensures var was, more := old(total.Value()), old(add.Value());
            total.Value() == was.(power := Plus(was.power, more.power), current := Plus(was.current, more.current))
  {
    hide Plus;
    ghost var added := add.Value();
    AddFloat(total, Power, add.power);
    assert add.Value() == added;
    AddFloat(total, Current, add.current);
    assert add.Value() == added;
  }

  /** `addEnergy`: accumulate without touching the reading that is added, nor sharing any cell with it. */
  method AddEnergy(total: Energy, add: Energy)
    requires total != add && total.Valid() && add.Valid() && total.cells !! add.cells
    modifies total, total.cells
    ensures total.Valid() && fresh(total.cells - old(total.cells))
    ensures total.Value() == Accumulate(old(total.Value()), old(add.Value()))
  {
    ghost var added := add.Value();
    AddGauges(total, add);
    AddFloat(total, Total, add.total);
    assert add.Value() == added;
    TakeVoltage(total, add.voltage);
  }

  // ---------------------------------------------------------------- requests and replies

  /** The two names an energy module goes by. */
  datatype Module = EmeterModule | BulbModule

  function Other(m: Module): Module {
    if m == BulbModule then EmeterModule else BulbModule
  }

  datatype Request = StateRequest(meter: Option<Module>) | MeterRequest(name: Module) | OutletRequest(childId: string)

  datatype OutletInfo = OutletInfo(id: string, alias: string, state: Option<int>, onTime: Option<real>)

  datatype Sysinfo = Sysinfo(deviceId: string, kind: DeviceType, errCode: Option<int>, children: seq<OutletInfo>)

  datatype Response = NoResponse | Response(sysinfo: Option<Sysinfo>, emeter: Option<ModuleReply>,
      bulb: Option<ModuleReply>)

  /** A device behind any transport: what it says to its n-th request is arbitrary. */
  class IotDevice {
    const answer: (nat, Request) -> Response
    var asked: nat

    constructor (answer: (nat, Request) -> Response)
      ensures this.answer == answer && asked == 0
    {
      this.answer, asked := answer, 0;
    }

    method Query(request: Request) returns (response: Response)
      modifies this
      ensures response == answer(old(asked), request) && asked == old(asked) + 1
    {
      response := answer(asked, request);
      asked := asked + 1;
    }
  }

  /** The full identifier a device answers to, built from a bare position when that is what it reported. */
  function ChildId(deviceId: string, child: OutletInfo): string {
    if |child.id| <= 2 then deviceId + child.id else child.id
  }

  function OutcomeOf(response: Response): Outcome {
    if response.NoResponse? then Unreachable
    else match Normalise(Realtime(response.emeter))
      case None => Silent
      case Some(e) => Measured(e)
  }

  /** What asking outlet i comes to, when the first outlet is the n-th request. */
  function OutcomeAt(answer: (nat, Request) -> Response, n: nat, sysinfo: Sysinfo, i: nat): Outcome
    requires i < |sysinfo.children|
  {
    OutcomeOf(answer(n + i, OutletRequest(ChildId(sysinfo.deviceId, sysinfo.children[i]))))
  }

  function Outcomes(answer: (nat, Request) -> Response, n: nat, sysinfo: Sysinfo): (outcomes: seq<Outcome>)
    ensures |outcomes| == |sysinfo.children|
  {
    seq(|sysinfo.children|, i requires 0 <= i < |sysinfo.children| => OutcomeAt(answer, n, sysinfo, i))
  }

  /** The identifiers of a device's outlets, in order. */
  function Ids(sysinfo: Sysinfo): (ids: seq<string>)
    ensures |ids| == |sysinfo.children|
  {
    seq(|sysinfo.children|, i requires 0 <= i < |sysinfo.children| => ChildId(sysinfo.deviceId, sysinfo.children[i]))
  }

  function OutletAt(answer: (nat, Request) -> Response, n: nat, id: string): Outcome {
    OutcomeOf(answer(n, OutletRequest(id)))
  }

  /** What asking these outlets in turn from request n on comes to. */
  function OutletsAt(answer: (nat, Request) -> Response, n: nat, ids: seq<string>): (outcomes: seq<Outcome>)
    ensures |outcomes| == |ids|
  {
    seq(|ids|, i requires 0 <= i < |ids| => OutletAt(answer, n + i, ids[i]))
  }

  lemma OutcomesById(answer: (nat, Request) -> Response, n: nat, sysinfo: Sysinfo)
    ensures Outcomes(answer, n, sysinfo) == OutletsAt(answer, n, Ids(sysinfo))
  {
  }

  /** Outlets whose own counters never fall over time, and that report one whenever they report anything. */
  ghost predicate OutletsCount(answer: (nat, Request) -> Response, ids: seq<string>) {
    && (forall n, id | id in ids :: OutletAt(answer, n, id).Measured? ==> OutletAt(answer, n, id).reading.total.Some?)
    && (forall n, m, id | n <= m && id in ids ::
          var a, b := Reported(OutletAt(answer, n, id), Total), Reported(OutletAt(answer, m, id), Total);
          a.Some? && b.Some? ==> a.value <= b.value)
  }

  lemma LaterReadsGrow(answer: (nat, Request) -> Response, n: nat, m: nat, ids: seq<string>)
    requires OutletsCount(answer, ids) && n <= m
    ensures CountersGrow(OutletsAt(answer, n, ids), OutletsAt(answer, m, ids))
    ensures ReadingsCarryTotals(OutletsAt(answer, n, ids))
  {
    forall k | 0 <= k < |ids| ensures
      var a, b := Reported(OutletsAt(answer, n, ids)[k], Total), Reported(OutletsAt(answer, m, ids)[k], Total);
      a.Some? && b.Some? ==> a.value <= b.value
    {
      assert ids[k] in ids && n + k <= m + k;
    }
  }

  function MeterOf(response: Response): Option<RawReading> {
    if response.NoResponse? then None
    else if Realtime(response.emeter).Some? then Realtime(response.emeter)
    else Realtime(response.bulb)
  }

  // ---------------------------------------------------------------- the reading on the heap

  datatype Outlet = Outlet(id: string, alias: string, on: Option<bool>, uptime: Option<real>, energy: Energy?)

  class DeviceReading {
    var kind: DeviceType
    var energy: Energy?
    var sockets: seq<Outlet>

    /** The energy objects, and the cells, that the outlets' readings live in. */
    ghost var outletEnergies: set<Energy>
    ghost var outletCells: set<Cell>

    constructor (kind: DeviceType)
      ensures this.kind == kind && energy == null && sockets == [] && outletEnergies == {} && outletCells == {}
    {
      this.kind, energy, sockets := kind, null, [];
      outletEnergies, outletCells := {}, {};
    }

    /** Each outlet's energy is the reading it gave. */
    ghost predicate Published(outcomes: seq<Outcome>)
      reads this, outletEnergies, outletCells
    {
      |sockets| == |outcomes| && forall j :: 0 <= j < |sockets| ==>
        var e := sockets[j].energy;
        && (e != null ==> e in outletEnergies && e.cells <= outletCells)
        && Holds(e, ReadingOf(outcomes[j]))
    }

    /** This energy shares neither itself nor a cell with any outlet. */
    ghost predicate ApartFrom(e: Energy)
      reads this, e
    {
      e !in outletEnergies && e.cells !! outletCells
    }
  }

  /** The counter a reading shows for the whole device. */
  function CounterOf(reading: DeviceReading): Option<real>
    reads reading, reading.energy, if reading.energy == null then null else reading.energy.total
  {
    if reading.energy == null then None else Get(reading.energy.total)
  }

  /** An energy pointer holds exactly this value, nil for none. */
  ghost predicate Holds(e: Energy?, v: Option<EnergyValue>)
    reads e, if e == null then {} else e.cells
  {
    if e == null then v == None else e.Valid() && Some(e.Value()) == v
  }

  function ReadingOf(o: Outcome): Option<EnergyValue> {
    if o.Measured? then Some(o.reading) else None
  }

  /** The outlet at position i of a strip, apart from its energy. */
  predicate Labelled(outlet: Outlet, i: nat, child: OutletInfo) {
    && outlet.id == Itoa(i + 1) && outlet.alias == child.alias && outlet.uptime == child.onTime
    && outlet.on == (if child.state.Some? then Some(child.state.value != 0) else None)
  }

  predicate AllLabelled(sockets: seq<Outlet>, children: seq<OutletInfo>) {
    |sockets| <= |children| && forall j :: 0 <= j < |sockets| ==> Labelled(sockets[j], j, children[j])
  }

  lemma LabelledSnoc(sockets: seq<Outlet>, outlet: Outlet, children: seq<OutletInfo>)
    requires AllLabelled(sockets, children) && |sockets| < |children|
        && Labelled(outlet, |sockets|, children[|sockets|])
    ensures AllLabelled(sockets + [outlet], children)
  {
  }

  /** `seen` is what the outlets asked so far came to. */
  predicate Asked(seen: seq<Outcome>, answer: (nat, Request) -> Response, n: nat, sysinfo: Sysinfo) {
    |seen| <= |sysinfo.children| && forall j :: 0 <= j < |seen| ==> seen[j] == OutcomeAt(answer, n, sysinfo, j)
  }

  lemma AskedSnoc(seen: seq<Outcome>, answer: (nat, Request) -> Response, n: nat, sysinfo: Sysinfo)
    requires Asked(seen, answer, n, sysinfo) && |seen| < |sysinfo.children|
    ensures Asked(seen + [OutcomeAt(answer, n, sysinfo, |seen|)], answer, n, sysinfo)
  {
  }

  lemma AskedAll(seen: seq<Outcome>, answer: (nat, Request) -> Response, n: nat, sysinfo: Sysinfo)
    requires Asked(seen, answer, n, sysinfo) && |seen| == |sysinfo.children|
    ensures seen == Outcomes(answer, n, sysinfo)
  {
  }

  /** Publish the accumulated total, without its counter when some outlet is missing from it. */
  method PublishTotal(reading: DeviceReading, total: Energy, complete: bool, ghost seen: seq<Outcome>)
    requires total.Valid() && total.Value() == AccumulateAll(seen) && AnyMeasured(seen)
        && (complete <==> AllMeasured(seen))
    requires reading.Published(seen) && reading.ApartFrom(total)
    modifies reading`energy, total`total
    ensures reading.energy == total && Holds(reading.energy, StripEnergy(seen))
    ensures reading.Published(seen) && reading.ApartFrom(total)
  {
    if !complete {
      total.total := null;
    }
    reading.energy := total;
  }

  lemma AccumulateSnoc(seen: seq<Outcome>, o: Outcome)
    ensures AccumulateAll(seen + [o])
        == if o.Measured? then Accumulate(AccumulateAll(seen), o.reading) else AccumulateAll(seen)
  {
    assert (seen + [o])[..|seen|] == seen;
  }

  /** Accumulate and append one more outlet, leaving every published reading as it was. */
  method Absorb(reading: DeviceReading, total: Energy, outlet: Outlet, ghost outcome: Outcome, ghost seen: seq<Outcome>)
    requires total.Valid() && total.Value() == AccumulateAll(seen)
    requires reading.Published(seen) && reading.ApartFrom(total)
    requires Holds(outlet.energy, ReadingOf(outcome))
    requires outlet.energy != null ==> outlet.energy != total && outlet.energy.cells !! total.cells
    modifies reading`sockets, reading`outletEnergies, reading`outletCells, total, total.cells
    ensures reading.sockets == old(reading.sockets) + [outlet]
    ensures total.Valid() && fresh(total.cells - old(total.cells))
    ensures total.Value() == AccumulateAll(seen + [outcome])
    ensures reading.Published(seen + [outcome]) && reading.ApartFrom(total)
  {
    AccumulateSnoc(seen, outcome);
    hide AccumulateAll, Accumulate;
    if outlet.energy != null {
      AddEnergy(total, outlet.energy);
    }
    Append(reading, outlet, outcome, seen);
  }

  /** Publish one more outlet. */
  method Append(reading: DeviceReading, outlet: Outlet, ghost outcome: Outcome, ghost seen: seq<Outcome>)
    requires reading.Published(seen) && Holds(outlet.energy, ReadingOf(outcome))
    modifies reading`sockets, reading`outletEnergies, reading`outletCells
    ensures reading.sockets == old(reading.sockets) + [outlet] && reading.Published(seen + [outcome])
    ensures reading.outletEnergies
         == old(reading.outletEnergies) + if outlet.energy == null then {} else {outlet.energy}
    ensures reading.outletCells == old(reading.outletCells) + if outlet.energy == null then {} else outlet.energy.cells
  {
    if outlet.energy != null {
      reading.outletEnergies := reading.outletEnergies + {outlet.energy};
      reading.outletCells := reading.outletCells + outlet.energy.cells;
    }
    reading.sockets := reading.sockets + [outlet];
  }

  /** Outlets are numbered 1 to n, so no two share an id. */
  lemma OutletIdsDistinct(i: nat, j: nat)
    requires i != j
    ensures Itoa(i + 1) != Itoa(j + 1)
  {
    if Itoa(i + 1) == Itoa(j + 1) {
      ItoaInjective(i + 1, j + 1);
    }
  }

  // ---------------------------------------------------------------- what a dialect has learned

  datatype Learned = Learned(meter: Module, hasMeter: bool) {
    /** The first request of a read: the state, and the remembered meter while the device may have one. */
    function StateQuery(): Request {
      StateRequest(if hasMeter then Some(meter) else None)
    }
  }

  /** A first response that yields no reading at all. */
  predicate Refuses(first: Response) {
    first.NoResponse? || first.sysinfo.None? || Errs(first.sysinfo.value.errCode)
  }

  predicate Retries(l: Learned, first: Response)
    requires !Refuses(first)
  {
    MeterOf(first).None? && l.hasMeter && Lighting(first.sysinfo.value.kind)
  }

  /** What a read remembers, how many requests it makes and which meter reading it uses. */
  function After(l: Learned, first: Response, follow: Response): Learned
    requires !Refuses(first)
  {
    if MeterOf(first).Some? || !l.hasMeter then l
    else if !Retries(l, first) then l.(hasMeter := false)
    else if follow.NoResponse? then l
    else if MeterOf(follow).Some? then l.(meter := Other(l.meter))
    else l.(hasMeter := false)
  }

  function Asks(l: Learned, first: Response): nat
    requires !Refuses(first)
  {
    if Retries(l, first) then 2 else 1
  }

  function Chosen(l: Learned, first: Response, follow: Response): Option<RawReading>
    requires !Refuses(first)
  {
    if Retries(l, first) then MeterOf(follow) else MeterOf(first)
  }

  predicate Lighting(kind: DeviceType) {
    kind == Bulb || kind == LightStrip
  }

  /** An answer that reports the device's kind, and a meter reading iff a supported module was asked. */
  predicate Faithful(a: Response, r: Request, kind: DeviceType, supported: set<Module>) {
    && a.Response?
    && (r.StateRequest? ==> a.sysinfo.Some? && a.sysinfo.value.kind == kind && !Errs(a.sysinfo.value.errCode))
    && (Realtime(a.emeter).Some?
        <==> EmeterModule in supported && (r == StateRequest(Some(EmeterModule)) || r == MeterRequest(EmeterModule)))
    && (Realtime(a.bulb).Some?
        <==> BulbModule in supported && (r == StateRequest(Some(BulbModule)) || r == MeterRequest(BulbModule)))
  }

  /** What one read of a non-strip leaves remembered, and how many requests it made. */
  function Learn(l: Learned, kind: DeviceType, supported: set<Module>): Learned {
    if !l.hasMeter || l.meter in supported then l
    else if Lighting(kind) && Other(l.meter) in supported then Learned(Other(l.meter), true)
    else Learned(l.meter, false)
  }

  function Cost(l: Learned, kind: DeviceType, supported: set<Module>): nat {
    if l.hasMeter && l.meter !in supported && Lighting(kind) then 2 else 1
  }

  /** Against a device with a fixed set of energy modules, a read learns and costs exactly this. */
  lemma ReadLearns(l: Learned, kind: DeviceType, supported: set<Module>, first: Response, follow: Response)
    requires kind != Strip
    requires Faithful(first, l.StateQuery(), kind, supported)
        && Faithful(follow, MeterRequest(Other(l.meter)), kind, supported)
    ensures !Refuses(first) && After(l, first, follow) == Learn(l, kind, supported)
        && Asks(l, first) == Cost(l, kind, supported)
    ensures Chosen(l, first, follow).Some?
        <==> l.hasMeter && (l.meter in supported || (Lighting(kind) && Other(l.meter) in supported))
  {
    assert l.meter == EmeterModule || l.meter == BulbModule;
  }

  function RunCost(l: Learned, kind: DeviceType, supported: set<Module>, count: nat): nat
    decreases count
  {
    if count == 0 then 0 else Cost(l, kind, supported) + RunCost(Learn(l, kind, supported), kind, supported, count - 1)
  }

  /**
   Whatever was remembered before, k reads cost k requests, and one more exactly when the first
   of them has to look for the other module name.
   */
  lemma {:induction false} LearningCostsOneRequest(l: Learned, kind: DeviceType, supported: set<Module>, count: nat)
    ensures RunCost(l, kind, supported, count) == count + if count > 0 && Cost(l, kind, supported) == 2 then 1 else 0
    ensures Cost(Learn(l, kind, supported), kind, supported) == 1
    decreases count
  {
    if count > 0 {
      LearningCostsOneRequest(Learn(l, kind, supported), kind, supported, count - 1);
    }
  }

  // ---------------------------------------------------------------- the querier

  class IotQuerier {
    const device: IotDevice
    var emeterModule: Module
    var deviceHasEmeter: bool

    constructor (device: IotDevice)
      ensures this.device == device && Knows() == Learned(EmeterModule, true)
    {
      this.device, emeterModule, deviceHasEmeter := device, EmeterModule, true;
    }

    function Knows(): Learned
      reads this
    {
      Learned(emeterModule, deviceHasEmeter)
    }

    /** `readSocketEnergy`, with the outlet built around it. */
    method ReadOutlet(sysinfo: Sysinfo, i: nat) returns (outlet: Outlet, outcome: Outcome)
      requires i < |sysinfo.children| && device.asked >= i
      modifies device
      ensures device.asked == old(device.asked) + 1
      ensures outcome == OutcomeAt(device.answer, old(device.asked) - i, sysinfo, i)
      ensures Labelled(outlet, i, sysinfo.children[i]) && Holds(outlet.energy, ReadingOf(outcome))
      ensures outlet.energy != null ==> fresh(outlet.energy) && fresh(outlet.energy.cells)
    {
      var child := sysinfo.children[i];
      var response := device.Query(OutletRequest(ChildId(sysinfo.deviceId, child)));
      var energy: Energy? := null;
      if response.Response? {
        energy := FromRaw(Realtime(response.emeter));
      }
      outcome := OutcomeOf(response);
      outlet := Outlet(Itoa(i + 1), child.alias, if child.state.Some? then Some(child.state.value != 0) else None,
          child.onTime, energy);
    }

    /** One round of the loop in readSockets: ask an outlet, accumulate it, append it. */
    method ReadNext(sysinfo: Sysinfo, reading: DeviceReading, total: Energy, ghost seen: seq<Outcome>)
        returns (outcome: Outcome)
      requires |seen| == |reading.sockets| < |sysinfo.children| && AllLabelled(reading.sockets, sysinfo.children)
      requires reading.Published(seen) && reading.ApartFrom(total)
      requires total.Valid() && total.Value() == AccumulateAll(seen) && device.asked >= |seen|
      modifies reading`sockets, reading`outletEnergies, reading`outletCells, device, total, total.cells
      ensures outcome == OutcomeAt(device.answer, old(device.asked) - |seen|, sysinfo, |seen|)
      ensures device.asked == old(device.asked) + 1
      ensures |reading.sockets| == |seen| + 1 && AllLabelled(reading.sockets, sysinfo.children)
      ensures reading.Published(seen + [outcome]) && reading.ApartFrom(total)
      ensures total.Valid() && fresh(total.cells - old(total.cells)) && total.Value() == AccumulateAll(seen + [outcome])
    {
      var outlet;
      outlet, outcome := ReadOutlet(sysinfo, |reading.sockets|);
      ghost var grown := reading.sockets + [outlet];
      assert AllLabelled(grown, sysinfo.children) by {
        LabelledSnoc(reading.sockets, outlet, sysinfo.children);
      }
      Absorb(reading, total, outlet, outcome, seen);
      assert reading.sockets == grown;
    }

    /** The loop of readSockets so far: `seen` outlets asked from request `start` on, all of them published. */
    ghost predicate Gathered(sysinfo: Sysinfo, reading: DeviceReading, total: Energy, seen: seq<Outcome>, start: nat)
      reads device, reading, reading.outletEnergies, reading.outletCells, total, total.cells
    {
      && device.asked == start + |seen| && |seen| == |reading.sockets|
      && AllLabelled(reading.sockets, sysinfo.children) && Asked(seen, device.answer, start, sysinfo)
      && total.Valid() && total.Value() == AccumulateAll(seen)
      && reading.Published(seen) && reading.ApartFrom(total)
    }

    /** One round of the loop in readSockets. */
    method GatherNext(sysinfo: Sysinfo, reading: DeviceReading, total: Energy, ghost seen: seq<Outcome>,
        ghost start: nat)
      returns (outcome: Outcome)
      requires Gathered(sysinfo, reading, total, seen, start) && |seen| < |sysinfo.children|
      modifies reading`sockets, reading`outletEnergies, reading`outletCells, device, total, total.cells
      ensures Gathered(sysinfo, reading, total, seen + [outcome], start) && fresh(total.cells - old(total.cells))
    {
      hide AllLabelled, Asked, OutcomeAt, AccumulateAll, Holds;
      outcome := ReadNext(sysinfo, reading, total, seen);
      AskedSnoc(seen, device.answer, start, sysinfo);
    }

    /** The loop of readSockets: every outlet asked and appended, the measured ones accumulated. */
    method ReadOutlets(sysinfo: Sysinfo, reading: DeviceReading)
      returns (total: Energy, measured: nat, failures: nat, ghost seen: seq<Outcome>)
      requires reading.Published([])
      modifies reading`sockets, reading`outletEnergies, reading`outletCells, device
      ensures seen == Outcomes(device.answer, old(device.asked), sysinfo)
      ensures device.asked == old(device.asked) + |sysinfo.children|
      ensures |reading.sockets| == |sysinfo.children| && AllLabelled(reading.sockets, sysinfo.children)
      ensures fresh(total) && fresh(total.cells) && total.Valid() && total.Value() == AccumulateAll(seen)
      ensures reading.Published(seen) && reading.ApartFrom(total)
      ensures failures == Count(seen, Failed) && measured == Count(seen, Gave)
    {
      total := new Energy(null, null, null, null);
      measured, failures, seen := 0, 0, [];
      ghost var start := device.asked;
      for i := 0 to |sysinfo.children|
        invariant |seen| == i && Gathered(sysinfo, reading, total, seen, start) && fresh(total) && fresh(total.cells)
        invariant failures == Count(seen, Failed) && measured == Count(seen, Gave)
      {
        hide Gathered, Count;
        var outcome := GatherNext(sysinfo, reading, total, seen, start);
        CountSnoc(seen, outcome, Failed);
        CountSnoc(seen, outcome, Gave);
        failures := failures + if outcome.Unreachable? then 1 else 0;
        measured := measured + if outcome.Measured? then 1 else 0;
        seen := seen + [outcome];
      }
      hide AllLabelled, Asked, AccumulateAll, Outcomes, Holds, Count;
      AskedAll(seen, device.answer, start, sysinfo);
    }

    /**
     `readSockets`: every outlet is asked and published, one that fails without its energy; the
     strip's own figures are those of StripEnergy, in cells no outlet's reading shares, so
     accumulating them changes no outlet. Only losing every outlet is an error.
     */
    method ReadSockets(sysinfo: Sysinfo, reading: DeviceReading) returns (ok: bool, ghost seen: seq<Outcome>)
      requires reading.Published([]) && reading.energy == null
      modifies reading, device
      ensures seen == Outcomes(device.answer, old(device.asked), sysinfo)
      ensures device.asked == old(device.asked) + |sysinfo.children|
      ensures ok <==> sysinfo.children == [] || !AllUnreachable(seen)
      ensures |reading.sockets| == |sysinfo.children| && AllLabelled(reading.sockets, sysinfo.children)
      ensures reading.Published(seen) && reading.kind == old(reading.kind)
      ensures ok ==> Holds(reading.energy, StripEnergy(seen))
      ensures reading.energy != null ==> reading.ApartFrom(reading.energy)
    {
      if |sysinfo.children| == 0 {
        return true, [];
      }
      var total, measured, failures;
      total, measured, failures, seen := ReadOutlets(sysinfo, reading);
      CountsDecide(seen);
      hide AllLabelled, Count, AccumulateAll, Outcomes, OutcomeAt;
      if failures == |sysinfo.children| {
        return false, seen;
      }
      if measured > 0 {
        PublishTotal(reading, total, measured == |sysinfo.children|, seen);
      }
      return true, seen;
    }

    /** `retryEmeter`: ask the other module name once, remembering a hit and giving up on a miss. */
    method RetryEmeter(kind: DeviceType) returns (energy: Option<RawReading>)
      modifies this, device
      ensures device.asked == old(device.asked) + if Lighting(kind) then 1 else 0
      ensures var follow := device.answer(old(device.asked), MeterRequest(Other(old(emeterModule))));
        && energy == (if Lighting(kind) then MeterOf(follow) else None)
        && Knows() == if energy.Some? then old(Knows()).(meter := Other(old(emeterModule)))
                      else if Lighting(kind) && follow.NoResponse? then old(Knows())
                      else old(Knows()).(hasMeter := false)
    {
      if !Lighting(kind) {
        deviceHasEmeter := false;
        return None;
      }
      var other := Other(emeterModule);
      var response := device.Query(MeterRequest(other));
      if response.NoResponse? {
        return None;
      }
      energy := MeterOf(response);
      if energy.None? {
        deviceHasEmeter := false;
        return None;
      }
      emeterModule := other;
    }

    /** `Read`: a strip outlet by outlet; anything else with its meter, retried under the other name. */
    method Read() returns (reading: DeviceReading?, ghost first: Response, ghost follow: Response)
      modifies this, device
      ensures first == device.answer(old(device.asked), old(Knows()).StateQuery())
      ensures follow == device.answer(old(device.asked) + 1, MeterRequest(Other(old(emeterModule))))
      ensures Refuses(first) ==> reading == null && device.asked == old(device.asked) + 1 && Knows() == old(Knows())
      ensures !Refuses(first) && first.sysinfo.value.kind == Strip ==>
        && Knows() == Learned(old(emeterModule), false)
        && var sysinfo := first.sysinfo.value;
           var outcomes := Outcomes(device.answer, old(device.asked) + 1, sysinfo);
           && device.asked == old(device.asked) + 1 + |sysinfo.children|
           && (reading == null <==> sysinfo.children != [] && AllUnreachable(outcomes))
           && (reading != null ==>
                && |reading.sockets| == |sysinfo.children| && AllLabelled(reading.sockets, sysinfo.children)
                && reading.Published(outcomes) && Holds(reading.energy, StripEnergy(outcomes)))
      ensures !Refuses(first) && first.sysinfo.value.kind != Strip ==>
        && Knows() == After(old(Knows()), first, follow)
        && device.asked == old(device.asked) + Asks(old(Knows()), first)
        && reading != null && reading.kind == first.sysinfo.value.kind && reading.sockets == []
        && Holds(reading.energy, Normalise(Chosen(old(Knows()), first, follow)))
    {
      hide Outcomes, StripEnergy, AllUnreachable, Normalise, Realtime;
      follow := device.answer(device.asked + 1, MeterRequest(Other(emeterModule)));
      var response := device.Query(Learned(emeterModule, deviceHasEmeter).StateQuery());
      first := response;
      if Refuses(response) {
        return null, first, follow;
      }
      var sysinfo := response.sysinfo.value;
      reading := new DeviceReading(sysinfo.kind);
      if reading.kind == Strip {
        deviceHasEmeter := false;
        var ok, _ := ReadSockets(sysinfo, reading);
        if !ok {
          reading := null;
        }
        return;
      }
      var energy := MeterOf(response);
      if energy.None? && deviceHasEmeter {
        energy := RetryEmeter(reading.kind);
      }
      reading.energy := FromRaw(energy);
    }

    /**
     Reads one after another of a device that is no strip and answers a fixed set of energy
     modules. All of them succeed, the device is asked once a read and at most once more over the
     whole run, and a device given up on is never asked for a meter again.
     */
    method ReadTimes(count: nat, ghost kind: DeviceType, ghost supported: set<Module>)
      requires kind != Strip
      requires forall n: nat, request :: Faithful(device.answer(n, request), request, kind, supported)
      modifies this, device
      ensures device.asked == old(device.asked) + count
                              + if count > 0 && Cost(old(Knows()), kind, supported) == 2 then 1 else 0
      ensures count > 0 ==> Knows() == Learn(old(Knows()), kind, supported)
      ensures deviceHasEmeter ==> old(deviceHasEmeter)
    {
      ghost var start := Knows();
      LearningCostsOneRequest(start, kind, supported, count);
      for i := 0 to count
        invariant device.asked + RunCost(Knows(), kind, supported, count - i)
               == old(device.asked) + RunCost(start, kind, supported, count)
        invariant Knows() == if i == 0 then start else Learn(start, kind, supported)
      {
        ghost var before := Knows();
        var reading; ghost var first, follow;
        hide Faithful;
        reading, first, follow := Read();
        ReadLearns(before, kind, supported, first, follow);
      }
    }

    /** A strip with these outlets, in every state it reports, and outlets that count. */
    ghost predicate CountingStrip(ids: seq<string>) {
      && OutletsCount(device.answer, ids)
      && forall n, meter :: var a := device.answer(n, StateRequest(meter));
           Refuses(a) || (a.sysinfo.value.kind == Strip && Ids(a.sysinfo.value) == ids)
    }

    /** One read of a strip, told by its outlets. */
    method ReadStrip(ghost ids: seq<string>) returns (reading: DeviceReading?)
      requires CountingStrip(ids)
      modifies this, device
      ensures device.asked > old(device.asked)
      ensures reading != null ==> Shows(reading, OutletsAt(device.answer, old(device.asked) + 1, ids))
    {
      ghost var first, follow;
      reading, first, follow := Read();
      if reading != null {
        OutcomesById(device.answer, old(device.asked) + 1, first.sysinfo.value);
      }
    }

    /**
     Reads of a strip one after another, with any of them and any outlets failing. The counter the
     readings show never falls, and no later read touches a reading already given out.
     */
    method ReadStripTimes(count: nat, ghost ids: seq<string>)
        returns (readings: seq<DeviceReading?>, ghost starts: seq<nat>)
      requires CountingStrip(ids)
      modifies this, device
      ensures |readings| == |starts| == count
      ensures forall i :: 0 <= i < count && readings[i] != null ==>
        Shows(readings[i], OutletsAt(device.answer, starts[i], ids))
      ensures forall i, j :: 0 <= i < j < count && readings[i] != null && readings[j] != null ==>
        CounterOf(readings[i]).Some? && CounterOf(readings[j]).Some? ==>
        CounterOf(readings[i]).value <= CounterOf(readings[j]).value
    {
      readings, starts := [], [];
      for n := 0 to count
        invariant |readings| == |starts| == n
        invariant forall i :: 0 <= i < n ==> starts[i] <= device.asked
        invariant forall i, j :: 0 <= i < j < n ==> starts[i] <= starts[j]
        invariant forall i :: 0 <= i < n && readings[i] != null ==>
          Shows(readings[i], OutletsAt(device.answer, starts[i], ids))
      {
        ghost var start := device.asked + 1;
        var reading := ReadStrip(ids);
        readings, starts := readings + [reading], starts + [start];
      }
      forall i, j | 0 <= i < j < count && readings[i] != null && readings[j] != null
        ensures CounterOf(readings[i]).Some? && CounterOf(readings[j]).Some? ==>
          CounterOf(readings[i]).value <= CounterOf(readings[j]).value
      {
        ShownGrow(readings[i], readings[j], starts[i], starts[j], ids);
      }
    }

    lemma ShownGrow(a: DeviceReading, b: DeviceReading, n: nat, m: nat, ids: seq<string>)
      requires CountingStrip(ids) && n <= m
      requires Shows(a, OutletsAt(device.answer, n, ids)) && Shows(b, OutletsAt(device.answer, m, ids))
      ensures CounterOf(a).Some? && CounterOf(b).Some? ==> CounterOf(a).value <= CounterOf(b).value
    {
      hide Shows, OutletsAt, PublishedTotal, CountersGrow, ReadingsCarryTotals, OutletsCount, CounterOf;
      var run := [OutletsAt(device.answer, n, ids), OutletsAt(device.answer, m, ids)];
      LaterReadsGrow(device.answer, n, m, ids);
      LaterReadsGrow(device.answer, m, m, ids);
      ShowsCounter(a, run[0]);
      ShowsCounter(b, run[1]);
      if CounterOf(a).Some? && CounterOf(b).Some? {
        StripCounterNeverDecreases(run, 0, 1);
      }
    }
  }

  /** A strip's reading is that of these outcomes, outlet by outlet and in total. */
  ghost predicate Shows(reading: DeviceReading, outcomes: seq<Outcome>)
    reads reading, reading.outletEnergies, reading.outletCells
    reads reading.energy, if reading.energy == null then {} else reading.energy.cells
  {
    reading.Published(outcomes) && Holds(reading.energy, StripEnergy(outcomes))
  }

  lemma ShowsCounter(reading: DeviceReading, outcomes: seq<Outcome>)
    requires Shows(reading, outcomes)
    ensures CounterOf(reading) == PublishedTotal(outcomes)
  {
  }

  predicate Failed(o: Outcome) { o.Unreachable? }

  predicate Gave(o: Outcome) { o.Measured? }

  ghost function Count(outcomes: seq<Outcome>, p: Outcome -> bool): nat {
    if outcomes == [] then 0
    else Count(outcomes[..|outcomes| - 1], p) + if p(outcomes[|outcomes| - 1]) then 1 else 0
  }

  lemma CountSnoc(outcomes: seq<Outcome>, o: Outcome, p: Outcome -> bool)
    ensures Count(outcomes + [o], p) == Count(outcomes, p) + if p(o) then 1 else 0
  {
    assert (outcomes + [o])[..|outcomes|] == outcomes;
  }

  lemma CountsDecide(seen: seq<Outcome>)
    ensures Count(seen, Failed) == |seen| <==> AllUnreachable(seen)
    ensures Count(seen, Gave) == |seen| <==> AllMeasured(seen)
    ensures Count(seen, Gave) > 0 <==> AnyMeasured(seen)
  {
    CountAll(seen, Failed);
    CountAll(seen, Gave);
  }

  lemma {:induction false} CountAll(outcomes: seq<Outcome>, p: Outcome -> bool)
    ensures Count(outcomes, p) <= |outcomes|
    ensures Count(outcomes, p) == |outcomes| <==> forall i :: 0 <= i < |outcomes| ==> p(outcomes[i])
    ensures Count(outcomes, p) > 0 <==> exists i :: 0 <= i < |outcomes| && p(outcomes[i])
  {
    if outcomes != [] {
      var front, last := outcomes[..|outcomes| - 1], |outcomes| - 1;
      CountAll(front, p);
      assert forall i :: 0 <= i < last ==> front[i] == outcomes[i];
      if p(outcomes[last]) {
        assert p(outcomes[last]);
      }
    }
  }
}
