/**
 From what a device answers to what is sent about it: the fields of a SMART device's decoded
 answers, and an IOT outlet's meter, followed into the metric values they become.
 */
module DialectSeries {
  import opened Emeter
  import opened Readings
  import opened SeriesValues
  import Iot
  import Smart
  import opened Text
  import opened Wrappers

  // ---------------------------------------------------------------- SMART

  /** The reading of a SMART device, as the managed device stamps it with its address. */
  ghost predicate ReadFrom(r: Reading, info: Smart.Info, results: map<Smart.Method, Smart.Payload>) {
    exists raw :: Smart.Assembled(info, results, raw) && r == raw.(host := r.host)
  }

  /** get_current_power gave a figure, in watts. */
  predicate GaveWatts(results: map<Smart.Method, Smart.Payload>, x: real) {
    Smart.CurrentPower in results && results[Smart.CurrentPower].power == Some(Some(x))
  }

  /** get_energy_usage gave a figure, in thousandths of what the metric counts in. */
  predicate GaveMilliwatts(results: map<Smart.Method, Smart.Payload>, x: real) {
    && Smart.EnergyUsage in results && results[Smart.EnergyUsage].usage.Some?
    && results[Smart.EnergyUsage].usage.value.powerMW.Some?
    && results[Smart.EnergyUsage].usage.value.powerMW.value == 1000.0 * x
  }

  predicate GaveWattHours(results: map<Smart.Method, Smart.Payload>, x: real) {
    && Smart.EnergyUsage in results && results[Smart.EnergyUsage].usage.Some?
    && results[Smart.EnergyUsage].usage.value.monthWH.Some?
    && results[Smart.EnergyUsage].usage.value.monthWH.value == 1000.0 * x
  }

  lemma ListedDoesNotShow(r: Reading, info: Smart.Info, results: map<Smart.Method, Smart.Payload>)
    requires ReadFrom(r, info, results)
    ensures r.energy
        == Smart.EnergyOf(Smart.Entry(results, Smart.EnergyUsage), Smart.Entry(results, Smart.CurrentPower))
    ensures r == Smart.ReadingOf(info).(host := r.host, kind := r.kind, energy := r.energy, sockets := r.sockets,
                                        children := r.children)
    ensures r.kind == info.kind || r.kind == Strip
  {
    hide Smart.EnergyOf;
  }

  /** Everything get_device_info says of the device itself reaches the metric it belongs to, and no other. */
  lemma DeviceInfoIsSent(r: Reading, info: Smart.Info, results: map<Smart.Method, Smart.Payload>, x: real)
    requires ReadFrom(r, info, results)
    ensures DeviceSays(r, Series.SignalStrength, x) <==> info.rssi == Some(x)
    ensures DeviceSays(r, Series.SignalLevel, x) <==> info.signalLevel == Some(x)
    ensures DeviceSays(r, Series.Uptime, x) <==> info.onTime == Some(x)
    ensures DeviceSays(r, Series.Overheated, x)
        <==> info.overheated.Some? && x == if info.overheated.value then 1.0 else 0.0
    ensures DeviceSays(r, Series.LedOn, x) <==> info.ledOff.Some? && x == if info.ledOff.value == 0 then 1.0 else 0.0
    ensures !DeviceSays(r, Series.Updating, x) && !DeviceSays(r, Series.Length, x)
  {
    ListedDoesNotShow(r, info, results);
    hide ReadFrom;
  }

  /** And so does its state, under the names of the kind it turned out to be. */
  lemma SwitchStateIsSent(r: Reading, info: Smart.Info, results: map<Smart.Method, Smart.Payload>, x: real)
    requires ReadFrom(r, info, results)
    ensures r.kind !in {Hub, UnknownType} ==>
      (DeviceSays(r, Series.On(r.kind), x) <==> info.on.Some? && x == if info.on.value then 1.0 else 0.0)
    ensures r.kind in {Bulb, LightStrip, Dimmer} ==>
      (DeviceSays(r, Series.Brightness(r.kind), x) <==> info.brightness == Some(x))
    ensures r.kind in {Bulb, LightStrip} ==>
      && (DeviceSays(r, Series.ColorTemp(r.kind), x) <==> info.colorTemp == Some(x))
      && (DeviceSays(r, Series.Hue(r.kind), x) <==> info.hue == Some(x))
      && (DeviceSays(r, Series.Saturation(r.kind), x) <==> info.saturation == Some(x))
  {
    ListedDoesNotShow(r, info, results);
    hide ReadFrom;
  }

  lemma SmartInfoIsSent(r: Reading, info: Smart.Info, results: map<Smart.Method, Smart.Payload>)
    requires ReadFrom(r, info, results)
    ensures InfoMetric(r, Series.Metric(Series.Info, [r.host, if info.alias != "" then info.alias else r.host,
                info.model, info.deviceID, info.hardwareVersion, info.firmwareVersion, info.mac, Spelled(r.kind),
                "smart"], 1.0))
  {
    ListedDoesNotShow(r, info, results);
    hide ReadFrom;
  }

  /** Watts are believed before milliwatts, kilowatt-hours come from watt-hours, and nothing else is metered. */
  lemma SmartEnergyIsSent(r: Reading, info: Smart.Info, results: map<Smart.Method, Smart.Payload>, x: real)
    requires ReadFrom(r, info, results) && r.kind !in {Hub, UnknownType}
    ensures DeviceSays(r, Series.PowerWatts, x)
        <==> GaveWatts(results, x) || ((forall w :: !GaveWatts(results, w)) && GaveMilliwatts(results, x))
    ensures DeviceSays(r, Series.EnergyTotal, x) <==> GaveWattHours(results, x)
    ensures !DeviceSays(r, Series.VoltageVolts, x) && !DeviceSays(r, Series.CurrentAmperes, x)
  {
    ListedDoesNotShow(r, info, results);
    hide ReadFrom;
    if Smart.CurrentPower in results && results[Smart.CurrentPower].power.Some?
      && results[Smart.CurrentPower].power.value.Some? {
      assert GaveWatts(results, results[Smart.CurrentPower].power.value.value);
    }
  }

  /** The conversion is the inverse of the one from Celsius. */
  lemma Fahrenheit(said: Smart.Info, x: real)
    ensures SensorSays(Smart.ChildOf(said), Series.Temperature, x)
        <==> said.temperature == Some(if said.fahrenheit then x * 9.0 / 5.0 + 32.0 else x)
  {
  }

  /** Whatever a sensor says reaches the metric it belongs to; its temperature is in degrees Celsius there. */
  lemma SensorIsSent(said: Smart.Info, c: Child, x: real)
    requires c == Smart.ChildOf(said)
    ensures c.id == said.deviceID && c.alias == said.alias && c.model == said.model && c.category == said.category
    ensures SensorSays(c, Series.ChildUp, x) <==> said.online.Some? && x == if said.online.value then 1.0 else 0.0
    ensures SensorSays(c, Series.Battery, x) <==> said.battery == Some(x)
    ensures SensorSays(c, Series.BatteryLow, x)
        <==> said.batteryLow.Some? && x == if said.batteryLow.value then 1.0 else 0.0
    ensures SensorSays(c, Series.Humidity, x) <==> said.humidity == Some(x)
    ensures SensorSays(c, Series.ChildSignal, x) <==> said.rssi == Some(x)
    ensures SensorSays(c, Series.ChildSignalLevel, x) <==> said.signalLevel == Some(x)
    ensures SensorSays(c, Series.Temperature, x)
        <==> said.temperature == Some(if said.fahrenheit then x * 9.0 / 5.0 + 32.0 else x)
  {
    Fahrenheit(said, x);
    hide Smart.ToCelsius;
  }

  /** A hub's sensors are the ones it listed, in order. */
  lemma HubListsItsSensors(r: Reading, info: Smart.Info, results: map<Smart.Method, Smart.Payload>,
      list: seq<Smart.Info>)
    requires ReadFrom(r, info, results) && info.kind == Hub
    requires Smart.ChildList in results && results[Smart.ChildList].children == Some(list)
    ensures r.kind == Hub && r.sockets == [] && |r.children| == |list|
    ensures forall i :: 0 <= i < |list| ==> r.children[i] == Smart.ChildOf(list[i])
  {
    hide Smart.ChildOf, Smart.EnergyOf;
    var raw :| Smart.Assembled(info, results, raw) && r == raw.(host := r.host);
  }

  /** Every outlet a device that is no hub lists is sent under its number and name, and none is metered. */
  lemma SmartOutletIsSent(r: Reading, info: Smart.Info, results: map<Smart.Method, Smart.Payload>,
      list: seq<Smart.Info>, i: nat, x: real)
    requires ReadFrom(r, info, results) && info.kind != Hub && i < |list|
    requires Smart.ChildList in results && results[Smart.ChildList].children == Some(list)
    ensures r.kind == Strip && |r.sockets| == |list| && r.children == []
    ensures var s, said := r.sockets[i], list[i];
      && s.id == Itoa(if said.position.Some? then said.position.value + 1 else i + 1) && s.alias == said.alias
      && (OutletSays(s, Series.SocketOn, x) <==> said.on.Some? && x == if said.on.value then 1.0 else 0.0)
      && (OutletSays(s, Series.SocketUptime, x) <==> said.onTime == Some(x))
      && !OutletSays(s, Series.SocketPower, x) && !OutletSays(s, Series.SocketEnergy, x)
  {
    StripListsItsOutlets(r, info, results, list);
    hide Itoa, ReadFrom;
    assert r.sockets[i] == Smart.SocketOf(list, i);
  }

  lemma StripListsItsOutlets(r: Reading, info: Smart.Info, results: map<Smart.Method, Smart.Payload>,
      list: seq<Smart.Info>)
    requires ReadFrom(r, info, results) && info.kind != Hub && list != []
    requires Smart.ChildList in results && results[Smart.ChildList].children == Some(list)
    ensures r.kind == Strip && r.children == [] && |r.sockets| == |list|
    ensures forall i :: 0 <= i < |list| ==> r.sockets[i] == Smart.SocketOf(list, i)
  {
    hide Smart.SocketOf, Smart.EnergyOf;
    var raw :| Smart.Assembled(info, results, raw) && r == raw.(host := r.host);
  }

  // ---------------------------------------------------------------- IOT

  /** An outlet of the reading the collectors see, with the heap energy it was built from. */
  ghost predicate SameOutlet(s: Socket, outlet: Iot.Outlet, outcome: Outcome)
    reads outlet.energy, if outlet.energy == null then {} else outlet.energy.cells
  {
    && s.id == outlet.id && s.alias == outlet.alias && s.on == outlet.on && s.uptime == outlet.uptime
    && Iot.Holds(outlet.energy, s.energy) && Iot.Holds(outlet.energy, Iot.ReadingOf(outcome))
  }

  /** The outlet answered, and neither its module nor its reading reported an error. */
  predicate MeterAnswered(response: Iot.Response) {
    && response.Response? && response.emeter.Some?
    && (response.emeter.value.errCode.None? || response.emeter.value.errCode.value == 0)
    && response.emeter.value.realtime.Some?
    && (response.emeter.value.realtime.value.errCode.None? || response.emeter.value.realtime.value.errCode.value == 0)
  }

  /** In whole units, or else in thousandths of them: the thousandths come first. */
  predicate Spells(thousandths: Option<real>, whole: Option<real>, x: real) {
    thousandths == Some(1000.0 * x) || (thousandths.None? && whole == Some(x))
  }

  lemma MilliSpells(thousandths: Option<real>, whole: Option<real>, x: real)
    ensures Milli(thousandths, whole) == Some(x) <==> Spells(thousandths, whole, x)
  {
  }

  /**
   What is sent for outlet i of an IOT strip: its number and name, 1 or 0 for its relay, and each
   figure of the meter it was asked for, in the metric's unit.
   */
  lemma IotOutletIsSent(s: Socket, outlet: Iot.Outlet, i: nat, child: Iot.OutletInfo, response: Iot.Response, x: real)
    requires Iot.Labelled(outlet, i, child) && SameOutlet(s, outlet, Iot.OutcomeOf(response))
    ensures s.id == Itoa(i + 1) && s.alias == child.alias
    ensures OutletSays(s, Series.SocketOn, x) <==> child.state.Some? && x == if child.state.value != 0 then 1.0 else 0.0
    ensures OutletSays(s, Series.SocketUptime, x) <==> child.onTime == Some(x)
    ensures s.energy.Some? ==> MeterAnswered(response)
    ensures !MeterAnswered(response) ==>
      !OutletSays(s, Series.SocketPower, x) && !OutletSays(s, Series.SocketVoltage, x)
      && !OutletSays(s, Series.SocketCurrent, x) && !OutletSays(s, Series.SocketEnergy, x)
    ensures MeterAnswered(response) ==>
      var meter := response.emeter.value.realtime.value;
      && (OutletSays(s, Series.SocketPower, x) <==> Spells(meter.powerMW, meter.power, x))
      && (OutletSays(s, Series.SocketVoltage, x) <==> Spells(meter.voltageMV, meter.voltage, x))
      && (OutletSays(s, Series.SocketCurrent, x) <==> Spells(meter.currentMA, meter.current, x))
      && (OutletSays(s, Series.SocketEnergy, x) <==>
            || Spells(meter.totalWH, meter.total, x)
            || (meter.totalWH.None? && meter.total.None? && Spells(meter.energyWH, meter.energy, x)))
  {
    hide Itoa, Milli;
    if MeterAnswered(response) {
      var meter := response.emeter.value.realtime.value;
      MilliSpells(meter.powerMW, meter.power, x);
      MilliSpells(meter.voltageMV, meter.voltage, x);
      MilliSpells(meter.currentMA, meter.current, x);
      MilliSpells(meter.energyWH, meter.energy, x);
      MilliSpells(meter.totalWH, if meter.total.Some? then meter.total else Milli(meter.energyWH, meter.energy), x);
    }
  }

  /** A module answered with this reading. */
  predicate Carries(reply: Option<ModuleReply>, raw: RawReading) {
    && reply.Some? && (reply.value.errCode.None? || reply.value.errCode.value == 0)
    && reply.value.realtime == Some(raw)
  }

  /** The reading a response holds: the plug's module's, or else the bulb's. */
  ghost predicate Gives(response: Iot.Response, raw: RawReading) {
    && response.Response?
    && (Carries(response.emeter, raw)
        || ((forall other :: !Carries(response.emeter, other)) && Carries(response.bulb, raw)))
  }

  lemma MeterIsGiven(response: Iot.Response, raw: RawReading)
    ensures Iot.MeterOf(response) == Some(raw) <==> Gives(response, raw)
  {
    if response.Response? {
      forall other ensures Carries(response.emeter, other) <==> Realtime(response.emeter) == Some(other) {
      }
      assert Realtime(response.emeter).Some? ==> Carries(response.emeter, Realtime(response.emeter).value);
    }
  }

  /**
   Whose meter a plain device is read with: the first answer's, or, from a light that is still
   believed to have one, the answer to the question under the other module's name.
   */
  lemma MeterIsChosen(l: Iot.Learned, first: Iot.Response, follow: Iot.Response, raw: RawReading)
    ensures Iot.Refuses(first) <==>
      || first.NoResponse? || first.sysinfo.None?
      || (first.sysinfo.value.errCode.Some? && first.sysinfo.value.errCode.value != 0)
    ensures !Iot.Refuses(first) ==>
      (Iot.Chosen(l, first, follow) == Some(raw) <==>
        || Gives(first, raw)
        || ((forall other :: !Gives(first, other)) && l.hasMeter && first.sysinfo.value.kind in {Bulb, LightStrip}
            && Gives(follow, raw)))
  {
    forall other ensures Iot.MeterOf(first) == Some(other) <==> Gives(first, other) {
      MeterIsGiven(first, other);
    }
    MeterIsGiven(follow, raw);
    if Iot.MeterOf(first).Some? {
      assert Gives(first, Iot.MeterOf(first).value);
    }
    hide Iot.MeterOf, Gives;
  }

  /** An outlet is asked for by its full identifier, whichever of the two forms the device reported. */
  lemma EitherIdAsksTheSame(deviceId: string, position: string, bare: Iot.OutletInfo, full: Iot.OutletInfo)
    requires |position| <= 2 < |deviceId + position| && bare.id == position && full.id == deviceId + position
    ensures Iot.ChildId(deviceId, bare) == Iot.ChildId(deviceId, full) == deviceId + position
  {
  }
}
