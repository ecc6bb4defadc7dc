/** The protocol-independent reading the collectors consume (kasa/device.go), as values. */
module Readings {
  import opened Emeter
  import opened Wrappers

  datatype DeviceType = Plug | Strip | Bulb | LightStrip | Dimmer | WallSwitch | Hub | UnknownType

  datatype Socket = Socket(id: string, alias: string, on: Option<bool>, uptime: Option<real>,
      energy: Option<EnergyValue>)

  datatype Child = Child(
    id: string, alias: string, model: string, category: string, online: Option<bool>, battery: Option<real>,
    batteryLow: Option<bool>, temperature: Option<real>, humidity: Option<real>, signalLevel: Option<real>,
    rssi: Option<real>)

  /** What identifies a device beside its address and name. */
  datatype Facts = Facts(
    model: string, deviceID: string, hardwareVersion: string, firmwareVersion: string, mac: string, protocol: string)

  datatype Reading = Reading(
    host: string, alias: string, facts: Facts, kind: DeviceType,
    on: Option<bool>, ledOn: Option<bool>, overheated: Option<bool>, updating: Option<bool>,
    uptime: Option<real>, rssi: Option<real>, signalLevel: Option<real>,
    brightness: Option<real>, colorTemp: Option<real>, hue: Option<real>, saturation: Option<real>,
    length: Option<real>,
    energy: Option<EnergyValue>, sockets: seq<Socket>, children: seq<Child>)

  /** The outlets' ids are pairwise distinct. */
  predicate DistinctIds(sockets: seq<Socket>) {
    forall i, j :: 0 <= i < j < |sockets| ==> sockets[i].id != sockets[j].id
  }
}
