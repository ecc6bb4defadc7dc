/** The device set of the registry (kasa/registry.go), updated in place: construction, reconciliation and closing. */
module RegistryModel {
  import opened Connect
  import opened Devices
  import opened Fleet
  import opened Wrappers

  /** No two devices share a wire, so what is done to one says nothing about another. */
  ghost predicate SeparateWires(devices: set<Device>) {
    forall a, b :: a in devices && b in devices && a.wire == b.wire ==> a == b
  }

  ghost predicate AllValid(devices: set<Device>)
    reads devices, set d | d in devices :: d.wire
  {
    forall d :: d in devices ==> d.Valid()
  }

  function Keys(found: seq<Device>): seq<(string, Device)> {
    seq(|found|, i requires 0 <= i < |found| => (found[i].host, found[i]))
  }

  function Elements(found: seq<Device>): set<Device> {
    set i | 0 <= i < |found| :: found[i]
  }

  class Registry {
    const keepMissing: bool
    var manual: set<string>
    var devices: map<string, Device>

    ghost predicate Valid()
      reads this, devices.Values, set d | d in devices.Values :: d.wire
    {
      && SeparateWires(devices.Values) && AllValid(devices.Values)
      && manual <= devices.Keys && forall h :: h in devices ==> devices[h].host == h
    }

    /** `NewRegistry`: one unconnected device for each configured host. */
    constructor (hosts: seq<string>, keepMissing: bool, network: string -> Behaviour)
      ensures Valid() && this.keepMissing == keepMissing
      ensures manual == devices.Keys == set h | h in hosts
      ensures Unused(network) && forall h :: h in devices ==> fresh(devices[h]) && fresh(devices[h].wire)
    {
      this.keepMissing, manual, devices := keepMissing, {}, map[];
      new;
      ConfigureAll(hosts, network);
    }

    /** The loop over the configured hosts. */
    method ConfigureAll(hosts: seq<string>, network: string -> Behaviour)
      requires devices == map[] && manual == {}
      modifies this`devices, this`manual
      ensures Valid() && Unused(network) && manual == devices.Keys == set h | h in hosts
      ensures forall h :: h in devices ==> fresh(devices[h]) && fresh(devices[h].wire)
    {
      hide SeparateWires, AllValid, Device.Valid, Unused;
      NothingConfigured(network);
      for i := 0 to |hosts|
        invariant devices.Keys == manual && forall h :: h in manual <==> h in hosts[..i]
        invariant Valid() && Unused(network)
        invariant forall h :: h in devices ==> fresh(devices[h]) && fresh(devices[h].wire)
      {
        Configure(hosts[i], network);
        assert hosts[..i + 1] == hosts[..i] + [hosts[i]];
      }
      assert hosts[..|hosts|] == hosts;
      assert manual == set h | h in hosts;
    }

    lemma NothingConfigured(network: string -> Behaviour)
      requires devices == map[] && manual == {}
      ensures Valid() && Unused(network)
    {
    }

    /** No connection is made yet, and each device's wire leads to its own host. */
    ghost predicate Unused(network: string -> Behaviour)
      reads this, devices.Values, set d | d in devices.Values :: d.wire
    {
      forall h :: h in devices ==> devices[h].querier == null && devices[h].wire.behave == network(h)
    }

    method Configure(host: string, network: string -> Behaviour)
      requires Valid() && Unused(network)
      modifies this`devices, this`manual
      ensures Valid() && Unused(network) && manual == old(manual) + {host}
      ensures host in devices && devices == old(devices)[host := devices[host]]
      ensures fresh(devices[host]) && fresh(devices[host].wire)
    {
      hide SeparateWires, Device.Valid;
      var device := new Device(host, "", None, network(host));
      ValidJoin(devices, host, device);
      devices := devices[host := device];
      manual := manual + {host};
    }

    /** The first loop of reconcile: a device already known keeps the connection it has. */
    method AddFound(found: seq<Device>) returns (seen: set<string>)
      requires Valid() && SeparateWires(devices.Values + Elements(found)) && AllValid(Elements(found))
      modifies this`devices
      ensures devices == AddAll(old(devices), Keys(found)) && seen == Hosts(Keys(found)) && Valid()
    {
      AddKeepsValid(devices, found);
      AddAllIs(devices, Keys(found));
      ghost var added := AddAll(devices, Keys(found));
      seen := {};
      for i := 0 to |found|
        invariant AddAll(old(devices), Keys(found)) == AddAll(devices, Keys(found)[i..])
        invariant seen == Hosts(Keys(found)[..i]) && AllValid(added.Values)
      {
        assert Keys(found)[i..][0] == (found[i].host, found[i]) && Keys(found)[i..][1..] == Keys(found)[i + 1..];
        HostsMore(Keys(found), i);
        seen := seen + {found[i].host};
        if found[i].host in devices {
          continue;
        }
        devices := devices[found[i].host := found[i]];
      }
      assert Keys(found)[|found|..] == [] && Keys(found)[..|found|] == Keys(found);
    }

    /** The devices a sweep that saw `seen` closes. */
    ghost function Missing(seen: set<string>): set<Device>
      reads this
    {
      set h | h in devices && h !in seen && h !in manual :: devices[h]
    }

    /** The second loop: every device that was neither seen nor configured is closed and dropped. */
    method DropMissing(seen: set<string>)
      requires SeparateWires(devices.Values) && AllValid(devices.Values)
      modifies this`devices, Missing(seen), set d | d in Missing(seen) :: d.wire
      ensures devices == old(devices) - (old(devices.Keys) - seen - manual)
      ensures AllValid(old(devices.Values))
      ensures forall h :: h in old(devices) && h !in devices ==>
          old(devices)[h].Valid() && old(devices)[h].querier == null
    {
      hide SeparateWires;
      ghost var before, missing := devices, Missing(seen);
      ghost var dead: set<string> := {};
      var todo := devices.Keys;
      while todo != {}
        invariant Accounted(before.Keys, todo, seen + manual, dead)
        invariant Sifted(before, dead)
        decreases |todo|
      {
        var host :| host in todo;
        assert host in before && before[host] in before.Values && (host !in seen + manual ==> before[host] in missing);
        hide Sifted;
        dead := Sift(host, seen, before, todo, dead);
        todo := todo - {host};
      }
      assert dead == old(devices.Keys) - seen - manual;
      forall h | h in before && h !in devices ensures before[h].Valid() && before[h].querier == null {
        assert before[h] in before.Values;
        ValidOf(before.Values, before[h]);
      }
    }

    /** The dead are out of the map and hold no connection. */
    ghost predicate Sifted(before: map<string, Device>, dead: set<string>)
      reads this, before.Values, set d | d in before.Values :: d.wire
    {
      && devices == before - dead && dead <= before.Keys && AllValid(before.Values)
      && forall h :: h in dead ==> before[h].querier == null
    }

    /** One turn of the second loop. */
    method Sift(host: string, seen: set<string>, ghost before: map<string, Device>, ghost todo: set<string>,
        ghost dead: set<string>)
      returns (ghost gone: set<string>)
      requires Sifted(before, dead) && Accounted(before.Keys, todo, seen + manual, dead) && host in todo
          && SeparateWires(before.Values)
      requires host in before
      modifies this`devices, if host in seen + manual then {} else {before[host]}
      modifies if host in seen + manual then {} else {before[host].wire}
      ensures Sifted(before, gone) && Accounted(before.Keys, todo - {host}, seen + manual, gone)
    {
      gone := dead;
      if !(host in seen || host in manual) {
        assert devices[host] == before[host] && before[host] in before.Values;
        hide SeparateWires;
        RemoveOneMore(before, dead, host);
        Drop(host, before.Values);
        gone := dead + {host};
      }
    }

    /** Closes and deletes one device; its peers, which share no wire with it, stay valid. */
    method Drop(host: string, ghost peers: set<Device>)
      requires host in devices && devices[host] in peers && SeparateWires(peers) && AllValid(peers)
      modifies this`devices, devices[host], devices[host].wire
      ensures devices == old(devices) - {host} && old(devices)[host].querier == null && AllValid(peers)
      ensures forall d :: d in peers && d != old(devices)[host] ==> d.querier == old(d.querier)
    {
      var device := devices[host];
      device.Close();
      devices := devices - {host};
      forall d | d in peers ensures d.Valid() {
        if d != device {
          assert d.wire != device.wire;
        }
      }
    }

    /**
     `reconcile`: the key set after a sweep is exactly the configured hosts and the found ones,
     or the old ones and the found ones when missing devices are kept. Survivors keep the very
     device object they had, nothing but the missing devices is touched, and those are closed.
     */
    method Reconcile(found: seq<Device>)
      requires Valid() && SeparateWires(devices.Values + Elements(found)) && AllValid(Elements(found))
      modifies this`devices, if keepMissing then {} else Missing(Hosts(Keys(found)))
      modifies set d | d in (if keepMissing then {} else Missing(Hosts(Keys(found)))) :: d.wire
      ensures Valid() && devices == Merge(old(devices), Keys(found), manual, keepMissing)
      ensures devices.Keys == (if keepMissing then old(devices.Keys) else manual) + Hosts(Keys(found))
      ensures forall h :: h in devices && h in old(devices) ==> devices[h] == old(devices)[h]
      ensures forall h :: h in old(devices) && h !in devices ==>
          old(devices)[h].Valid() && old(devices)[h].querier == null
    {
      ghost var before := devices;
      MergedShape(before, found, manual, keepMissing);
      hide SeparateWires, AllValid, AddAll, Elements, Merge, Device.Valid;
      var seen := AddFound(found);
      ghost var added := devices;
      if !keepMissing {
        DropMissing(seen);
      }
      assert devices == Merge(before, Keys(found), manual, keepMissing);
      ValidWithin(devices.Values, added.Values);
      SeparateWithin(devices.Values, added.Values);
    }

    method CloseOne(host: string)
      requires Valid() && host in devices
      modifies devices[host], devices[host].wire
      ensures Valid() && devices[host].querier == null
      ensures forall h :: h in devices && h != host ==> devices[h].querier == old(devices[h].querier)
    {
      assert devices[host] in devices.Values;
      devices[host].Close();
      forall d | d in devices.Values ensures d.Valid() {
        if d != devices[host] {
          assert d.wire != devices[host].wire;
        }
      }
    }

    /** `Close`: every device's connection is released. */
    method Close()
      requires Valid()
      modifies devices.Values, set d | d in devices.Values :: d.wire
      ensures Valid() && devices == old(devices)
      ensures forall h :: h in devices ==> devices[h].querier == null && devices[h].wire.open == {}
    {
      hide SeparateWires;
      var todo := devices.Keys;
      while todo != {}
        invariant todo <= devices.Keys && Valid()
        invariant forall h :: h in devices && h !in todo ==> devices[h].querier == null
        decreases |todo|
      {
        var host :| host in todo;
        todo := todo - {host};
        CloseOne(host);
      }
      forall h | h in devices ensures devices[h].wire.open == {} {
        assert devices[h] in devices.Values;
      }
    }
  }

  lemma RemoveOneMore(devices: map<string, Device>, dead: set<string>, host: string)
    ensures devices - dead - {host} == devices - (dead + {host})
  {
  }

  /** Of the hosts no longer to be visited, the dead are those not kept. */
  ghost predicate Accounted(all: set<string>, todo: set<string>, kept: set<string>, dead: set<string>) {
    todo <= all && forall h :: h in dead <==> h in all && h !in todo && h !in kept
  }

  /** A new device joins the set under its own host, in place of any device that was there. */
  lemma ValidJoin(devices: map<string, Device>, host: string, device: Device)
    requires SeparateWires(devices.Values) && forall d :: d in devices.Values ==> d.wire != device.wire
    ensures SeparateWires(devices[host := device].Values) && devices[host := device].Values <= devices.Values + {device}
  {
  }

  lemma SeparateWithin(some: set<Device>, all: set<Device>)
    requires some <= all && SeparateWires(all)
    ensures SeparateWires(some)
  {
  }

  lemma {:induction false} AddKeepsValid(devices: map<string, Device>, found: seq<Device>)
    requires SeparateWires(devices.Values + Elements(found)) && AllValid(devices.Values) && AllValid(Elements(found))
    requires forall h :: h in devices ==> devices[h].host == h
    ensures var added := AddAll(devices, Keys(found));
      && added.Values <= devices.Values + Elements(found)
      && SeparateWires(added.Values) && AllValid(added.Values) && forall h :: h in added ==> added[h].host == h
  {
    MergedDevices(devices, found);
    var added := AddAll(devices, Keys(found));
    SeparateWithin(added.Values, devices.Values + Elements(found));
    ValidWithin(added.Values, devices.Values + Elements(found));
  }

  /** One reconciliation on values: the two loops, and the shape they leave. */
  lemma {:induction false} MergedShape(
    devices: map<string, Device>, found: seq<Device>, manual: set<string>, keepMissing: bool)
    requires manual <= devices.Keys && forall h :: h in devices ==> devices[h].host == h
    ensures var added, after := AddAll(devices, Keys(found)), Merge(devices, Keys(found), manual, keepMissing);
      && after == (if keepMissing then added else added - (added.Keys - Hosts(Keys(found)) - manual))
      && after.Keys == (if keepMissing then devices.Keys else manual) + Hosts(Keys(found))
      && added.Keys == devices.Keys + Hosts(Keys(found)) && after.Values <= added.Values && manual <= after.Keys
      && (forall h :: h in after ==> after[h].host == h)
      && (forall h :: h in devices ==> h in added && added[h] == devices[h])
      && (forall h :: h in after && h in devices ==> after[h] == devices[h])
  {
    MergeIs(devices, Keys(found), manual, keepMissing);
    AddAllIs(devices, Keys(found));
    MergedDevices(devices, found);
    var added, after := AddAll(devices, Keys(found)), Merge(devices, Keys(found), manual, keepMissing);
    forall h | h in after ensures after[h] in added.Values && after[h].host == h {
      assert after[h] == added[h];
    }
  }

  lemma ValidOf(all: set<Device>, d: Device)
    requires d in all && AllValid(all)
    ensures d.Valid()
  {
  }

  lemma ValidWithin(some: set<Device>, all: set<Device>)
    requires some <= all && AllValid(all)
    ensures AllValid(some)
  {
  }

  lemma {:induction false} HostsMore(found: seq<(string, Device)>, i: nat)
    requires i < |found|
    ensures Hosts(found[..i + 1]) == Hosts(found[..i]) + {found[i].0}
  {
    assert found[..i + 1] == found[..i] + [found[i]];
    forall h | h in Hosts(found[..i]) + {found[i].0} ensures h in Hosts(found[..i + 1]) {
      if h == found[i].0 {
        assert found[..i + 1][i].0 == h;
      } else {
        var k :| 0 <= k < i && found[..i][k].0 == h;
        assert found[..i + 1][k].0 == h;
      }
    }
  }

  /** Adding brings in no device but the found ones. */
  lemma {:induction false} MergedDevices(devices: map<string, Device>, found: seq<Device>)
    requires forall h :: h in devices ==> devices[h].host == h
    ensures var added := AddAll(devices, Keys(found));
      && added.Values <= devices.Values + Elements(found)
      && forall h :: h in added ==> added[h].host == h
  {
    var pairs := Keys(found);
    AddAllIs(devices, pairs);
    var added := AddAll(devices, pairs);
    forall h | h in added ensures added[h] in devices.Values + Elements(found) && added[h].host == h {
      if h in devices {
        assert devices[h] in devices.Values;
      } else {
        FirstIsFound(found, h);
      }
    }
  }

  lemma {:induction false} FirstIsFound(found: seq<Device>, host: string)
    requires host in Hosts(Keys(found))
    ensures FirstAt(Keys(found), host) in Elements(found) && FirstAt(Keys(found), host).host == host
    decreases |found|
  {
    if found[0].host == host {
      assert found[0] in Elements(found);
    } else {
      HostsTail(Keys(found));
      assert Keys(found)[1..] == Keys(found[1..]);
      FirstIsFound(found[1..], host);
      var d := FirstAt(Keys(found[1..]), host);
      var i :| 0 <= i < |found[1..]| && found[1..][i] == d;
      assert found[i + 1] == d;
    }
  }
}
