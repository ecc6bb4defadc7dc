/** The SMART dialect (kasa/smart.go): one batched request a read, and which optional methods it keeps asking for. */
module Smart {
  import opened Emeter
  import opened Readings
  import opened Text
  import opened Wrappers

  datatype Method = DeviceInfo | EnergyUsage | CurrentPower | ChildList | OtherMethod(name: string)

  datatype Request = Batch(methods: seq<Method>) | Single(only: Method)

  /** Decoded device information; `alias` is the decoded nickname, `kind` what the model resolves to. */
  datatype Info = Info(
    deviceID: string, model: string, alias: string, kind: DeviceType, on: Option<bool>, onTime: Option<real>,
    overheated: Option<bool>, rssi: Option<real>, signalLevel: Option<real>, brightness: Option<real>,
    colorTemp: Option<real>, hue: Option<real>, saturation: Option<real>, ledOff: Option<int>,
    hardwareVersion: string, firmwareVersion: string, mac: string,
    position: Option<int>, category: string, online: Option<bool>, batteryLow: Option<bool>,
    battery: Option<real>, temperature: Option<real>, fahrenheit: bool, humidity: Option<real>)

  datatype Usage = Usage(powerMW: Option<real>, monthWH: Option<real>)

  /** What one piece of JSON decodes to as each of the types it may be asked to be. */
  datatype Payload = Payload(
    info: Option<Info>, usage: Option<Usage>, power: Option<Option<real>>, children: Option<seq<Info>>)

  /** A batch member; `result` is missing when the JSON member is. */
  datatype BatchItem = BatchItem(of: Method, errorCode: int, result: Option<Payload>)

  datatype Reply = Lost | Reply(errorCode: int, batch: Option<seq<BatchItem>>, payload: Payload)

  datatype SmartError = QueryFailed | ErrorCode(code: int) | BadBatch | BadInfo

  class SmartDevice {
    const answer: (nat, Request) -> Reply
    var asked: seq<Request>

    method Query(request: Request) returns (reply: Reply)
      modifies this
      ensures asked == old(asked) + [request] && reply == answer(|old(asked)|, request)
    {
      reply := answer(|asked|, request);
      asked := asked + [request];
    }
  }

  // ---------------------------------------------------------------- batches

  predicate Counts(item: BatchItem) {
    item.errorCode == 0 && item.result.Some?
  }

  predicate AnsweredIn(items: seq<BatchItem>, m: Method) {
    exists i :: 0 <= i < |items| && items[i].of == m && Counts(items[i])
  }

  /** Entry p is the last usable answer to m. */
  predicate LastAnswer(items: seq<BatchItem>, m: Method, p: Payload) {
    exists i :: 0 <= i < |items| && items[i] == BatchItem(m, 0, Some(p))
      && forall j :: i < j < |items| && items[j].of == m ==> !Counts(items[j])
  }

  predicate Tabulates(items: seq<BatchItem>, out: map<Method, Payload>) {
    && (forall m :: m in out ==> AnsweredIn(items, m) && LastAnswer(items, m, out[m]))
    && (forall i :: 0 <= i < |items| && Counts(items[i]) ==> items[i].of in out)
  }

  lemma {:induction false} TabulateMore(items: seq<BatchItem>, out: map<Method, Payload>, item: BatchItem)
    requires Tabulates(items, out)
    ensures Tabulates(items + [item], if Counts(item) then out[item.of := item.result.value] else out)
  {
    var more := items + [item];
    var after := if Counts(item) then out[item.of := item.result.value] else out;
    assert more[|items|] == item;
    forall m | m in after ensures AnsweredIn(more, m) && LastAnswer(more, m, after[m]) {
      if !(Counts(item) && item.of == m) {
        var i :| 0 <= i < |items| && items[i] == BatchItem(m, 0, Some(out[m]))
          && forall j :: i < j < |items| && items[j].of == m ==> !Counts(items[j]);
        assert more[i] == items[i] && Counts(more[i]);
      }
    }
  }

  /** The loop of `batch`: a method the device does not support is left out rather than failing the batch. */
  method Tabulate(items: seq<BatchItem>) returns (out: map<Method, Payload>)
    ensures Tabulates(items, out)
    ensures forall m :: m in out <==> AnsweredIn(items, m)
  {
    out := map[];
    for i := 0 to |items|
      invariant Tabulates(items[..i], out)
    {
      assert items[..i + 1] == items[..i] + [items[i]];
      TabulateMore(items[..i], out, items[i]);
      if items[i].errorCode == 0 && items[i].result.Some? {
        out := out[items[i].of := items[i].result.value];
      }
    }
    assert items[..|items|] == items;
  }

  // ---------------------------------------------------------------- energy

  function Entry(results: map<Method, Payload>, m: Method): Option<Payload> {
    if m in results then Some(results[m]) else None
  }

  /** The instantaneous figure: watts from get_current_power if it gave any, else milliwatts from get_energy_usage. */
  function Power(usage: Option<Payload>, power: Option<Payload>): Option<real> {
    if power.Some? && power.value.power.Some? && power.value.power.value.Some? then power.value.power.value
    else if usage.Some? && usage.value.usage.Some? then Milli(usage.value.usage.value.powerMW, None)
    else None
  }

  function Month(usage: Option<Payload>): Option<real> {
    if usage.Some? && usage.value.usage.Some? then Milli(usage.value.usage.value.monthWH, None) else None
  }

  function EnergyOf(usage: Option<Payload>, power: Option<Payload>): Option<EnergyValue> {
    var e := EnergyValue(Power(usage, power), None, None, Month(usage));
    if e == NOTHING then None else Some(e)
  }

  /**
   A device that draws w watts and metered t this month is read the same whichever of the two
   methods it answers; and when they disagree, get_current_power is believed.
   */
  lemma EitherPowerMethodAgrees(usage: Payload, power: Payload, w: real, t: real, stale: real)
    requires usage.usage == Some(Usage(Some(w * 1000.0), Some(t * 1000.0))) && power.power == Some(Some(w))
    ensures EnergyOf(Some(usage), None) == EnergyOf(Some(usage), Some(power))
        == Some(EnergyValue(Some(w), None, None, Some(t)))
    ensures EnergyOf(None, Some(power)) == Some(EnergyValue(Some(w), None, None, None))
    ensures EnergyOf(Some(usage.(usage := Some(Usage(Some(stale), Some(t * 1000.0))))), Some(power))
        == EnergyOf(Some(usage), Some(power))
  {
    assert w * 1000.0 / 1000.0 == w && t * 1000.0 / 1000.0 == t;
  }

  // ---------------------------------------------------------------- children

  function OutletNumber(children: seq<Info>, i: nat): int
    requires i < |children|
  {
    if children[i].position.Some? then children[i].position.value + 1 else i + 1
  }

  function SocketOf(children: seq<Info>, i: nat): Socket
    requires i < |children|
  {
    Socket(Itoa(OutletNumber(children, i)), children[i].alias, children[i].on, children[i].onTime, None)
  }

  /** `smartSockets`: outlets numbered by their position on the strip, or else by their place in the list. */
  method SmartSockets(children: seq<Info>) returns (sockets: seq<Socket>)
    ensures |sockets| == |children|
    ensures forall i :: 0 <= i < |sockets| ==> sockets[i] == SocketOf(children, i)
  {
    hide Itoa;
    sockets := [];
    for i := 0 to |children|
      invariant |sockets| == i
      invariant forall k :: 0 <= k < i ==> sockets[k] == SocketOf(children, k)
    {
      var child := children[i];
      var id := Itoa(i + 1);
      if child.position.Some? {
        id := Itoa(child.position.value + 1);
      }
      assert Socket(id, child.alias, child.on, child.onTime, None) == SocketOf(children, i);
      hide SocketOf;
      sockets := sockets + [Socket(id, child.alias, child.on, child.onTime, None)];
    }
  }

  /** No two outlets claim one number, whether by a position of their own or by their place in the list. */
  predicate DistinctNumbers(children: seq<Info>) {
    forall i, j :: 0 <= i < j < |children| ==> OutletNumber(children, i) != OutletNumber(children, j)
  }

  /** Outlet ids are distinct exactly when the numbers the firmware implies are. */
  lemma SocketIdsDistinctIff(children: seq<Info>, sockets: seq<Socket>)
    requires |sockets| == |children|
    requires forall i :: 0 <= i < |sockets| ==> sockets[i].id == Itoa(OutletNumber(children, i))
    ensures DistinctIds(sockets) <==> DistinctNumbers(children)
  {
    forall i, j | 0 <= i < j < |children| && sockets[i].id == sockets[j].id
      ensures OutletNumber(children, i) == OutletNumber(children, j)
    {
      ItoaInjective(OutletNumber(children, i), OutletNumber(children, j));
    }
    if DistinctIds(sockets) {
      forall i, j | 0 <= i < j < |children| ensures OutletNumber(children, i) != OutletNumber(children, j) {
        assert sockets[i].id != sockets[j].id;
      }
    }
  }

  /** Firmware that numbers only some of its outlets can make two of them collide. */
  lemma MixedPositionsCollide(named: Info, unnamed: Info)
    requires named.position == Some(1) && unnamed.position == None
    ensures !DistinctNumbers([named, unnamed])
  {
    assert OutletNumber([named, unnamed], 0) == OutletNumber([named, unnamed], 1);
  }

  function ToCelsius(value: real, fahrenheit: bool): real {
    if fahrenheit then (value - 32.0) * 5.0 / 9.0 else value
  }

  function ChildOf(i: Info): Child {
    Child(i.deviceID, i.alias, i.model, i.category, i.online, i.battery, i.batteryLow,
          if i.temperature.Some? then Some(ToCelsius(i.temperature.value, i.fahrenheit)) else None,
          i.humidity, i.signalLevel, i.rssi)
  }

  method SmartChildren(children: seq<Info>) returns (out: seq<Child>)
    ensures |out| == |children| && forall i :: 0 <= i < |out| ==> out[i] == ChildOf(children[i])
  {
    out := [];
    for i := 0 to |children|
      invariant |out| == i && forall k :: 0 <= k < i ==> out[k] == ChildOf(children[k])
    {
      out := out + [ChildOf(children[i])];
    }
  }

  function ReadingOf(i: Info): Reading {
    Reading(
      "", i.alias, Facts(i.model, i.deviceID, i.hardwareVersion, i.firmwareVersion, i.mac, "smart"), i.kind,
      i.on, if i.ledOff.Some? then Some(i.ledOff.value == 0) else None, i.overheated, None, i.onTime, i.rssi,
      i.signalLevel, i.brightness, i.colorTemp, i.hue, i.saturation, None, None, [], [])
  }

  /** What a reading becomes when the device lists children: sensors under a hub, outlets of a strip otherwise. */
  ghost predicate WithChildren(before: Reading, list: Option<seq<Info>>, after: Reading) {
    if list.None? || list.value == [] then after == before
    else if before.kind == Hub then
      && after == before.(children := after.children) && |after.children| == |list.value|
      && forall i :: 0 <= i < |list.value| ==> after.children[i] == ChildOf(list.value[i])
    else
      && after == before.(kind := Strip, sockets := after.sockets) && |after.sockets| == |list.value|
      && forall i :: 0 <= i < |list.value| ==> after.sockets[i] == SocketOf(list.value, i)
  }

  method ApplyChildren(before: Reading, raw: Payload) returns (after: Reading)
    ensures WithChildren(before, raw.children, after)
  {
    after := before;
    if raw.children.None? || |raw.children.value| == 0 {
      return;
    }
    var list := raw.children.value;
    if before.kind == Hub {
      var children := SmartChildren(list);
      return before.(children := children);
    }
    var sockets := SmartSockets(list);
    return before.(kind := Strip, sockets := sockets);
  }

  // ---------------------------------------------------------------- what is asked for

  datatype Wants = Wants(energy: bool, power: bool, children: bool) {
    predicate Want(m: Method) {
      match m
      case DeviceInfo => true
      case EnergyUsage => energy
      case CurrentPower => power
      case ChildList => children
      case _ => false
    }
  }

  function Asking(w: Wants): (methods: seq<Method>)
    ensures forall m :: m in methods <==> w.Want(m)
  {
    [DeviceInfo] + (if w.energy then [EnergyUsage] else []) + (if w.power then [CurrentPower] else [])
      + if w.children then [ChildList] else []
  }

  /** The place of a method in a batch. */
  function Place(m: Method): nat {
    match m case DeviceInfo => 0 case EnergyUsage => 1 case CurrentPower => 2 case ChildList => 3 case _ => 4
  }

  /** A batch names no method twice, get_device_info first and the children last. */
  lemma AskingInOrder(w: Wants)
    ensures Asking(w)[0] == DeviceInfo
    ensures forall i, j :: 0 <= i < j < |Asking(w)| ==> Place(Asking(w)[i]) < Place(Asking(w)[j])
  {
  }

  /** A successful read keeps asking only for what was answered. */
  function Learned(w: Wants, answered: set<Method>): Wants {
    Wants(w.energy && EnergyUsage in answered, w.power && CurrentPower in answered, w.children && ChildList in answered)
  }

  /** One read of a run: whether it succeeded, and which methods the batch answered. */
  datatype Pass = Pass(ok: bool, answered: set<Method>)

  function After(w: Wants, run: seq<Pass>): Wants {
    if run == [] then w
    else
      var last := run[|run| - 1];
      var before := After(w, run[..|run| - 1]);
      if last.ok then Learned(before, last.answered) else before
  }

  /**
   After any run of reads a method is still asked for exactly when it was at the start and every
   successful read answered it; so once a successful read has left it out it is never asked for again.
   */
  lemma {:induction false} AskedWhileAnswered(w: Wants, run: seq<Pass>, m: Method)
    requires m != DeviceInfo
    ensures After(w, run).Want(m) <==> w.Want(m) && forall i :: 0 <= i < |run| && run[i].ok ==> m in run[i].answered
  {
    if run != [] {
      var front, last := run[..|run| - 1], run[|run| - 1];
      AskedWhileAnswered(w, front, m);
      assert forall i :: 0 <= i < |front| ==> front[i] == run[i];
    }
  }

  /** How many successful reads of a run asked for m. */
  function SuccessfulAsks(w: Wants, run: seq<Pass>, m: Method): nat {
    if run == [] then 0
    else
      var front := run[..|run| - 1];
      SuccessfulAsks(w, front, m) + if run[|run| - 1].ok && After(w, front).Want(m) then 1 else 0
  }

  /** A method the device never answers is asked for in at most one successful read. */
  lemma {:induction false} UnsupportedAskedOnce(w: Wants, run: seq<Pass>, m: Method)
    requires m != DeviceInfo && forall i :: 0 <= i < |run| ==> m !in run[i].answered
    ensures SuccessfulAsks(w, run, m) == if w.Want(m) && exists i :: 0 <= i < |run| && run[i].ok then 1 else 0
  {
    if run != [] {
      var front := run[..|run| - 1];
      assert forall i :: 0 <= i < |front| ==> front[i] == run[i];
      UnsupportedAskedOnce(w, front, m);
      AskedWhileAnswered(w, front, m);
    }
  }

  /** The reads up to and including the first successful one whose batch left m unanswered. */
  function Until(run: seq<Pass>, m: Method): nat {
    if run == [] then 0
    else
      var front := run[..|run| - 1];
      Until(front, m) + if forall i :: 0 <= i < |front| && front[i].ok ==> m in front[i].answered then 1 else 0
  }

  lemma {:induction false} UntilIs(run: seq<Pass>, m: Method)
    ensures Until(run, m) <= |run|
    ensures forall i :: 0 <= i < Until(run, m) - 1 && run[i].ok ==> m in run[i].answered
    ensures Until(run, m) < |run| ==> Until(run, m) > 0 && var last := run[Until(run, m) - 1];
      last.ok && m !in last.answered
  {
    if run != [] {
      var front := run[..|run| - 1];
      assert forall i :: 0 <= i < |front| ==> front[i] == run[i];
      UntilIs(front, m);
      if Until(run, m) < |run| && Until(front, m) == |front| && |front| > 0 {
        var i :| 0 <= i < |front| && front[i].ok && m !in front[i].answered;
        assert i == |front| - 1;
      }
    }
  }

  /**
   A method a device never answers is asked for once, over any number of reads, exactly when the
   first read succeeds or is the only one: failed reads learn nothing and ask again.
   */
  lemma {:induction false} AskedOnceIffFirstReadSucceeds(run: seq<Pass>, m: Method)
    requires run != [] && forall i :: 0 <= i < |run| ==> m !in run[i].answered
    ensures Until(run, m) == 1 <==> run[0].ok || |run| == 1
  {
    UntilIs(run, m);
  }

  lemma PassMore(w: Wants, run: seq<Pass>, pass: Pass, m: Method)
    requires m != DeviceInfo
    ensures After(w, run + [pass]) == if pass.ok then Learned(After(w, run), pass.answered) else After(w, run)
    ensures (if w.Want(m) then Until(run + [pass], m) else 0)
         == (if w.Want(m) then Until(run, m) else 0) + if After(w, run).Want(m) then 1 else 0
  {
    assert (run + [pass])[..|run|] == run;
    AskedWhileAnswered(w, run, m);
  }

  /** How many of these requests are batches that ask for m. */
  function Naming(asked: seq<Request>, m: Method): nat {
    if asked == [] then 0
    else
      var last := asked[|asked| - 1];
      Naming(asked[..|asked| - 1], m) + if last.Batch? && m in last.methods then 1 else 0
  }

  lemma NamingMore(asked: seq<Request>, batch: seq<Method>, only: seq<Request>, m: Method)
    requires only == [] || (|only| == 1 && only[0].Single?)
    ensures Naming(asked + [Batch(batch)] + only, m) == Naming(asked, m) + if m in batch then 1 else 0
  {
    var more := asked + [Batch(batch)];
    assert more[..|asked|] == asked;
    if only == [] {
      assert more + only == more;
    } else {
      assert (more + only)[..|more|] == more;
    }
  }

  /** One empty batch answered by a lone get_device_info silences every optional method for good. */
  lemma {:induction false} EmptyBatchSilences(w: Wants, before: seq<Pass>, after: seq<Pass>)
    ensures After(w, before + [Pass(true, {})] + after) == Wants(false, false, false)
  {
    var run := before + [Pass(true, {})] + after;
    assert run[|before|] == Pass(true, {});
    AskedWhileAnswered(w, run, EnergyUsage);
    AskedWhileAnswered(w, run, CurrentPower);
    AskedWhileAnswered(w, run, ChildList);
  }

  // ---------------------------------------------------------------- the querier

  class SmartQuerier {
    const device: SmartDevice
    var wantsEnergy: bool
    var wantsPower: bool
    var wantsChildren: bool

    constructor (device: SmartDevice)
      ensures this.device == device && Asks() == Wants(true, true, true)
    {
      this.device := device;
      wantsEnergy, wantsPower, wantsChildren := true, true, true;
    }

    function Asks(): Wants
      reads this
    {
      Wants(wantsEnergy, wantsPower, wantsChildren)
    }

    method Query(request: Request) returns (r: Result<Reply, SmartError>)
      modifies device
      ensures device.asked == old(device.asked) + [request]
      ensures var reply := device.answer(|old(device.asked)|, request);
        r == if reply.Lost? then Err(QueryFailed)
             else if reply.errorCode != 0 then Err(ErrorCode(reply.errorCode))
             else Ok(reply)
    {
      var reply := device.Query(request);
      if reply.Lost? {
        return Err(QueryFailed);
      }
      if reply.errorCode != 0 {
        return Err(ErrorCode(reply.errorCode));
      }
      return Ok(reply);
    }

    /** `batch`. */
    method AskAll(methods: seq<Method>)
        returns (r: Result<map<Method, Payload>, SmartError>, ghost items: seq<BatchItem>)
      modifies device
      ensures device.asked == old(device.asked) + [Batch(methods)]
      ensures var reply := device.answer(|old(device.asked)|, Batch(methods));
        if reply.Lost? || reply.errorCode != 0 || reply.batch.None? then r.Err?
        else
          && r.Ok? && items == reply.batch.value && Tabulates(items, r.value)
          && forall m :: m in r.value <==> AnsweredIn(items, m)
    {
      items := [];
      var reply := Query(Batch(methods));
      if reply.Err? {
        return Err(reply.error), [];
      }
      if reply.value.batch.None? {
        return Err(BadBatch), [];
      }
      var out := Tabulate(reply.value.batch.value);
      return Ok(out), reply.value.batch.value;
    }

    /** `readEnergy`, which also learns which of its two methods the device answers. */
    method ReadEnergy(results: map<Method, Payload>) returns (energy: Option<EnergyValue>)
      modifies this`wantsEnergy, this`wantsPower
      ensures energy == EnergyOf(Entry(results, EnergyUsage), Entry(results, CurrentPower))
      ensures wantsEnergy == (old(wantsEnergy) && EnergyUsage in results)
      ensures wantsPower == (old(wantsPower) && CurrentPower in results)
    {
      var out := NOTHING;
      if EnergyUsage in results {
        var usage := results[EnergyUsage].usage;
        if usage.Some? {
          if usage.value.powerMW.Some? {
            out := out.(power := Some(usage.value.powerMW.value / 1000.0));
          }
          if usage.value.monthWH.Some? {
            out := out.(total := Some(usage.value.monthWH.value / 1000.0));
          }
        }
      } else if wantsEnergy {
        wantsEnergy := false;
      }
      if CurrentPower in results {
        var power := results[CurrentPower].power;
        if power.Some? && power.value.Some? {
          out := out.(power := power.value);
        }
      } else if wantsPower {
        wantsPower := false;
      }
      return if out.power.None? && out.total.None? then None else Some(out);
    }

    /**
     `Read`: one batch, and a second request only when the batch answered without device
     information. A failed read learns nothing; a successful one stops asking for every optional
     method that went unanswered, and asks for nothing it had given up on.
     */
    method Read() returns (r: Result<Reading, SmartError>, ghost results: map<Method, Payload>)
      modifies this, device
      ensures var first := device.answer(|old(device.asked)|, Batch(Asking(old(Asks()))));
        if first.Lost? || first.errorCode != 0 || first.batch.None? then
          r.Err? && device.asked == old(device.asked) + [Batch(Asking(old(Asks())))]
        else
          && Tabulates(first.batch.value, results)
          && device.asked == old(device.asked) + [Batch(Asking(old(Asks())))]
                             + (if DeviceInfo in results then [] else [Single(DeviceInfo)])
          && (r.Ok? <==> exists info :: Describes(info, results, old(|device.asked|)))
      ensures Asks() == if r.Ok? then Learned(old(Asks()), results.Keys) else old(Asks())
      ensures r.Ok? ==>
        exists info :: Describes(info, results, old(|device.asked|)) && Assembled(info, results, r.value)
    {
      var methods := [DeviceInfo];
      if wantsEnergy {
        methods := methods + [EnergyUsage];
      }
      if wantsPower {
        methods := methods + [CurrentPower];
      }
      if wantsChildren {
        methods := methods + [ChildList];
      }
      assert methods == Asking(Asks());
      var answers;
      ghost var items;
      answers, items := AskAll(methods);
      if answers.Err? {
        return Err(answers.error), map[];
      }
      results := answers.value;
      var raw: Payload;
      if DeviceInfo in answers.value {
        raw := answers.value[DeviceInfo];
      } else {
        var reply := Query(Single(DeviceInfo));
        if reply.Err? {
          return Err(reply.error), results;
        }
        raw := reply.value.payload;
      }
      if raw.info.None? {
        return Err(BadInfo), results;
      }
      assert Describes(raw.info.value, results, old(|device.asked|));
      var reading := Finish(raw.info.value, answers.value);
      return Ok(reading), results;
    }

    /** Where the device information came from: the batch, or else the request that followed it. */
    ghost predicate Describes(info: Info, results: map<Method, Payload>, before: nat) {
      if DeviceInfo in results then results[DeviceInfo].info == Some(info)
      else
        var reply := device.answer(before + 1, Single(DeviceInfo));
        reply.Reply? && reply.errorCode == 0 && reply.payload.info == Some(info)
    }

    method Finish(info: Info, results: map<Method, Payload>) returns (reading: Reading)
      modifies this
      ensures Assembled(info, results, reading) && Asks() == Learned(old(Asks()), results.Keys)
    {
      reading := ReadingOf(info);
      var energy := ReadEnergy(results);
      if energy.Some? {
        reading := reading.(energy := energy);
      }
      if ChildList in results {
        reading := ApplyChildren(reading, results[ChildList]);
      } else if wantsChildren {
        wantsChildren := false;
      }
    }

    /** A read whose batch was the n-th request: what it answered, if it answered at all. */
    ghost predicate Tells(n: nat, pass: Pass)
      reads device
    {
      && n < |device.asked| && device.asked[n].Batch?
      && var reply := device.answer(n, device.asked[n]);
         if reply.Lost? || reply.errorCode != 0 || reply.batch.None? then pass == Pass(false, {})
         else forall m :: m in pass.answered <==> AnsweredIn(reply.batch.value, m)
    }

    /** `Read`, told as one pass of a run. */
    method ReadPass() returns (r: Result<Reading, SmartError>, ghost pass: Pass)
      modifies this, device
      ensures old(device.asked) < device.asked && Tells(old(|device.asked|), pass) && (pass.ok <==> r.Ok?)
      ensures Asks() == if pass.ok then Learned(old(Asks()), pass.answered) else old(Asks())
      ensures forall m :: Naming(device.asked, m) == Naming(old(device.asked), m) + if old(Asks()).Want(m) then 1 else 0
    {
      ghost var asked, methods := device.asked, Asking(Asks());
      ghost var results;
      r, results := Read();
      hide Describes, Assembled, Asking;
      var first := device.answer(|asked|, Batch(methods));
      ghost var only := device.asked[|asked| + 1..];
      assert device.asked == asked + [Batch(methods)] + only;
      forall m ensures Naming(device.asked, m) == Naming(asked, m) + if m in methods then 1 else 0 {
        NamingMore(asked, methods, only, m);
      }
      pass := Pass(r.Ok?, if first.Lost? || first.errorCode != 0 || first.batch.None? then {} else results.Keys);
    }

    /**
     Reads one after another of any device. Over the whole run a method is asked for in every read
     up to and including the first successful one that left it unanswered, and in none after it.
     */
    method ReadTimes(count: nat)
        returns (replies: seq<Result<Reading, SmartError>>, ghost run: seq<Pass>, ghost at: seq<nat>)
      modifies this, device
      ensures |replies| == |run| == |at| == count && old(device.asked) <= device.asked
      ensures forall i :: 0 <= i < count ==> Tells(at[i], run[i]) && (run[i].ok <==> replies[i].Ok?)
      ensures forall i, j :: 0 <= i < j < count ==> old(|device.asked|) <= at[i] < at[j]
      ensures Asks() == After(old(Asks()), run)
      ensures forall m :: m != DeviceInfo ==>
        Naming(device.asked, m) == Naming(old(device.asked), m) + if old(Asks()).Want(m) then Until(run, m) else 0
    {
      replies, run, at := [], [], [];
      ghost var start, before := Asks(), device.asked;
      for n := 0 to count
        invariant |replies| == |run| == |at| == n && before <= device.asked
        invariant forall i :: 0 <= i < n ==> Tells(at[i], run[i]) && (run[i].ok <==> replies[i].Ok?)
        invariant forall i :: 0 <= i < n ==> |before| <= at[i] < |device.asked|
        invariant forall i, j :: 0 <= i < j < n ==> at[i] < at[j]
        invariant Asks() == After(start, run)
        invariant forall m :: m != DeviceInfo ==>
          Naming(device.asked, m) == Naming(before, m) + if start.Want(m) then Until(run, m) else 0
      {
        ghost var next := |device.asked|;
        var r; ghost var pass;
        r, pass := ReadPass();
        forall m | m != DeviceInfo
          ensures Naming(device.asked, m) == Naming(before, m) + if start.Want(m) then Until(run + [pass], m) else 0
        {
          PassMore(start, run, pass, m);
        }
        PassMore(start, run, pass, ChildList);
        replies, run, at := replies + [r], run + [pass], at + [next];
      }
    }

    /**
     An unsupported method can be asked for again: a device that answers the batch with nothing,
     and the lone request after it not at all, fails the read and teaches nothing.
     */
    method AskedTwice(m: Method, info: Info)
      requires m != DeviceInfo && Asks().Want(m)
      requires forall n :: n == |device.asked| || n == |device.asked| + 2 ==>
        var reply := device.answer(n, Batch(Asking(Asks())));
        reply.Reply? && reply.errorCode == 0 && reply.batch == Some([])
      requires device.answer(|device.asked| + 1, Single(DeviceInfo)).Lost?
      requires var reply := device.answer(|device.asked| + 3, Single(DeviceInfo));
        reply.Reply? && reply.errorCode == 0 && reply.payload.info == Some(info)
      modifies this, device
      ensures Naming(device.asked, m) == Naming(old(device.asked), m) + 2 && !Asks().Want(m)
    {
      hide Assembled, Asking;
      ghost var asked, methods, lone := device.asked, Asking(Asks()), [Single(DeviceInfo)];
      var r; ghost var results;
      r, results := Read();
      assert device.asked == asked + [Batch(methods)] + lone;
      NamingMore(asked, methods, lone, m);
      asked := device.asked;
      r, results := Read();
      assert Describes(info, results, |asked|);
      NamingMore(asked, methods, lone, m);
    }
  }

  /** The reading put together from device information and the optional answers. */
  ghost predicate Assembled(info: Info, results: map<Method, Payload>, reading: Reading) {
    var energy := EnergyOf(Entry(results, EnergyUsage), Entry(results, CurrentPower));
    var list := Entry(results, ChildList);
    WithChildren(ReadingOf(info).(energy := energy), if list.Some? then list.value.children else None, reading)
  }
}
