/**
 A managed device (kasa/device.go): one connection at most, negotiated on first use and dropped
 on failure, and the name and category it was last known by.
 */
module Devices {
  import opened Connect
  import opened Discovery
  import opened Readings
  import opened Wrappers

  datatype ReadError = NotReached(why: NegotiateError) | ReadFailed

  class Device {
    const host: string
    const named: string
    const discovered: Option<Found>
    const wire: Wire

    var querier: Querier?
    var alias: string
    var kind: Option<DeviceType>

    /** The name and category of every successful read, oldest first. */
    ghost var names: seq<string>
    ghost var kinds: seq<DeviceType>

    /** `Connect` and the devices `Discover` returns: no connection is made yet. */
    constructor (host: string, alias: string, discovered: Option<Found>, behave: Behaviour)
      ensures Valid() && fresh(wire) && this.host == host && this.discovered == discovered && wire.behave == behave
      ensures querier == null && named == alias && names == [] && kinds == [] && wire.built == 0
    {
      this.host, this.named, this.alias, this.discovered := host, alias, alias, discovered;
      wire := new Wire(behave);
      querier, kind, names, kinds := null, None, [], [];
    }

    /**
     Connections are conserved: those built and not yet closed are exactly the one the device
     holds, if it holds one. And nothing it was ever told about itself is lost.
     */
    ghost predicate Valid()
      reads this, wire
    {
      && wire.open == (if querier == null then {} else {querier})
      && wire.built == wire.closed + (if querier == null then 0 else 1)
      && (querier != null ==> querier.wire == wire)
      && alias == LastName(named, names)
      && kind == (if kinds == [] then None else Some(kinds[|kinds| - 1]))
    }

    /**
     `Alias`: over any run of reads and failures, the last name that was not blank; before there
     is one the name discovery gave, and the address when that was blank too.
     */
    function Alias(): (name: string)
      requires Valid()
      reads this, wire
      ensures forall i :: LastNamed(names, i) ==> name == names[i]
      ensures (forall i :: 0 <= i < |names| ==> names[i] == "") ==> name == if named != "" then named else host
    {
      LastNameIs(named, names);
      if alias != "" then alias else host
    }

    /** `Type`: the category of the last successful read, whatever failed since. */
    function Type(): (kind: DeviceType)
      requires Valid()
      reads this, wire
      ensures kind == if kinds == [] then UnknownType else kinds[|kinds| - 1]
    {
      this.kind.GetOr(UnknownType)
    }

    /** What a read over a connection to plan `plan` comes to, the host having been asked `log`. */
    ghost predicate ReadsThrough(plan: Plan, log: seq<Plan>, r: Result<Reading, ReadError>) {
      match wire.behave(log, plan)
      case Answered(reading) => r == Ok(reading.(host := host))
      case _ => r == Err(ReadFailed)
    }

    /**
     What a read comes to, given the connection held and what the host had been asked: what is read
     over that connection, or else over the one negotiated, if one can be.
     */
    ghost predicate ReadIs(held: Option<Plan>, log: seq<Plan>, asked: Option<Found>, tried: seq<Attempt>,
        contacts: seq<Plan>, r: Result<Reading, ReadError>)
    {
      match held
      case Some(plan) => ReadsThrough(plan, log, r)
      case None =>
        exists result :: Negotiated(wire.behave, log, discovered, asked, tried, contacts, result)
          && (result.Err? ==> r == Err(NotReached(result.error)))
          && (result.Ok? ==> ReadsThrough(result.value, log + contacts, r))
    }

    ghost function Held(): Option<Plan>
      reads this
    {
      if querier == null then None else Some(querier.plan)
    }

    /** The first half of `Read`: a connection is negotiated when there is none. */
    method Reach(asked: Option<Found>)
        returns (plan: Result<Plan, NegotiateError>, ghost tried: seq<Attempt>, ghost contacts: seq<Plan>)
      requires Valid() && querier == null
      modifies this`querier, wire
      ensures Valid() && wire.log == old(wire.log) + contacts
      ensures Negotiated(wire.behave, old(wire.log), discovered, asked, tried, contacts, plan)
      ensures if plan.Ok? then querier != null && querier.plan == plan.value else querier == null
    {
      hide Negotiated, LastName;
      var q;
      q, tried, contacts := Negotiate(wire, discovered, asked);
      if q.Err? {
        return Err(q.error), tried, contacts;
      }
      querier := q.value;
      return Ok(querier.plan), tried, contacts;
    }

    /** The second half of `Read`: a failure over the connection drops it, a success is remembered. */
    method ReadOver() returns (r: Result<Reading, ReadError>)
      requires Valid() && querier != null
      modifies this, wire
      ensures Valid() && (r.Err? <==> querier == null) && (r.Ok? ==> querier == old(querier))
      ensures ReadsThrough(old(querier).plan, old(wire.log), r) && wire.log == old(wire.log) + [old(querier).plan]
      ensures r.Err? ==> names == old(names) && kinds == old(kinds)
      ensures r.Ok? ==>
        r.value.host == host && names == old(names) + [r.value.alias] && kinds == old(kinds) + [r.value.kind]
    {
      hide LastName;
      var answer := querier.Read();
      if !answer.Answered? {
        querier.Close();
        querier := null;
        assert wire.open == {};
        return Err(ReadFailed);
      }
      var reading := answer.reading;
      if reading.alias != "" {
        alias := reading.alias;
      }
      kind := Some(reading.kind);
      NameMore(named, names, reading.alias);
      names, kinds := names + [reading.alias], kinds + [reading.kind];
      return Ok(reading.(host := host));
    }

    /**
     `Read`, where `asked` is what the host would answer to a direct question. A failure leaves
     no connection behind and forgets nothing.
     */
    method Read(asked: Option<Found>)
        returns (r: Result<Reading, ReadError>, ghost tried: seq<Attempt>, ghost contacts: seq<Plan>)
      requires Valid()
      modifies this, wire
      ensures Valid()
      ensures r.Err? <==> querier == null
      ensures r.Err? ==> names == old(names) && kinds == old(kinds)
      ensures r.Ok? ==> r.value.host == host
      ensures r.Ok? ==> names == old(names) + [r.value.alias] && kinds == old(kinds) + [r.value.kind]
      ensures ReadIs(old(Held()), old(wire.log), asked, tried, contacts, r)
      ensures old(querier) != null ==>
        ReadsThrough(old(querier).plan, old(wire.log), r) && wire.log == old(wire.log) + [old(querier).plan]
            && (r.Ok? ==> querier == old(querier))
      ensures old(querier) == null ==>
        exists result :: Negotiated(wire.behave, old(wire.log), discovered, asked, tried, contacts, result)
          && (result.Err? ==> r == Err(NotReached(result.error)) && wire.log == old(wire.log) + contacts)
          && (result.Ok? ==>
                && wire.log == old(wire.log) + contacts + [result.value]
                && (r.Ok? ==> querier.plan == result.value)
                && ReadsThrough(result.value, old(wire.log) + contacts, r))
    {
      hide Negotiated, ReadsThrough, LastName, Valid;
      tried, contacts := [], [];
      if querier == null {
        var q;
        q, tried, contacts := Reach(asked);
        assert Negotiated(wire.behave, old(wire.log), discovered, asked, tried, contacts, q);
        if q.Err? {
          return Err(NotReached(q.error)), tried, contacts;
        }
      }
      r := ReadOver();
    }

    /** `Close`: the connection, if any, is closed exactly once. */
    method Close()
      requires Valid()
      modifies this`querier, wire`open, wire`closed
      ensures Valid() && querier == null
      ensures wire.closed == old(wire.closed) + if old(querier) == null then 0 else 1
    {
      if querier != null {
        querier.Close();
        querier := null;
        assert wire.open == {};
      }
    }
  }

  /** The last of these names that is not blank, or else the first one known. */
  function LastName(named: string, names: seq<string>): string {
    if names == [] then named
    else if names[|names| - 1] != "" then names[|names| - 1]
    else LastName(named, names[..|names| - 1])
  }

  predicate LastNamed(names: seq<string>, i: int) {
    0 <= i < |names| && names[i] != "" && forall j :: i < j < |names| ==> names[j] == ""
  }

  lemma {:induction false} LastNameIs(named: string, names: seq<string>)
    ensures forall i :: LastNamed(names, i) ==> LastName(named, names) == names[i]
    ensures (forall i :: 0 <= i < |names| ==> names[i] == "") ==> LastName(named, names) == named
  {
    if names != [] && names[|names| - 1] == "" {
      var front := names[..|names| - 1];
      LastNameIs(named, front);
      forall i | LastNamed(names, i) ensures LastName(named, names) == names[i] {
        assert LastNamed(front, i);
      }
      assert forall i :: 0 <= i < |front| ==> front[i] == names[i];
    }
  }

  lemma {:induction false} NameMore(named: string, names: seq<string>, name: string)
    ensures LastName(named, names + [name]) == if name != "" then name else LastName(named, names)
  {
    assert (names + [name])[..|names|] == names;
  }
}
