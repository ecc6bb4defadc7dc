/** Why the outlets of a strip keep their series apart, whichever dialect reported them. */
module Outlets {
  import opened Iot
  import opened Readings
  import opened Series
  import Smart
  import opened Wrappers

  /** The reading lists these outlets, energy apart. */
  ghost predicate Shows(sockets: seq<Socket>, outlets: seq<Outlet>) {
    && |sockets| == |outlets|
    && forall i :: 0 <= i < |sockets| ==>
        sockets[i].id == outlets[i].id && sockets[i].alias == outlets[i].alias
        && sockets[i].on == outlets[i].on && sockets[i].uptime == outlets[i].uptime
  }

  /** Every IOT strip does, since readSockets counts its outlets itself, however many are called "Empty". */
  lemma IotStripsTellOutletsApart(r: Reading, outlets: seq<Outlet>, children: seq<OutletInfo>)
    requires r.kind == Strip && Shows(r.sockets, outlets) && AllLabelled(outlets, children)
    ensures PartsTold(r)
  {
    forall i, j | 0 <= i < j < |r.sockets| ensures r.sockets[i].id != r.sockets[j].id {
      assert Labelled(outlets[i], i, children[i]) && Labelled(outlets[j], j, children[j]);
      OutletIdsDistinct(i, j);
    }
    DistinctIdsTell(r);
  }

  /** A SMART strip does whenever its firmware gives no number twice. */
  lemma SmartStripsTellOutletsApart(before: Reading, children: seq<Smart.Info>, r: Reading)
    requires before.kind != Hub && children != [] && Smart.WithChildren(before, Some(children), r)
    requires Smart.DistinctNumbers(children)
    ensures PartsTold(r)
  {
    Smart.SocketIdsDistinctIff(children, r.sockets);
    DistinctIdsTell(r);
  }
}
