/** Discovery replies (kasa/discover.go) after decoding, and how they merge into one entry per host. */
module Discovery {
  import opened Klap
  import opened Wrappers

  const ENCRYPT_XOR: string := "XOR"
  const ENCRYPT_KLAP: string := "KLAP"
  const ENCRYPT_AES: string := "AES"
  const PORT_IOT: int := 9999
  const PORT_SMART: int := 20002

  /** `discoveryResult`. */
  datatype Found = Found(
    host: string, alias: string, model: string, deviceID: string, mac: string, family: string,
    encryptType: string, httpPort: int, loginVersion: int, https: bool)

  datatype Dialect = Iot | Smart

  function UpperChar(c: char): char {
    if 'a' <= c <= 'z' then (c as int - 'a' as int + 'A' as int) as char else c
  }

  /** `strings.ToUpper` on ASCII text. */
  function Upper(s: string): (u: string)
    ensures |u| == |s| && forall i :: 0 <= i < |u| ==> !('a' <= u[i] <= 'z')
    ensures forall i :: 0 <= i < |u| ==> u[i] == s[i] || ('a' <= s[i] <= 'z' && u[i] as int + 32 == s[i] as int)
  {
    seq(|s|, i requires 0 <= i < |s| => UpperChar(s[i]))
  }

  function DialectOf(f: Found): Dialect {
    if "SMART" <= Upper(f.family) then Smart else Iot
  }

  /** `loginVersion`: the device's word, and without one its family's. */
  function LoginVersion(f: Found): int {
    if f.loginVersion != 0 then f.loginVersion else if DialectOf(f) == Smart then LOGIN_V2 else LOGIN_V1
  }

  function Port(f: Found): int {
    if f.httpPort != 0 then f.httpPort else 80
  }

  // ---------------------------------------------------------------- replies

  datatype IotInfo = IotInfo(alias: string, model: string, deviceID: string, mac: string, family: string)

  datatype Scheme = Scheme(https: bool, encryptType: string, httpPort: int, loginVersion: int)

  datatype SmartInfo = SmartInfo(
    errorCode: int, deviceID: string, deviceType: string, deviceModel: string, alias: string, mac: string,
        scheme: Option<Scheme>)

  /** One datagram: what its bytes decode to under each of the two formats, if they do. */
  datatype Packet = Packet(host: string, port: int, iot: Option<IotInfo>, smart: Option<SmartInfo>)

  /** A reply on port 9999 implies the legacy transport. */
  function ParseIot(host: string, info: Option<IotInfo>): (f: Option<Found>)
    ensures f.Some? <==> info.Some?
    ensures f.Some? ==> var i, got := info.value, f.value;
      && got.host == host && got.encryptType == "XOR" && got.httpPort == got.loginVersion == 0 && !got.https
      && got.alias == i.alias && got.model == i.model && got.deviceID == i.deviceID && got.mac == i.mac
      && got.family == i.family
  {
    match info
    case None => None
    case Some(i) => Some(Found(host, i.alias, i.model, i.deviceID, i.mac, i.family, ENCRYPT_XOR, 0, 0, false))
  }

  /** KLAP is meant: by name in any case, by a blank name, or by no scheme at all. */
  predicate NamesKlap(scheme: Option<Scheme>) {
    scheme.None? || scheme.value.encryptType == "" || Upper(scheme.value.encryptType) == ENCRYPT_KLAP
  }

  /** A reply on port 20002 names its transport, and is taken as KLAP when it does not. */
  function ParseSmart(host: string, info: Option<SmartInfo>): (f: Option<Found>)
    ensures f.Some? <==> info.Some? && info.value.errorCode == 0 && info.value.deviceModel != ""
    ensures f.Some? ==> f.value.host == host && (f.value.encryptType == ENCRYPT_KLAP <==> NamesKlap(info.value.scheme))
    ensures f.Some? ==> f.value.encryptType != ""
    ensures f.Some? ==> var i, got := info.value, f.value;
      && got.alias == i.alias && got.model == i.deviceModel && got.deviceID == i.deviceID
      && got.mac == i.mac && got.family == i.deviceType
      && (i.scheme.None? ==> got.httpPort == got.loginVersion == 0 && !got.https)
      && (i.scheme.Some? ==>
            && got.httpPort == i.scheme.value.httpPort && got.loginVersion == i.scheme.value.loginVersion
            && got.https == i.scheme.value.https
            && (!NamesKlap(i.scheme) ==> got.encryptType == Upper(i.scheme.value.encryptType)))
  {
    match info
    case None => None
    case Some(i) =>
      if i.errorCode != 0 || i.deviceModel == "" then None
      else
        var scheme := i.scheme.GetOr(Scheme(false, "", 0, 0));
        var encryptType := Upper(scheme.encryptType);
        Some(Found(host, i.alias, i.deviceModel, i.deviceID, i.mac, i.deviceType,
                   if encryptType == "" then ENCRYPT_KLAP else encryptType,
                   scheme.httpPort, scheme.loginVersion, scheme.https))
  }

  function Parse(p: Packet): (f: Option<Found>)
    ensures f.Some? ==> f.value.host == p.host
    ensures f.Some? <==>
      || (p.port == 9999 && p.iot.Some?)
      || (p.port == 20002 && p.smart.Some? && p.smart.value.errorCode == 0 && p.smart.value.deviceModel != "")
  {
    if p.port == PORT_IOT then ParseIot(p.host, p.iot)
    else if p.port == PORT_SMART then ParseSmart(p.host, p.smart)
    else None
  }

  // ---------------------------------------------------------------- merging

  /** The recognisable replies, in arrival order. */
  function Replies(packets: seq<Packet>): seq<Found> {
    if packets == [] then []
    else
      var last := Parse(packets[|packets| - 1]);
      Replies(packets[..|packets| - 1]) + if last.Some? then [last.value] else []
  }

  predicate Legacy(f: Found) {
    f.encryptType == ENCRYPT_XOR
  }

  predicate NamesTransport(replies: seq<Found>, host: string) {
    exists i :: 0 <= i < |replies| && replies[i].host == host && !Legacy(replies[i])
  }

  /** Reply i decides its host's entry: it names a transport, or no reply from the host does. */
  predicate Decisive(replies: seq<Found>, i: nat)
    requires i < |replies|
  {
    !Legacy(replies[i]) || !NamesTransport(replies, replies[i].host)
  }

  /** Reply i is the last decisive one of its host. */
  ghost predicate Rules(replies: seq<Found>, i: nat) {
    i < |replies| && Decisive(replies, i) && forall j :: i < j < |replies| && replies[j].host == replies[i].host ==>
        !Decisive(replies, j)
  }

  /** Entry f is the last of its host's decisive replies. */
  ghost predicate LastDecisive(replies: seq<Found>, host: string, f: Found) {
    exists i: nat :: Rules(replies, i) && replies[i] == f && f.host == host
  }

  /** The table a discovery pass builds from its replies. */
  ghost predicate Merged(replies: seq<Found>, found: map<string, Found>) {
    && (forall i :: 0 <= i < |replies| ==> replies[i].host in found)
    && (forall h :: h in found ==> LastDecisive(replies, h, found[h]))
  }

  lemma NamesMore(replies: seq<Found>, f: Found, host: string)
    ensures NamesTransport(replies + [f], host) <==> NamesTransport(replies, host) || (f.host == host && !Legacy(f))
  {
    var more := replies + [f];
    assert more[|replies|] == f;
    if NamesTransport(replies, host) {
      var i :| 0 <= i < |replies| && replies[i].host == host && !Legacy(replies[i]);
      assert more[i] == replies[i];
    }
  }

  /** What one more reply does to a merged table. */
  lemma MergeOne(replies: seq<Found>, found: map<string, Found>, f: Found)
    requires Merged(replies, found)
    ensures var keep := f.host in found && !Legacy(found[f.host]) && Legacy(f);
            Merged(replies + [f], if keep then found else found[f.host := f])
  {
    var more := replies + [f];
    var keep := f.host in found && !Legacy(found[f.host]) && Legacy(f);
    var after := if keep then found else found[f.host := f];
    assert more[|replies|] == f;
    NamesMore(replies, f, f.host);
    forall h | h in after ensures LastDecisive(more, h, after[h]) {
      NamesMore(replies, f, h);
      if h == f.host && !keep {
        assert Rules(more, |replies|);
      } else {
        var i: nat :| Rules(replies, i) && replies[i] == found[h];
        assert more[i] == replies[i] && Decisive(more, i);
        forall j | i < j < |more| && more[j].host == h ensures !Decisive(more, j) {
          if j < |replies| {
            assert !Decisive(replies, j);
            assert more[j] == replies[j];
          } else {
            assert NamesTransport(more, h);
          }
        }
        assert Rules(more, i);
      }
    }
    forall i | 0 <= i < |more| ensures more[i].host in after {
      assert i < |replies| ==> more[i] == replies[i];
    }
  }

  /**
   `collect`: each host that sent a recognisable reply has one entry, its last reply naming a
   transport if it sent one, and otherwise its last reply.
   */
  method Collect(packets: seq<Packet>) returns (found: map<string, Found>)
    ensures Merged(Replies(packets), found)
  {
    found := map[];
    for n := 0 to |packets|
      invariant Merged(Replies(packets[..n]), found)
    {
      var host := packets[n].host;
      var result := Parse(packets[n]);
      assert packets[..n + 1][..n] == packets[..n];
      assert result.None? ==> Replies(packets[..n + 1]) == Replies(packets[..n]);
      assert result.Some? ==> Replies(packets[..n + 1]) == Replies(packets[..n]) + [result.value];
      if result.Some? {
        MergeOne(Replies(packets[..n]), found, result.value);
        if host in found && found[host].encryptType != ENCRYPT_XOR && result.value.encryptType == ENCRYPT_XOR {
          continue;
        }
        found := found[host := result.value];
      }
    }
    assert packets[..|packets|] == packets;
  }

  /** There is one such table. */
  lemma MergedUnique(replies: seq<Found>, a: map<string, Found>, b: map<string, Found>)
    requires Merged(replies, a) && Merged(replies, b)
    ensures a == b
  {
    assert a.Keys == b.Keys by {
      forall h ensures h in a <==> h in b {
        assert h in a ==> LastDecisive(replies, h, a[h]);
        assert h in b ==> LastDecisive(replies, h, b[h]);
      }
    }
    forall h | h in a ensures a[h] == b[h] {
      var i: nat :| Rules(replies, i) && replies[i] == a[h] && a[h].host == h;
      var k: nat :| Rules(replies, k) && replies[k] == b[h] && b[h].host == h;
      assert i == k;
    }
  }

  /** No host has two different decisive replies. */
  ghost predicate Consistent(replies: seq<Found>) {
    forall i, j | 0 <= i < |replies| && 0 <= j < |replies| && Decisive(replies, i) && Decisive(replies, j) ::
      replies[i].host == replies[j].host ==> replies[i] == replies[j]
  }

  lemma SameNames(a: seq<Found>, b: seq<Found>, host: string)
    requires multiset(a) == multiset(b) && NamesTransport(a, host)
    ensures NamesTransport(b, host)
  {
    var i :| 0 <= i < |a| && a[i].host == host && !Legacy(a[i]);
    assert a[i] in multiset(b);
    var j :| 0 <= j < |b| && b[j] == a[i];
  }

  /** A decisive reply of one arrival order is decisive in every other. */
  lemma StillDecisive(a: seq<Found>, b: seq<Found>, i: nat) returns (j: nat)
    requires multiset(a) == multiset(b) && i < |a| && Decisive(a, i)
    ensures j < |b| && b[j] == a[i] && Decisive(b, j)
  {
    assert a[i] in multiset(b);
    j :| 0 <= j < |b| && b[j] == a[i];
    if NamesTransport(b, a[i].host) {
      SameNames(b, a, a[i].host);
    }
  }

  lemma ConsistentForgetsOrder(a: seq<Found>, b: seq<Found>, foundA: map<string, Found>, foundB: map<string, Found>)
    requires multiset(a) == multiset(b) && Merged(a, foundA) && Merged(b, foundB) && Consistent(a)
    ensures foundA == foundB
  {
    forall h | h in foundA ensures h in foundB && foundA[h] == foundB[h] {
      var i: nat :| Rules(a, i) && a[i] == foundA[h] && a[i].host == h;
      var k := StillDecisive(a, b, i);
      assert LastDecisive(b, h, foundB[h]);
      var j: nat :| Rules(b, j) && b[j] == foundB[h] && b[j].host == h;
      var l := StillDecisive(b, a, j);
    }
    forall h | h in foundB ensures h in foundA {
      var j: nat :| Rules(b, j) && b[j] == foundB[h] && b[j].host == h;
      var l := StillDecisive(b, a, j);
    }
  }

  /** Reply i moved to the end. */
  function Delayed(replies: seq<Found>, i: nat): (later: seq<Found>)
    requires i < |replies|
    ensures multiset(later) == multiset(replies)
  {
    assert replies == replies[..i] + [replies[i]] + replies[i + 1..];
    replies[..i] + replies[i + 1..] + [replies[i]]
  }

  lemma DelayedWins(replies: seq<Found>, i: nat, found: map<string, Found>)
    requires i < |replies| && Decisive(replies, i) && Merged(Delayed(replies, i), found)
    ensures replies[i].host in found && found[replies[i].host] == replies[i]
  {
    var later, h := Delayed(replies, i), replies[i].host;
    var last := |later| - 1;
    assert later[last] == replies[i];
    if NamesTransport(later, h) {
      SameNames(later, replies, h);
    }
    assert Rules(later, last);
    assert LastDecisive(later, h, found[h]);
  }

  /**
   The outcome is independent of arrival order exactly when no host's decisive replies differ:
   identical replies naming a transport, or, from a host that only answers on the legacy port,
   identical legacy ones.
   */
  lemma OrderIrrelevantIffConsistent(replies: seq<Found>)
    ensures Consistent(replies) <==>
              forall other, a, b :: multiset(other) == multiset(replies) && Merged(replies, a) && Merged(other, b) ==>
                  a == b
  {
    if Consistent(replies) {
      forall other, a, b | multiset(other) == multiset(replies) && Merged(replies, a) && Merged(other, b)
        ensures a == b
      {
        ConsistentForgetsOrder(replies, other, a, b);
      }
    } else {
      var i, j :| 0 <= i < |replies| && 0 <= j < |replies| && replies[i].host == replies[j].host
        && Decisive(replies, i) && Decisive(replies, j) && replies[i] != replies[j];
      var now := TableExists(replies);
      var left := TableExists(Delayed(replies, i));
      var right := TableExists(Delayed(replies, j));
      DelayedWins(replies, i, left);
      DelayedWins(replies, j, right);
      assert left != right;
      assert Merged(replies, now) && (now != left || now != right);
    }
  }

  lemma {:induction false} TableExists(replies: seq<Found>) returns (found: map<string, Found>)
    ensures Merged(replies, found)
  {
    if replies == [] {
      found := map[];
    } else {
      var front, f := replies[..|replies| - 1], replies[|replies| - 1];
      var before := TableExists(front);
      MergeOne(front, before, f);
      assert replies == front + [f];
      found := if f.host in before && !Legacy(before[f.host]) && Legacy(f) then before else before[f.host := f];
    }
  }

  // ---------------------------------------------------------------- which port decides

  /** A recognisable reply on port 20002 that names another transport than the legacy one. */
  predicate NamesAnother(p: Packet) {
    p.port == 20002 && Parse(p).Some? && !Legacy(Parse(p).value)
  }

  lemma {:induction false} ReplyFrom(packets: seq<Packet>, i: nat) returns (n: nat)
    requires i < |Replies(packets)|
    ensures n < |packets| && Parse(packets[n]) == Some(Replies(packets)[i])
  {
    var front := packets[..|packets| - 1];
    if i < |Replies(front)| {
      n := ReplyFrom(front, i);
    } else {
      n := |packets| - 1;
    }
  }

  lemma {:induction false} ReplyOf(packets: seq<Packet>, n: nat) returns (i: nat)
    requires n < |packets| && Parse(packets[n]).Some?
    ensures i < |Replies(packets)| && Replies(packets)[i] == Parse(packets[n]).value
  {
    var front := packets[..|packets| - 1];
    if n < |front| {
      i := ReplyOf(front, n);
    } else {
      i := |Replies(front)|;
    }
  }

  lemma {:induction false} AnotherNamed(packets: seq<Packet>, n: nat)
    requires n < |packets|
    ensures NamesAnother(packets[n]) ==> NamesTransport(Replies(packets), packets[n].host)
  {
    if NamesAnother(packets[n]) {
      var i := ReplyOf(packets, n);
    }
  }

  /**
   A host that answered is recorded under the legacy transport exactly when nothing it sent on
   port 20002 named another, whatever it sent on port 9999 and in whatever order it all arrived.
   */
  lemma {:induction false} LegacyUnlessAnotherNamed(packets: seq<Packet>, found: map<string, Found>, host: string)
    requires Merged(Replies(packets), found) && host in found
    ensures Legacy(found[host]) <==> forall n :: 0 <= n < |packets| && packets[n].host == host ==>
        !NamesAnother(packets[n])
  {
    var replies := Replies(packets);
    assert LastDecisive(replies, host, found[host]);
    var i: nat :| Rules(replies, i) && replies[i] == found[host] && found[host].host == host;
    if !Legacy(found[host]) {
      var n := ReplyFrom(packets, i);
      assert NamesAnother(packets[n]);
    } else {
      forall n | 0 <= n < |packets| && packets[n].host == host ensures !NamesAnother(packets[n]) {
        AnotherNamed(packets, n);
      }
    }
  }
}
