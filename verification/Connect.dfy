/** Negotiating a connection (kasa/connect.go), with every querier it builds accounted for. */
module Connect {
  import opened Crypto
  import opened Bytes
  import opened Discovery
  import opened Klap
  import opened Readings
  import opened Wrappers

  datatype Transport = XorTransport | KlapTransport(loginVersion: int) | AesTransport

  /** What connectAs settles: the transport, where it listens, and the dialect that rides on it. */
  datatype Plan = Plan(transport: Transport, dialect: Dialect, https: bool, port: int)

  datatype NegotiateError = Unsupported(encryptType: string) | Unreachable(attempts: seq<Attempt>)

  /** A read's outcome, with the two "login rejected" errors told apart from every other failure. */
  datatype Answer = Answered(reading: Reading) | Rejected | Failed

  datatype Attempt = NotBuilt(encryptType: string) | Tried(plan: Plan, answer: Answer)

  /** `deviceURL`'s port. */
  function UrlPort(f: Found): int {
    if f.https && f.httpPort == 0 then 443 else Port(f)
  }

  function ConnectAs(f: Found): Result<Plan, string> {
    if f.encryptType == ENCRYPT_XOR || f.encryptType == "" then Ok(Plan(XorTransport, Iot, false, PORT_IOT))
    else if f.encryptType == ENCRYPT_KLAP then
      Ok(Plan(KlapTransport(LoginVersion(f)), DialectOf(f), f.https, UrlPort(f)))
    else if f.encryptType == ENCRYPT_AES then Ok(Plan(AesTransport, Smart, f.https, UrlPort(f)))
    else Err(f.encryptType)
  }

  function Candidate(encryptType: string, family: string, loginVersion: int): Found {
    Found("", "", "", "", "", family, encryptType, 0, loginVersion, false)
  }

  function ProbeOrder(): seq<Found> {
    [ Candidate(ENCRYPT_KLAP, "SMART", LOGIN_V2),
      Candidate(ENCRYPT_KLAP, "IOT", LOGIN_V2),
      Candidate(ENCRYPT_KLAP, "IOT", LOGIN_V1),
      Candidate(ENCRYPT_AES, "SMART", 0),
      Candidate(ENCRYPT_XOR, "IOT", 0) ]
  }

  // ---------------------------------------------------------------- the discovery budget

  const MILLISECOND: int := 1_000_000

  /** Go's integer division, which truncates toward zero. */
  function Quotient(a: int, b: int): int
    requires b > 0
  {
    if a >= 0 then a / b else -(-a / b)
  }

  function UnicastDiscoveryBudget(timeout: int): int {
    var share := Quotient(timeout, 4);
    var raised := if share < 500 * MILLISECOND then 500 * MILLISECOND else share;
    if raised > timeout then timeout else raised
  }

  /**
   The question leaves time for the connection that follows exactly when the timeout exceeds
   500 ms; then it takes at least 500 ms and, from two seconds up, exactly a quarter.
   */
  lemma BudgetLeavesTimeIffLong(timeout: int)
    ensures UnicastDiscoveryBudget(timeout) < timeout <==> timeout > 500 * MILLISECOND
    ensures UnicastDiscoveryBudget(timeout) <= timeout
    ensures timeout > 500 * MILLISECOND ==> UnicastDiscoveryBudget(timeout) >= 500 * MILLISECOND
    ensures timeout >= 2000 * MILLISECOND ==>
        4 * UnicastDiscoveryBudget(timeout) <= timeout < 4 * UnicastDiscoveryBudget(timeout) + 4
  {
  }

  // ---------------------------------------------------------------- the network

  /** How a host answers a read, given what was asked of it before: any host at all. */
  type Behaviour = (seq<Plan>, Plan) -> Answer

  /** The way to one host: what was asked over it, and the queriers not yet closed. */
  class Wire {
    const behave: Behaviour
    var log: seq<Plan>
    ghost var open: set<Querier>
    ghost var built: nat
    ghost var closed: nat

    constructor (behave: Behaviour)
      ensures this.behave == behave && log == [] && open == {} && built == 0 && closed == 0
    {
      this.behave := behave;
      log, open, built, closed := [], {}, 0, 0;
    }
  }

  class Querier {
    const wire: Wire
    const plan: Plan

    constructor (wire: Wire, plan: Plan)
      modifies wire`open, wire`built
      ensures this.wire == wire && this.plan == plan
      ensures wire.open == old(wire.open) + {this} && wire.built == old(wire.built) + 1
    {
      this.wire, this.plan := wire, plan;
      new;
      wire.open, wire.built := wire.open + {this}, wire.built + 1;
    }

    method Read() returns (answer: Answer)
      requires this in wire.open
      modifies wire`log
      ensures answer == wire.behave(old(wire.log), plan) && wire.log == old(wire.log) + [plan]
    {
      answer := wire.behave(wire.log, plan);
      wire.log := wire.log + [plan];
    }

    /** A querier is closed at most once. */
    method Close()
      requires this in wire.open
      modifies wire`open, wire`closed
      ensures wire.open == old(wire.open) - {this} && wire.closed == old(wire.closed) + 1
    {
      wire.open, wire.closed := wire.open - {this}, wire.closed + 1;
    }
  }

  // ---------------------------------------------------------------- probing

  /** Whether the probe loop ends here. */
  predicate Stops(a: Attempt) {
    a.Tried? && !a.answer.Failed?
  }

  predicate Succeeds(a: Attempt) {
    a.Tried? && a.answer.Answered?
  }

  /** The plans the host was contacted with. */
  function Contacts(tried: seq<Attempt>): seq<Plan> {
    if tried == [] then []
    else
      var last := tried[|tried| - 1];
      Contacts(tried[..|tried| - 1]) + if last.Tried? then [last.plan] else []
  }

  predicate TriesCandidate(a: Attempt, f: Found) {
    match ConnectAs(f)
    case Err(e) => a == NotBuilt(e)
    case Ok(plan) => a.Tried? && a.plan == plan
  }

  /** Each attempt is made with the candidate in its place, and is answered as the host would answer it then. */
  ghost predicate FollowsOrder(behave: Behaviour, log: seq<Plan>, tried: seq<Attempt>, order: seq<Found>) {
    && |tried| <= |order|
    && (forall i :: 0 <= i < |tried| ==> TriesCandidate(tried[i], order[i]))
    && (forall i :: 0 <= i < |tried| && tried[i].Tried? ==>
        tried[i].answer == behave(log + Contacts(tried[..i]), tried[i].plan))
  }

  /**
   The candidates tried are exactly a prefix of the order, ending at the first success, at the
   first rejected login, or when the order is exhausted.
   */
  ghost predicate ProbeRun(behave: Behaviour, log: seq<Plan>, tried: seq<Attempt>, order: seq<Found>) {
    && FollowsOrder(behave, log, tried, order)
    && (forall i :: 0 <= i < |tried| - 1 ==> !Stops(tried[i]))
    && (|tried| < |order| ==> tried != [] && Stops(tried[|tried| - 1]))
  }

  /** What a probe run leaves the caller with. */
  predicate Concludes(tried: seq<Attempt>, result: Result<Plan, NegotiateError>) {
    if tried != [] && Succeeds(tried[|tried| - 1]) then result == Ok(tried[|tried| - 1].plan)
    else result == Err(Unreachable(tried))
  }

  /** Asking the device itself first: one attempt, if it answered and its answer can be built. */
  function Ask(behave: Behaviour, log: seq<Plan>, asked: Option<Found>): seq<Attempt> {
    if asked.Some? && ConnectAs(asked.value).Ok? then
      var plan := ConnectAs(asked.value).value;
      [Tried(plan, behave(log, plan))]
    else []
  }

  /**
   `negotiate`, seen from outside: the attempts of its probe loop, everything the host was
   contacted with, and the result.
   */
  ghost predicate Negotiated(
    behave: Behaviour, log: seq<Plan>, known: Option<Found>, asked: Option<Found>,
    tried: seq<Attempt>, contacts: seq<Plan>, result: Result<Plan, NegotiateError>)
  {
    if known.Some? then
      && contacts == []
      && (match ConnectAs(known.value)
          case Ok(plan) => result == Ok(plan)
          case Err(e) => result == Err(Unsupported(e)))
    else
      var first := Ask(behave, log, asked);
      if first != [] && Succeeds(first[0]) then contacts == [first[0].plan] && result == Ok(first[0].plan)
      else
        && ProbeRun(behave, log + Contacts(first), tried, ProbeOrder())
        && contacts == Contacts(first) + Contacts(tried) && Concludes(tried, result)
  }

  lemma {:induction false} ContactsMore(tried: seq<Attempt>, a: Attempt)
    ensures Contacts(tried + [a]) == Contacts(tried) + if a.Tried? then [a.plan] else []
  {
    assert (tried + [a])[..|tried|] == tried;
  }

  lemma {:induction false} FollowsMore(behave: Behaviour, log: seq<Plan>, tried: seq<Attempt>, order: seq<Found>,
      a: Attempt)
    requires FollowsOrder(behave, log, tried, order) && |tried| < |order| && TriesCandidate(a, order[|tried|])
    requires a.Tried? ==> a.answer == behave(log + Contacts(tried), a.plan)
    ensures FollowsOrder(behave, log, tried + [a], order)
  {
    hide Contacts, TriesCandidate;
    forall i | 0 <= i <= |tried| ensures (tried + [a])[..i] == tried[..i] {
    }
    assert tried[..|tried|] == tried;
  }

  function PlanOf(r: Result<Querier, NegotiateError>): Result<Plan, NegotiateError> {
    match r case Ok(q) => Ok(q.plan) case Err(e) => Err(e)
  }

  /** Builds one querier and reads through it once, keeping it only if the device answered. */
  method TryPlan(wire: Wire, plan: Plan) returns (q: Querier, answer: Answer)
    modifies wire
    ensures fresh(q) && q.wire == wire && q.plan == plan
    ensures answer == wire.behave(old(wire.log), plan) && wire.log == old(wire.log) + [plan]
    ensures wire.open == old(wire.open) + if answer.Answered? then {q} else {}
    ensures wire.built - wire.closed == old(wire.built) - old(wire.closed) + if answer.Answered? then 1 else 0
  {
    q := new Querier(wire, plan);
    answer := q.Read();
    if !answer.Answered? {
      q.Close();
    }
  }

  /** The probe loop after `tried`, none of which ended it: nothing it built is still open. */
  ghost predicate Probing(wire: Wire, log: seq<Plan>, tried: seq<Attempt>, order: seq<Found>)
    reads wire
  {
    && FollowsOrder(wire.behave, log, tried, order) && wire.log == log + Contacts(tried)
    && forall i :: 0 <= i < |tried| ==> !Stops(tried[i])
  }

  /** One round of the loop: `q` is kept open only if the device answered. */
  method ProbeNext(wire: Wire, order: seq<Found>, attempts: seq<Attempt>, ghost log: seq<Plan>)
    returns (attempt: Attempt, q: Querier?)
    requires |attempts| < |order| && Probing(wire, log, attempts, order)
    modifies wire
    ensures FollowsOrder(wire.behave, log, attempts + [attempt], order)
        && wire.log == log + Contacts(attempts + [attempt])
    ensures q != null <==> Succeeds(attempt)
    ensures q != null ==> fresh(q) && q.wire == wire && q.plan == attempt.plan
    ensures wire.open == old(wire.open) + if q == null then {} else {q}
    ensures wire.built - wire.closed == old(wire.built) - old(wire.closed) + if q == null then 0 else 1
  {
    hide FollowsOrder, Contacts, Stops;
    match ConnectAs(order[|attempts|])
    case Err(e) =>
      attempt, q := NotBuilt(e), null;
      FollowsMore(wire.behave, log, attempts, order, attempt);
      ContactsMore(attempts, attempt);
    case Ok(plan) =>
      var built, answer := TryPlan(wire, plan);
      attempt, q := Tried(plan, answer), if answer.Answered? then built else null;
      FollowsMore(wire.behave, log, attempts, order, attempt);
      ContactsMore(attempts, attempt);
  }

  /** The probe loop. Every querier that did not answer is closed again. */
  method Probe(wire: Wire, order: seq<Found>) returns (r: Result<Querier, NegotiateError>, ghost tried: seq<Attempt>)
    modifies wire
    ensures ProbeRun(wire.behave, old(wire.log), tried, order)
    ensures wire.log == old(wire.log) + Contacts(tried)
    ensures Concludes(tried, PlanOf(r))
    ensures r.Ok? ==> fresh(r.value) && r.value.wire == wire && wire.open == old(wire.open) + {r.value}
    ensures r.Err? ==> wire.open == old(wire.open)
    ensures wire.built - wire.closed == old(wire.built) - old(wire.closed) + if r.Ok? then 1 else 0
  {
    var attempts: seq<Attempt> := [];
    ghost var log := wire.log;
    assert log + [] == log;
    for i := 0 to |order|
      invariant |attempts| == i && Probing(wire, log, attempts, order)
      invariant wire.open == old(wire.open)
      invariant wire.built - wire.closed == old(wire.built) - old(wire.closed)
    {
      hide FollowsOrder, Contacts;
      var attempt, q := ProbeNext(wire, order, attempts, log);
      attempts := attempts + [attempt];
      if q != null {
        return Ok(q), attempts;
      } else if attempt.Tried? && attempt.answer.Rejected? {
        return Err(Unreachable(attempts)), attempts;
      }
    }
    return Err(Unreachable(attempts)), attempts;
  }

  lemma {:induction false} AskIs(behave: Behaviour, log: seq<Plan>, asked: Option<Found>)
    ensures var first := Ask(behave, log, asked);
      && (if asked.Some? && ConnectAs(asked.value).Ok?
          then first == [Tried(ConnectAs(asked.value).value, behave(log, ConnectAs(asked.value).value))]
          else first == [])
      && Contacts(first) == if first == [] then [] else [first[0].plan]
  {
    var first := Ask(behave, log, asked);
    assert first != [] ==> first[..0] == [];
  }

  /** `negotiate`, where `asked` is what the host answered when asked directly. */
  method Negotiate(wire: Wire, known: Option<Found>, asked: Option<Found>)
    returns (r: Result<Querier, NegotiateError>, ghost tried: seq<Attempt>, ghost contacts: seq<Plan>)
    modifies wire
    ensures wire.log == old(wire.log) + contacts
    ensures Negotiated(wire.behave, old(wire.log), known, asked, tried, contacts, PlanOf(r))
    ensures r.Ok? ==> fresh(r.value) && r.value.wire == wire && wire.open == old(wire.open) + {r.value}
    ensures r.Err? ==> wire.open == old(wire.open)
    ensures wire.built - wire.closed == old(wire.built) - old(wire.closed) + if r.Ok? then 1 else 0
  {
    hide Contacts, ProbeRun, ProbeOrder, Concludes, Ask;
    tried, contacts := [], [];
    assert wire.log + [] == wire.log;
    if known.Some? {
      match ConnectAs(known.value) {
        case Err(e) =>
          return Err(Unsupported(e)), [], [];
        case Ok(plan) =>
          var q := new Querier(wire, plan);
          return Ok(q), [], [];
      }
    }
    ghost var first := Ask(wire.behave, wire.log, asked);
    AskIs(wire.behave, wire.log, asked);
    if asked.Some? && ConnectAs(asked.value).Ok? {
      var q, answer := TryPlan(wire, ConnectAs(asked.value).value);
      if answer.Answered? {
        return Ok(q), [], [q.plan];
      }
    }
    assert wire.log == old(wire.log) + Contacts(first);
    r, tried := Probe(wire, ProbeOrder());
    contacts := Contacts(first) + Contacts(tried);
  }

  // ---------------------------------------------------------------- what that means for a login-version-1 device

  /** A device that only serves the IOT dialect over KLAP, with a login kept as version 1 keeps it. */
  ghost predicate OnlyLoginV1(behave: Behaviour) {
    forall log, plan :: ServesV1(plan, behave(log, plan))
  }

  predicate ServesV1(plan: Plan, answer: Answer) {
    match plan.transport
    case KlapTransport(version) =>
      if version == LOGIN_V2 then answer.Rejected? else if plan.dialect == Iot then answer.Answered? else answer.Failed?
    case _ => answer.Failed?
  }

  /** Why such a device rejects version 2: no candidate's proof is the one it sends. */
  lemma LoginV1HolderRejectsV2(p: Primitives, l: bytes, r: bytes, configured: Credentials, held: Credentials,
      version: int)
    requires version != LOGIN_V2
    requires Separates(p, l, r, AuthHash(p, held, version), CandidateHashes(p, configured, LOGIN_V2))
    ensures FirstMatch(p, l, r, ServerProof(p, l, r, AuthHash(p, held, version)),
        CandidateHashes(p, configured, LOGIN_V2)) == None
  {
    VersionsNeverAgree(p, configured, held, LOGIN_V2, version);
    MatchFindsHeldLogin(p, l, r, AuthHash(p, held, version), CandidateHashes(p, configured, LOGIN_V2));
  }

  /**
   An unknown login-version-1 device is reached exactly when it describes itself in discovery.
   Probing stops at the first version 2 candidate, which it rejects, so the version 1 candidate
   that would have worked is never tried.
   */
  lemma {:induction false} LoginV1ReachedIffItAnswersDiscovery(
    behave: Behaviour, log: seq<Plan>, asked: Option<Found>, tried: seq<Attempt>, contacts: seq<Plan>,
        result: Result<Plan, NegotiateError>)
    requires OnlyLoginV1(behave) && Negotiated(behave, log, None, asked, tried, contacts, result)
    ensures result.Ok? <==> (asked.Some? && asked.value.encryptType == ENCRYPT_KLAP
                             && DialectOf(asked.value) == Iot && LoginVersion(asked.value) != LOGIN_V2)
    ensures result.Err? ==>
        result.error == Unreachable([Tried(Plan(KlapTransport(LOGIN_V2), Smart, false, 80), Rejected)])
  {
    var first := Ask(behave, log, asked);
    if first != [] {
      assert ServesV1(first[0].plan, behave(log, first[0].plan));
    }
    if result.Err? || first == [] || !Succeeds(first[0]) {
      FirstProbe(behave, log + Contacts(first), tried);
      assert ServesV1(tried[0].plan, behave(log + Contacts(first), tried[0].plan));
    }
  }

  /** The probe loop begins with KLAP login version 2 over the SMART dialect. */
  lemma {:induction false} FirstProbe(behave: Behaviour, log: seq<Plan>, tried: seq<Attempt>)
    requires ProbeRun(behave, log, tried, ProbeOrder())
    ensures tried != [] && tried[0].Tried? && tried[0].plan == Plan(KlapTransport(LOGIN_V2), Smart, false, 80)
    ensures tried[0].answer == behave(log, tried[0].plan) && (Stops(tried[0]) ==> |tried| == 1)
  {
    assert Upper("SMART") == "SMART";
    assert log + [] == log && tried[..0] == [];
    assert TriesCandidate(tried[0], ProbeOrder()[0]);
  }

  /**
   A device that answers discovery without naming its transport is reached over KLAP, with its
   own login version or else its family's, at its own port or else the scheme's.
   */
  lemma {:induction false} UnnamedTransportIsKlap(host: string, info: SmartInfo)
    requires info.errorCode == 0 && info.deviceModel != "" && NamesKlap(info.scheme)
    ensures ParseSmart(host, Some(info)).Some?
    ensures var plan, scheme := ConnectAs(ParseSmart(host, Some(info)).value),
        info.scheme.GetOr(Scheme(false, "", 0, 0));
      && plan.Ok? && plan.value.transport.KlapTransport? && plan.value.https == scheme.https
      && (plan.value.dialect == Smart <==> "SMART" <= Upper(info.deviceType))
      && plan.value.transport.loginVersion == (if scheme.loginVersion != 0 then scheme.loginVersion
                                               else if plan.value.dialect == Smart then LOGIN_V2 else LOGIN_V1)
      && plan.value.port == (if scheme.httpPort != 0 then scheme.httpPort else if scheme.https then 443 else 80)
  {
  }

  /** A login rejected in the ask-the-device step does not stop the probe: the host is contacted again. */
  lemma {:induction false} RejectionAfterDiscoveryStillProbes(
    behave: Behaviour, log: seq<Plan>, asked: Found, tried: seq<Attempt>, contacts: seq<Plan>,
        result: Result<Plan, NegotiateError>)
    requires ConnectAs(asked).Ok? && behave(log, ConnectAs(asked).value).Rejected?
    requires Negotiated(behave, log, None, Some(asked), tried, contacts, result)
    ensures |contacts| >= 2 && contacts[0] == ConnectAs(asked).value
        && contacts[1] == Plan(KlapTransport(LOGIN_V2), Smart, false, 80)
  {
    var first := Ask(behave, log, Some(asked));
    assert first[..0] == [];
    assert Contacts(first) == [ConnectAs(asked).value];
    FirstProbe(behave, log + Contacts(first), tried);
    FirstContact(tried);
  }

  lemma {:induction false} FirstContact(tried: seq<Attempt>)
    requires tried != [] && tried[0].Tried?
    ensures Contacts(tried) != [] && Contacts(tried)[0] == tried[0].plan
  {
    if |tried| == 1 {
      assert tried[..0] == [];
    } else {
      FirstContact(tried[..|tried| - 1]);
    }
  }

  // ---------------------------------------------------------------- a host that never describes itself

  /** The five ways an unknown host is tried, in order. */
  function Probes(): (plans: seq<Plan>)
    ensures |plans| == 5
  {
    [ Plan(KlapTransport(2), Smart, false, 80), Plan(KlapTransport(2), Iot, false, 80),
      Plan(KlapTransport(1), Iot, false, 80), Plan(AesTransport, Smart, false, 80),
      Plan(XorTransport, Iot, false, 9999) ]
  }

  lemma CandidatesAreProbes()
    ensures |ProbeOrder()| == 5
    ensures forall i :: 0 <= i < 5 ==> ConnectAs(ProbeOrder()[i]) == Ok(Probes()[i])
  {
    assert Upper("SMART") == "SMART" && Upper("IOT")[0] == 'I';
  }

  /**
   What happens to any silent host, however it answers: it is contacted with a prefix of the five
   probes, all but the last of which fail; the last is the first that does not, and what is
   returned if it answered.
   */
  ghost predicate ProbedInOrder(behave: Behaviour, log: seq<Plan>, contacts: seq<Plan>,
      result: Result<Plan, NegotiateError>)
  {
    && 1 <= |contacts| <= 5
    && (forall i :: 0 <= i < |contacts| ==> contacts[i] == Probes()[i])
    && (forall i :: 0 <= i < |contacts| - 1 ==> behave(log + contacts[..i], contacts[i]).Failed?)
    && var last := contacts[|contacts| - 1];
       var answer := behave(log + contacts[..|contacts| - 1], last);
       && (answer.Failed? ==> |contacts| == 5)
       && (answer.Answered? ==> result == Ok(last)) && (!answer.Answered? ==> result.Err?)
  }

  lemma {:induction false} ContactsOf(tried: seq<Attempt>)
    requires forall i :: 0 <= i < |tried| ==> tried[i].Tried?
    ensures |Contacts(tried)| == |tried| && forall i :: 0 <= i < |tried| ==> Contacts(tried)[i] == tried[i].plan
    ensures forall i :: 0 <= i <= |tried| ==> Contacts(tried[..i]) == Contacts(tried)[..i]
  {
    if tried != [] {
      var front := tried[..|tried| - 1];
      ContactsOf(front);
      forall i | 0 <= i <= |tried| ensures Contacts(tried[..i]) == Contacts(tried)[..i] {
        if i < |tried| {
          assert front[..i] == tried[..i];
        } else {
          assert tried[..i] == tried;
        }
      }
    }
  }

  /** The attempts of one probe loop, as contacts. */
  lemma {:induction false} ProbeRunProbes(behave: Behaviour, log: seq<Plan>, tried: seq<Attempt>)
    requires ProbeRun(behave, log, tried, ProbeOrder())
    ensures 1 <= |tried| <= 5 && |Contacts(tried)| == |tried|
    ensures forall i :: 0 <= i < |tried| ==>
      && tried[i].Tried? && tried[i].plan == Probes()[i] == Contacts(tried)[i]
      && tried[i].answer == behave(log + Contacts(tried)[..i], Probes()[i])
  {
    CandidatesAreProbes();
    hide ProbeOrder, Contacts, ConnectAs;
    forall i | 0 <= i < |tried| ensures tried[i].Tried? && tried[i].plan == Probes()[i] {
      assert TriesCandidate(tried[i], ProbeOrder()[i]);
    }
    ContactsOf(tried);
  }

  lemma {:induction false} SilentHostProbed(
    behave: Behaviour, log: seq<Plan>, tried: seq<Attempt>, contacts: seq<Plan>, result: Result<Plan, NegotiateError>)
    requires Negotiated(behave, log, None, None, tried, contacts, result)
    ensures ProbedInOrder(behave, log, contacts, result)
  {
    hide Contacts, ProbeRun, Concludes, ProbedInOrder;
    NothingAsked(behave, log, tried, contacts, result);
    RunProbed(behave, log, tried, result);
  }

  lemma {:induction false} RunProbed(behave: Behaviour, log: seq<Plan>, tried: seq<Attempt>,
      result: Result<Plan, NegotiateError>)
    requires ProbeRun(behave, log, tried, ProbeOrder()) && Concludes(tried, result)
    ensures ProbedInOrder(behave, log, Contacts(tried), result)
  {
    hide Probes, ProbeOrder, Contacts, ConnectAs, FollowsOrder, ProbeRun;
    ProbeRunProbes(behave, log, tried);
    ProbeRunStops(behave, log, tried);
  }

  lemma ProbeRunStops(behave: Behaviour, log: seq<Plan>, tried: seq<Attempt>)
    requires ProbeRun(behave, log, tried, ProbeOrder()) && tried != []
    ensures forall i :: 0 <= i < |tried| - 1 ==> !Stops(tried[i])
    ensures |tried| < 5 ==> Stops(tried[|tried| - 1])
  {
    CandidatesAreProbes();
    hide ProbeOrder, Contacts, ConnectAs, TriesCandidate;
  }

  lemma {:induction false} NothingAsked(
    behave: Behaviour, log: seq<Plan>, tried: seq<Attempt>, contacts: seq<Plan>, result: Result<Plan, NegotiateError>)
    requires Negotiated(behave, log, None, None, tried, contacts, result)
    ensures ProbeRun(behave, log, tried, ProbeOrder()) && contacts == Contacts(tried) && Concludes(tried, result)
  {
    hide ProbeRun, ProbeOrder, Concludes;
    assert log + [] == log && [] + Contacts(tried) == Contacts(tried) && Contacts([]) == [];
  }

  /** The host answers one way of being asked, and fails every other. */
  ghost predicate AnswersOnly(behave: Behaviour, plan: Plan) {
    forall log, asked :: if asked == plan then behave(log, asked).Answered? else behave(log, asked).Failed?
  }

  lemma {:induction false} ReachedIffProbed(
    behave: Behaviour, log: seq<Plan>, plan: Plan, contacts: seq<Plan>, result: Result<Plan, NegotiateError>)
    requires AnswersOnly(behave, plan) && ProbedInOrder(behave, log, contacts, result)
    ensures result == Ok(plan) <==> plan in Probes()
    ensures result.Ok? ==> result == Ok(plan)
  {
    hide Probes;
    var n := |contacts|;
    forall i | 0 <= i < n - 1 ensures Probes()[i] != plan {
      assert contacts[i] == Probes()[i] && behave(log + contacts[..i], contacts[i]).Failed?;
    }
    var last := contacts[n - 1];
    assert last == Probes()[n - 1];
    var answer := behave(log + contacts[..n - 1], last);
    assert if last == plan then answer.Answered? else answer.Failed?;
  }

  /** A silent host that speaks one way only is reached exactly when that way is one of the five. */
  lemma {:induction false} SilentHostReachedIff(
    behave: Behaviour, log: seq<Plan>, plan: Plan, tried: seq<Attempt>, contacts: seq<Plan>,
    result: Result<Plan, NegotiateError>)
    requires AnswersOnly(behave, plan) && Negotiated(behave, log, None, None, tried, contacts, result)
    ensures result == Ok(plan) <==>
      || plan == Plan(KlapTransport(2), Smart, false, 80) || plan == Plan(KlapTransport(2), Iot, false, 80)
      || plan == Plan(KlapTransport(1), Iot, false, 80) || plan == Plan(AesTransport, Smart, false, 80)
      || plan == Plan(XorTransport, Iot, false, 9999)
    ensures result.Ok? ==> result == Ok(plan)
  {
    SilentHostProbed(behave, log, tried, contacts, result);
    ReachedIffProbed(behave, log, plan, contacts, result);
    hide Negotiated, AnswersOnly, ProbedInOrder;
  }

  /** A silent host that fails everything is tried all five ways, in this order. */
  lemma {:induction false} SilentHostTriedFiveWays(
    behave: Behaviour, log: seq<Plan>, tried: seq<Attempt>, contacts: seq<Plan>, result: Result<Plan, NegotiateError>)
    requires (forall log, plan :: behave(log, plan).Failed?)
    requires Negotiated(behave, log, None, None, tried, contacts, result)
    ensures result.Err? && contacts == [
      Plan(KlapTransport(2), Smart, false, 80), Plan(KlapTransport(2), Iot, false, 80),
      Plan(KlapTransport(1), Iot, false, 80), Plan(AesTransport, Smart, false, 80),
      Plan(XorTransport, Iot, false, 9999) ]
  {
    SilentHostProbed(behave, log, tried, contacts, result);
    hide Negotiated;
    assert behave(log + contacts[..|contacts| - 1], contacts[|contacts| - 1]).Failed?;
  }

  /** What a description leads to, transport by transport. */
  lemma ConnectsAsDescribed(f: Found)
    ensures ConnectAs(f).Ok? <==> f.encryptType in ["", "XOR", "KLAP", "AES"]
    ensures f.encryptType == "" || f.encryptType == "XOR" ==> ConnectAs(f) == Ok(Plan(XorTransport, Iot, false, 9999))
    ensures f.encryptType == "KLAP" || f.encryptType == "AES" ==>
      var plan := ConnectAs(f).value;
      && plan.https == f.https
      && plan.port == (if f.httpPort != 0 then f.httpPort else if f.https then 443 else 80)
      && (f.encryptType == "AES" ==> plan.transport.AesTransport? && plan.dialect == Smart)
      && (f.encryptType == "KLAP" ==>
            && (plan.dialect == Smart <==> "SMART" <= Upper(f.family))
            && plan.transport == KlapTransport(if f.loginVersion != 0 then f.loginVersion
                                               else if "SMART" <= Upper(f.family) then 2 else 1))
    ensures forall n :: ConnectAs(f.(alias := n, model := n, deviceID := n, mac := n, host := n)) == ConnectAs(f)
  {
  }

  /** A host known from discovery is not contacted at all: it is connected to as its reply says, or not at all. */
  lemma KnownGoesByItsReply(behave: Behaviour, log: seq<Plan>, f: Found, asked: Option<Found>, tried: seq<Attempt>,
      contacts: seq<Plan>, result: Result<Plan, NegotiateError>)
    requires Negotiated(behave, log, Some(f), asked, tried, contacts, result)
    ensures contacts == [] && (result.Ok? <==> f.encryptType in ["", "XOR", "KLAP", "AES"])
    ensures f.encryptType == "XOR" ==> result == Ok(Plan(XorTransport, Iot, false, 9999))
    ensures f.encryptType == "KLAP" ==> result.value.transport.KlapTransport? && result.value.https == f.https
    ensures f.encryptType == "AES" ==> result.value.transport.AesTransport? && result.value.https == f.https
    ensures f.httpPort != 0 && f.encryptType in ["KLAP", "AES"] ==> result.value.port == f.httpPort
  {
    ConnectsAsDescribed(f);
    hide ConnectAs, ProbeRun;
  }

  /**
   A host that describes itself when asked is contacted as it says first. If it answers, that is
   the connection; if it fails or rejects the login, it is then treated as any silent host.
   */
  lemma {:induction false} AskedGoesFirst(behave: Behaviour, log: seq<Plan>, f: Found, plan: Plan, tried: seq<Attempt>,
      contacts: seq<Plan>, result: Result<Plan, NegotiateError>)
    requires Negotiated(behave, log, None, Some(f), tried, contacts, result) && ConnectAs(f) == Ok(plan)
    ensures contacts != [] && contacts[0] == plan
    ensures if behave(log, plan).Answered? then contacts == [plan] && result == Ok(plan)
            else ProbedInOrder(behave, log + [plan], contacts[1..], result)
  {
    var first := [Tried(plan, behave(log, plan))];
    OneContact(plan, behave(log, plan));
    assert Ask(behave, log, Some(f)) == first;
    hide ProbeOrder, ProbeRun, ConnectAs, Concludes, Contacts, ProbedInOrder, Ask;
    if !behave(log, plan).Answered? {
      assert log + Contacts(first) == log + [plan];
      RunProbed(behave, log + [plan], tried, result);
      assert contacts == [plan] + Contacts(tried);
    }
  }

  lemma OneContact(plan: Plan, answer: Answer)
    ensures Contacts([Tried(plan, answer)]) == [plan]
  {
    var first := [Tried(plan, answer)];
    assert first[..|first| - 1] == [] && Contacts([]) == [];
  }
}
