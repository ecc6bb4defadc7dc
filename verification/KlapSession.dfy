/**
 The two parties of a KLAP session: the exporter's transport (kasa/klap.go) and a device that
 speaks the protocol (kasa/fakedevice_test.go), with a script of the device's misbehaviour.
 */
module KlapSession {
  import opened Bytes
  import opened Crypto
  import opened Klap
  import opened Wrappers

  datatype Post = Handshake1 | Handshake2 | Request(seqNo: int)

  /** What one HTTP post comes back with; `Lost` stands for every transport failure. */
  datatype Reply = Lost | Reply(status: int, body: bytes, cookie: Option<nat>)

  /**
   One turn of the device: it follows the protocol; or, asked for a request, it has forgotten
   its session; or it follows the protocol and its reply never arrives; or something else
   entirely comes back, or nothing does, and the device sees nothing.
   */
  datatype Turn = Honest | Expire | Swallow | Forge(reply: Reply)

  /** A device that forgets its session only by its own request counter, whatever is lost or forged. */
  predicate Steady(script: seq<Turn>) {
    forall i :: 0 <= i < |script| ==> !script[i].Expire?
  }

  /** What arrives of a reply. */
  function Heard(turn: Turn, reply: Reply): Reply {
    if turn.Swallow? then Lost else reply
  }

  class KlapDevice {
    const crypto: Primitives
    const credentials: Credentials
    const loginVersion: int
    const respond: bytes -> bytes
    /** The session is forgotten after this many requests; zero never forgets. */
    const expireAfter: nat

    var localSeed: bytes
    var remoteSeed: bytes
    var authHash: Option<bytes>
    var requests: nat
    var handshakes: nat
    var script: seq<Turn>

    /**
     Everything posted and the cookie it carried, the seed pairs of every handshake, and how often
     a reply was forged, nothing came back, the session was forgotten, and a request was refused.
     */
    ghost var posts: seq<Post>
    ghost var cookies: seq<Option<nat>>
    ghost var seeds: seq<(bytes, bytes)>
    ghost var forgeries: nat
    ghost var losses: nat
    ghost var expiries: nat
    ghost var refusals: nat

    constructor (
      crypto: Primitives, credentials: Credentials, loginVersion: int, respond: bytes -> bytes, expireAfter: nat,
      script: seq<Turn>)
      ensures this.crypto == crypto && this.credentials == credentials && this.loginVersion == loginVersion
      ensures this.respond == respond && this.expireAfter == expireAfter
      ensures authHash == None && this.script == script
      ensures forgeries == 0 && losses == 0 && expiries == 0 && refusals == 0
      ensures posts == [] && cookies == [] && seeds == []
    {
      this.crypto, this.credentials, this.loginVersion := crypto, credentials, loginVersion;
      this.respond, this.expireAfter := respond, expireAfter;
      localSeed, remoteSeed, authHash, requests, handshakes := [], [], None, 0, 0;
      this.script := script;
      posts, cookies, seeds, forgeries, losses, expiries, refusals := [], [], [], 0, 0, 0, 0;
    }

    ghost function Held(): bytes {
      AuthHash(crypto, credentials, loginVersion)
    }

    ghost function Session(): Session
      requires authHash.Some?
      reads `localSeed, `remoteSeed, `authHash
    {
      Derive(crypto, localSeed, remoteSeed, authHash.value)
    }

    method DoHandshake1(body: bytes) returns (reply: Reply)
      modifies this`localSeed, this`remoteSeed, this`authHash, this`handshakes, this`seeds
      ensures |body| == SEED_LEN ==>
        && localSeed == body && |remoteSeed| == SEED_LEN && authHash == Some(Held())
        && handshakes == old(handshakes) + 1 && seeds == old(seeds) + [(localSeed, remoteSeed)]
        && reply == Reply(200, remoteSeed + ServerProof(crypto, localSeed, remoteSeed, Held()), Some(handshakes))
      ensures |body| != SEED_LEN ==> reply == Reply(400, [], None) && unchanged(this)
    {
      if |body| != SEED_LEN {
        return Reply(400, [], None);
      }
      handshakes := handshakes + 1;
      localSeed := body;
      assert |Repeat(0, SEED_LEN)| == SEED_LEN;
      var seed: bytes :| |seed| == SEED_LEN;
      remoteSeed := seed;
      seeds := seeds + [(localSeed, remoteSeed)];
      var held := AuthHash(crypto, credentials, loginVersion);
      authHash := Some(held);
      return Reply(200, remoteSeed + ServerProof(crypto, localSeed, remoteSeed, held), Some(handshakes));
    }

    method DoHandshake2(body: bytes) returns (reply: Reply)
      modifies this`requests
      ensures body == ClientProof(crypto, localSeed, remoteSeed, authHash.GetOr([])) ==>
        reply == Reply(200, [], None) && requests == 0
      ensures body != ClientProof(crypto, localSeed, remoteSeed, authHash.GetOr([])) ==>
        reply == Reply(403, [], None) && unchanged(this)
    {
      if body != ClientProof(crypto, localSeed, remoteSeed, authHash.GetOr([])) {
        return Reply(403, [], None);
      }
      requests := 0;
      return Reply(200, [], None);
    }

    /** Whether the next request finds the session forgotten. */
    ghost predicate Forgets(turn: Turn)
      reads `requests
    {
      turn.Expire? || (expireAfter > 0 && requests + 1 > expireAfter)
    }

    method DoRequest(seqNo: int, body: bytes, turn: Turn) returns (reply: Reply)
      modifies this`authHash, this`requests, this`expiries
      ensures old(authHash).None? ==> reply == Reply(403, [], None) && unchanged(this)
      ensures old(authHash).Some? && old(Forgets(turn)) ==>
        reply == Reply(403, [], None) && authHash == None && expiries == old(expiries) + 1
      ensures old(authHash).Some? && !old(Forgets(turn)) ==>
        && authHash == old(authHash) && expiries == old(expiries) && requests == old(requests) + 1
        && var (status, out) := DeviceAnswer(crypto, Session(), respond, seqNo, body); reply == Reply(status, out, None)
    {
      if authHash.None? {
        return Reply(403, [], None);
      }
      requests := requests + 1;
      if turn.Expire? || (expireAfter > 0 && requests > expireAfter) {
        authHash, expiries := None, expiries + 1;
        return Reply(403, [], None);
      }
      var session := Derive(crypto, localSeed, remoteSeed, authHash.value);
      var (status, out) := DeviceAnswer(crypto, session, respond, seqNo, body);
      return Reply(status, out, None);
    }

    ghost function NextTurn(): Turn
      reads this
    {
      if script == [] then Honest else script[0]
    }

    /** The part of the device a handshake settles. */
    ghost predicate SameSession(localSeed: bytes, remoteSeed: bytes, authHash: Option<bytes>)
      reads `localSeed, `remoteSeed, `authHash
    {
      this.localSeed == localSeed && this.remoteSeed == remoteSeed && this.authHash == authHash
    }

    /** What a post that reached the device did to it, and what it answered. */
    twostate predicate Acted(post: Post, body: bytes, turn: Turn, answer: Reply)
      reads `localSeed, `remoteSeed, `authHash, `handshakes, `seeds, `requests, `expiries
    {
      match post
      case Handshake1 =>
        && expiries == old(expiries)
        && if |body| == SEED_LEN then
             && localSeed == body && |remoteSeed| == SEED_LEN && authHash == Some(Held())
             && handshakes == old(handshakes) + 1 && seeds == old(seeds) + [(localSeed, remoteSeed)]
             && answer == Reply(200, remoteSeed + ServerProof(crypto, localSeed, remoteSeed, Held()), Some(handshakes))
           else
             && SameSession(old(localSeed), old(remoteSeed), old(authHash))
             && handshakes == old(handshakes) && seeds == old(seeds) && answer == Reply(400, [], None)
      case Handshake2 =>
        && expiries == old(expiries) && handshakes == old(handshakes) && seeds == old(seeds)
        && SameSession(old(localSeed), old(remoteSeed), old(authHash))
        && if body == ClientProof(crypto, localSeed, remoteSeed, authHash.GetOr([]))
           then answer == Reply(200, [], None) && requests == 0 else answer == Reply(403, [], None)
      case Request(seqNo) =>
        && localSeed == old(localSeed) && remoteSeed == old(remoteSeed)
        && handshakes == old(handshakes) && seeds == old(seeds)
        && if old(authHash).Some? && !old(Forgets(turn)) then
             && authHash == old(authHash) && expiries == old(expiries)
             && var (status, out) := DeviceAnswer(crypto, Session(), respond, seqNo, body);
                answer == Reply(status, out, None)
           else
             && authHash == None && answer == Reply(403, [], None)
             && expiries == old(expiries) + if old(authHash).Some? then 1 else 0
    }

    method Handle(post: Post, body: bytes, turn: Turn) returns (answer: Reply)
      modifies this`localSeed, this`remoteSeed, this`authHash, this`handshakes, this`seeds, this`requests, this`expiries
      ensures Acted(post, body, turn, answer)
    {
      hide DeviceAnswer, ServerProof, ClientProof, Held, Session;
      match post
      case Handshake1 => answer := DoHandshake1(body);
      case Handshake2 => answer := DoHandshake2(body);
      case Request(seqNo) => answer := DoRequest(seqNo, body, turn);
    }

    /** `ServeHTTP`, taking the next turn of the script. */
    method Serve(post: Post, cookie: Option<nat>, body: bytes) returns (reply: Reply, ghost answer: Reply)
      modifies this
      ensures posts == old(posts) + [post] && cookies == old(cookies) + [cookie]
      ensures script == if old(script) == [] then [] else old(script)[1..]
      ensures losses == old(losses) + if reply.Lost? then 1 else 0
      ensures old(NextTurn()).Forge? ==>
        && forgeries == old(forgeries) + (if reply.Lost? then 0 else 1) && seeds == old(seeds)
        && expiries == old(expiries) && refusals == old(refusals) && reply == old(NextTurn()).reply
        && SameSession(old(localSeed), old(remoteSeed), old(authHash)) && handshakes == old(handshakes)
      ensures !old(NextTurn()).Forge? ==>
        && forgeries == old(forgeries) && Acted(post, body, old(NextTurn()), answer)
        && reply == Heard(old(NextTurn()), answer)
        && refusals == old(refusals) + if post.Request? && authHash.None? && reply.Reply? then 1 else 0
    {
      hide Acted, Forgets, Held, Session;
      var turn := if script == [] then Honest else script[0];
      if turn.Forge? {
        reply, answer := turn.reply, turn.reply;
        forgeries := forgeries + if reply.Lost? then 0 else 1;
      } else {
        reply := Handle(post, body, turn);
        answer, reply := reply, Heard(turn, reply);
        refusals := refusals + if post.Request? && authHash.None? && reply.Reply? then 1 else 0;
      }
      Record(post, cookie, reply);
    }

    method Record(post: Post, cookie: Option<nat>, reply: Reply)
      modifies `posts, `cookies, `script, `losses
      ensures posts == old(posts) + [post] && cookies == old(cookies) + [cookie]
      ensures script == if old(script) == [] then [] else old(script)[1..]
      ensures losses == old(losses) + if reply.Lost? then 1 else 0
    {
      posts, cookies := posts + [post], cookies + [cookie];
      script := if script == [] then [] else script[1..];
      losses := losses + if reply.Lost? then 1 else 0;
    }
  }

  datatype KlapError =
    | RandFailed | PostLost | HandshakeStatus(status: int) | HandshakeLength | Unauthorized
    | RequestStatus(status: int) | BadBody(why: CodecError) | RejectedTwice

  /** Randomness failed or a post got no answer, which ends a call at once. */
  predicate Interrupted<T>(r: Result<T, KlapError>) {
    r.Err? && (r.error.RandFailed? || r.error.PostLost?)
  }

  /** The posts of one pass of the retry loop: at most one handshake, then at most one request. */
  ghost predicate IsAttempt(posts: seq<Post>) {
    || posts == [] || posts == [Handshake1] || posts == [Handshake1, Handshake2]
    || (|posts| == 1 && posts[0].Request?)
    || (|posts| == 3 && posts[0] == Handshake1 && posts[1] == Handshake2 && posts[2].Request?)
  }

  class KlapTransport {
    const crypto: Primitives
    const credentials: Credentials
    const loginVersion: int
    const device: KlapDevice

    var sessionID: Option<nat>
    var session: Session
    var seqNo: int
    var established: bool

    /** The IVs this session has encrypted under, and the sequence number it started from. */
    ghost var base: int
    ghost var ivs: seq<bytes>

    constructor (crypto: Primitives, credentials: Credentials, loginVersion: int, device: KlapDevice)
      ensures this.crypto == crypto && this.credentials == credentials && this.loginVersion == loginVersion
          && this.device == device
      ensures Valid() && !established
    {
      this.crypto, this.credentials, this.loginVersion, this.device := crypto, credentials, loginVersion, device;
      sessionID, session, seqNo, established := None, Klap.Session([], [], [], 0), 0, false;
      base, ivs := 0, [];
    }

    /** At rest: the key lengths of an established session, and the sequence one step behind the next IV. */
    ghost predicate Valid()
      reads this
    {
      && (established ==> WellFormed(session))
      && seqNo == SequenceAfter(base, |ivs|)
      && forall i :: 0 <= i < |ivs| ==> ivs[i] == BlockIv(session.iv, SequenceAfter(base, i + 1))
    }

    /** Whenever this side believes in a session, the device holds the same one under the same cookie, or none. */
    ghost predicate Agrees()
      reads this, device
    {
      established ==> sessionID == Some(device.handshakes) && (device.authHash.Some? ==> session == device.Session())
    }

    /** The device has forgotten a session this side still believes in: the reply that would have said so was lost. */
    ghost predicate Forgotten()
      reads this, device
    {
      established && device.authHash.None?
    }

    ghost function Owed(): nat
      reads this, device
    {
      if Forgotten() then 1 else 0
    }

    /**
     One primitive suite on both sides, and a digest that separated the device's login from the
     candidates under every pair of seeds the two have drawn.
     */
    ghost predicate Compatible()
      reads device`seeds
    {
      && crypto == device.crypto
      && forall k :: 0 <= k < |device.seeds| ==> Separated(device.seeds[k])
    }

    ghost predicate Separated(pair: (bytes, bytes)) {
      Separates(crypto, pair.0, pair.1, device.Held(), CandidateHashes(crypto, credentials, loginVersion))
    }

    ghost predicate Recognised() {
      device.Held() in CandidateHashes(crypto, credentials, loginVersion)
    }

    /** No IV is used twice among any 2^32 consecutive attempts of one session, failed ones included. */
    lemma IvsDistinct(i: nat, j: nat)
      requires Valid() && i < j < |ivs| && j - i < TWO_32
      ensures ivs[i] != ivs[j]
    {
      hide BlockIv, SequenceAfter;
      IvsCollideExactlyEvery2To32(session.iv, base, j + 1, i + 1);
      assert (j + 1 - (i + 1)) % TWO_32 == j - i;
    }

    /** Handshake 1, sent without a cookie: which login the device holds, told from a single reply. */
    method Identify(localSeed: bytes) returns (r: Result<bytes, KlapError>, remoteSeed: bytes)
      requires |localSeed| == SEED_LEN
      modifies this`sessionID, device
      ensures device.posts == old(device.posts) + [Handshake1] && device.cookies == old(device.cookies) + [None]
      ensures device.forgeries >= old(device.forgeries) && old(device.seeds) <= device.seeds
      ensures device.expiries == old(device.expiries) && device.refusals == old(device.refusals)
      ensures Steady(old(device.script)) ==> Steady(device.script)
      ensures device.losses == old(device.losses) + if r == Err(PostLost) then 1 else 0
      ensures r != Err(RejectedTwice) && r != Err(RandFailed)
      ensures device.forgeries == old(device.forgeries) && Compatible() && r != Err(PostLost) ==>
        && device.authHash == Some(device.Held()) && device.localSeed == localSeed && device.remoteSeed == remoteSeed
        && r == (if Recognised() then Ok(device.Held()) else Err(Unauthorized))
        && (Recognised() ==> sessionID == Some(device.handshakes))
    {
      remoteSeed := [];
      sessionID := None;
      var reply, _ := device.Serve(Handshake1, sessionID, localSeed);
      if reply.Lost? {
        return Err(PostLost), [];
      }
      if reply.status != 200 {
        return Err(HandshakeStatus(reply.status)), [];
      }
      if |reply.body| != SEED_LEN + HASH_LEN {
        return Err(HandshakeLength), [];
      }
      var serverHash := reply.body[SEED_LEN..];
      remoteSeed := reply.body[..SEED_LEN];
      var authHash := Recognise(localSeed, remoteSeed, serverHash);
      if device.forgeries == old(device.forgeries) && Compatible() {
        assert remoteSeed == device.remoteSeed;
        assert serverHash == ServerProof(crypto, localSeed, remoteSeed, device.Held());
        assert Separated(device.seeds[|device.seeds| - 1]);
        MatchFindsHeldLogin(crypto, localSeed, remoteSeed, device.Held(),
                            CandidateHashes(crypto, credentials, loginVersion));
      }
      if authHash.None? {
        return Err(Unauthorized), remoteSeed;
      }
      sessionID := reply.cookie;
      return Ok(authHash.value), remoteSeed;
    }

    /** Handshake 2: prove the login back to the device, under the cookie it just set. */
    method Confirm(proof: bytes) returns (r: Result<(), KlapError>)
      modifies device
      ensures device.posts == old(device.posts) + [Handshake2] && device.cookies == old(device.cookies) + [sessionID]
      ensures device.forgeries >= old(device.forgeries) && device.seeds == old(device.seeds)
      ensures Steady(old(device.script)) ==> Steady(device.script)
      ensures device.losses == old(device.losses) + if r == Err(PostLost) then 1 else 0
      ensures device.refusals == old(device.refusals)
      ensures device.expiries == old(device.expiries) && device.handshakes == old(device.handshakes)
           && device.SameSession(old(device.localSeed), old(device.remoteSeed), old(device.authHash))
      ensures r != Err(RejectedTwice) && r != Err(RandFailed) && r != Err(Unauthorized)
      ensures device.forgeries == old(device.forgeries) && r.Ok? ==> device.requests == 0
      ensures (&& device.forgeries == old(device.forgeries) && device.authHash.Some? && crypto == device.crypto
               && proof == ClientProof(crypto, device.localSeed, device.remoteSeed, device.authHash.value)) ==>
        r.Ok? || r == Err(PostLost)
    {
      var reply, _ := device.Serve(Handshake2, sessionID, proof);
      if reply.Lost? {
        return Err(PostLost);
      }
      if reply.status != 200 {
        return Err(HandshakeStatus(reply.status));
      }
      return Ok(());
    }

    method Handshake() returns (r: Result<(), KlapError>)
      requires Valid() && !established
      modifies this, device
      ensures Valid() && established == r.Ok?
      ensures r.Ok? ==>
        && device.posts == old(device.posts) + [Handshake1, Handshake2] && ivs == []
        && device.cookies == old(device.cookies) + [None, sessionID]
      ensures r == Err(Unauthorized) ==> device.posts == old(device.posts) + [Handshake1]
      ensures device.posts == old(device.posts) || device.posts == old(device.posts) + [Handshake1]
           || device.posts == old(device.posts) + [Handshake1, Handshake2]
      ensures device.forgeries >= old(device.forgeries) && old(device.seeds) <= device.seeds
      ensures device.expiries == old(device.expiries) && device.refusals == old(device.refusals)
      ensures Steady(old(device.script)) ==> Steady(device.script)
      ensures device.losses == old(device.losses) + if r == Err(PostLost) then 1 else 0
      ensures r != Err(RejectedTwice)
      ensures device.forgeries == old(device.forgeries) && r.Ok? ==> device.requests == 0
      ensures device.forgeries == old(device.forgeries) && Compatible() && !Interrupted(r) ==>
        if Recognised() then r.Ok? && Agrees() && !Forgotten() else r == Err(Unauthorized)
    {
      hide Steady, Separated, Derive, Recognised, ServerProof, ClientProof;
      assert |Repeat(0, SEED_LEN)| == SEED_LEN;
      var localSeed: bytes :| |localSeed| == SEED_LEN;
      if * {
        return Err(RandFailed);
      }
      var login, remoteSeed := Identify(localSeed);
      if login.Err? {
        return Err(login.error);
      }
      r := Confirm(ClientProof(crypto, localSeed, remoteSeed, login.value));
      if r.Err? {
        return;
      }
      session := Derive(crypto, localSeed, remoteSeed, login.value);
      seqNo := session.seq0;
      base, ivs := session.seq0, [];
      established := true;
    }

    /** The loop over candidate logins, stopping at the first whose proof matches. */
    method Recognise(localSeed: bytes, remoteSeed: bytes, serverHash: bytes) returns (authHash: Option<bytes>)
      ensures authHash == FirstMatch(crypto, localSeed, remoteSeed, serverHash,
          CandidateHashes(crypto, credentials, loginVersion))
    {
      var logins := Candidates(credentials);
      ghost var hashes := CandidateHashes(crypto, credentials, loginVersion);
      authHash := None;
      var i := 0;
      while i < |logins|
        invariant 0 <= i <= |logins|
        invariant FirstMatch(crypto, localSeed, remoteSeed, serverHash, hashes)
               == FirstMatch(crypto, localSeed, remoteSeed, serverHash, hashes[i..])
      {
        var candidate := AuthHash(crypto, logins[i], loginVersion);
        assert candidate == hashes[i];
        if ServerProof(crypto, localSeed, remoteSeed, candidate) == serverHash {
          return Some(candidate);
        }
        assert hashes[i..][1..] == hashes[i + 1..];
        i := i + 1;
      }
      assert hashes[i..] == [];
    }

    /** `t.seq++`, once per attempt whatever becomes of it. */
    method Advance()
      requires Valid()
      modifies this`seqNo, this`ivs
      ensures Valid() && ivs == old(ivs) + [BlockIv(session.iv, seqNo)]
      ensures seqNo == AsInt32(old(seqNo) + 1)
    {
      ghost var next := SequenceAfter(base, |ivs| + 1);
      seqNo := AsInt32(seqNo + 1);
      assert seqNo == next;
      ivs := ivs + [BlockIv(session.iv, seqNo)];
    }

    /** One request under the current session and its cookie: `None` means the device answered 403. */
    method Exchange(request: bytes) returns (r: Option<Result<bytes, KlapError>>)
      requires Valid() && established
      modifies this, device
      ensures Valid() && established == r.Some?
      ensures device.posts == old(device.posts) + [Request(seqNo)]
          && device.cookies == old(device.cookies) + [sessionID]
      ensures r != Some(Err(Unauthorized)) && r != Some(Err(RejectedTwice)) && r != Some(Err(RandFailed))
      ensures ivs == old(ivs) + [BlockIv(session.iv, seqNo)] && session == old(session) && sessionID == old(sessionID)
      ensures device.forgeries >= old(device.forgeries) && device.seeds == old(device.seeds)
      ensures old(device.expiries) <= device.expiries <= old(device.expiries) + 1
      ensures Steady(old(device.script)) ==>
        Steady(device.script) && (old(device.requests) == 0 ==> device.expiries == old(device.expiries))
      ensures device.losses == old(device.losses) + if r == Some(Err(PostLost)) then 1 else 0
      ensures device.forgeries == old(device.forgeries) && old(Agrees()) && crypto == device.crypto ==>
        && Agrees()
        && device.refusals + Owed() == old(device.refusals + Owed()) + device.expiries - old(device.expiries)
        && old(device.refusals) <= device.refusals <= old(device.refusals) + 1
        && (r != Some(Err(PostLost)) ==>
              && !Forgotten()
              && r == if device.refusals == old(device.refusals) then Some(Ok(device.respond(request))) else None)
    {
      hide Derive, AuthHash, Encrypt, Decrypt, DeviceAnswer;
      Advance();
      ExchangeDelivers(crypto, session, device.respond, seqNo, request);
      var body := Encrypt(crypto, session, request, seqNo);
      var reply, _ := device.Serve(Request(seqNo), sessionID, body.value);
      if reply.Lost? {
        return Some(Err(PostLost));
      }
      if reply.status == 403 {
        established := false;
        return None;
      }
      if reply.status != 200 {
        return Some(Err(RequestStatus(reply.status)));
      }
      match Decrypt(crypto, session, reply.body, seqNo)
      case Ok(value) => return Some(Ok(value));
      case Err(why) => return Some(Err(BadBody(why)));
    }

    /** No reply was forged meanwhile, the two sides agreed at the start, and the digest told logins apart. */
    twostate predicate Genuine()
      reads this, device
    {
      device.forgeries == old(device.forgeries) && old(Agrees()) && Compatible()
    }

    /** One pass of the loop in `Query`: `None` means the loop goes round. */
    method Attempt(request: bytes) returns (r: Option<Result<bytes, KlapError>>, ghost sent: seq<Post>)
      requires Valid()
      modifies this, device
      ensures Valid()
      ensures IsAttempt(sent) && device.posts == old(device.posts) + sent
      ensures r.None? ==> !established && |sent| > 0 && sent[|sent| - 1].Request?
      ensures r == Some(Err(Unauthorized)) ==> sent == [Handshake1]
      ensures r != Some(Err(RejectedTwice))
      ensures device.forgeries >= old(device.forgeries) && old(device.seeds) <= device.seeds
      ensures device.losses == old(device.losses) + if r == Some(Err(PostLost)) then 1 else 0
      ensures old(device.expiries) <= device.expiries <= old(device.expiries) + 1
      ensures Steady(old(device.script)) ==> Steady(device.script)
      ensures Steady(old(device.script)) && device.forgeries == old(device.forgeries) && !old(established) ==>
        device.expiries == old(device.expiries)
      ensures Genuine() ==>
        && Agrees()
        && device.refusals + Owed() == old(device.refusals + Owed()) + device.expiries - old(device.expiries)
        && old(device.refusals) <= device.refusals <= old(device.refusals) + 1
        && (r != Some(Err(PostLost)) ==> !Forgotten())
        && ((r.Some? && Interrupted(r.value))
            || (if !Recognised() && !old(established) then r == Some(Err(Unauthorized))
                else r == if device.refusals == old(device.refusals) then Some(Ok(device.respond(request))) else None))
    {
      sent := [];
      if !established {
        var h := Handshake();
        if h.Err? {
          sent := device.posts[|old(device.posts)|..];
          return Some(Err(h.error)), sent;
        }
        sent := [Handshake1, Handshake2];
      }
      r := Exchange(request);
      sent := sent + [Request(seqNo)];
    }

    /**
     What a call that met no forged reply leaves behind, and what it returned: every time the
     device forgot the session shows as one refused request, unless losing the reply put that off.
     */
    twostate predicate Served(request: bytes, r: Result<bytes, KlapError>)
      reads this, device
    {
      Genuine() ==>
        && Agrees()
        && device.refusals + Owed() == old(device.refusals + Owed()) + device.expiries - old(device.expiries)
        && old(device.refusals) <= device.refusals
        && (r != Err(PostLost) ==> !Forgotten())
        && (!Interrupted(r) && Recognised() ==>
              r == if device.refusals < old(device.refusals) + 2 then Ok(device.respond(request))
                   else Err(RejectedTwice))
        && (!Interrupted(r) && !Recognised() && !old(established) ==> r == Err(Unauthorized))
        && (Steady(old(device.script)) ==> device.refusals <= old(device.refusals) + 1)
    }

    /**
     `Query`. Whatever comes back, it makes at most two passes of at most three posts, goes
     round only after a 403 to a request, and stops dead at a rejected login and at the first
     post that gets no answer. Against a device that follows the protocol and holds a recognised
     login, the caller of an uninterrupted call gets exactly the device's answer to this request
     unless the device refuses it twice, which its own request counter never makes it do.
     */
    method Query(request: bytes)
      returns (r: Result<bytes, KlapError>, ghost first: seq<Post>, ghost second: seq<Post>)
      requires Valid()
      modifies this, device
      ensures Valid()
      ensures IsAttempt(first) && IsAttempt(second) && device.posts == old(device.posts) + first + second
      ensures second != [] ==> first != [] && first[|first| - 1].Request?
      ensures r == Err(Unauthorized) ==> second == [Handshake1] || (first == [Handshake1] && second == [])
      ensures device.forgeries >= old(device.forgeries) && old(device.seeds) <= device.seeds
      ensures device.losses == old(device.losses) + if r == Err(PostLost) then 1 else 0
      ensures old(device.expiries) <= device.expiries <= old(device.expiries) + 2
      ensures Steady(old(device.script)) ==> Steady(device.script)
      ensures Steady(old(device.script)) && device.forgeries == old(device.forgeries) ==>
        device.expiries <= old(device.expiries) + 1
      ensures Served(request, r)
    {
      hide Steady, Recognised, Separated;
      first, second := [], [];
      var attempt := 0;
      while attempt < 2
        invariant 0 <= attempt <= 2 && Valid()
        invariant IsAttempt(first) && IsAttempt(second) && device.posts == old(device.posts) + first + second
        invariant attempt == 0 ==> first == [] && unchanged(this) && unchanged(device)
        invariant attempt < 2 ==> second == []
        invariant attempt > 0 ==> !established && first != [] && first[|first| - 1].Request?
        invariant device.forgeries >= old(device.forgeries) && old(device.seeds) <= device.seeds
        invariant device.losses == old(device.losses)
        invariant old(device.expiries) <= device.expiries <= old(device.expiries) + attempt
        invariant Steady(old(device.script)) ==> Steady(device.script)
        invariant Steady(old(device.script)) && device.forgeries == old(device.forgeries) ==>
          device.expiries <= old(device.expiries) + 1
        invariant Progress(attempt)
      {
        ghost var seeds := device.seeds;
        var outcome; ghost var sent;
        outcome, sent := Attempt(request);
        assert Compatible() ==> forall k :: 0 <= k < |seeds| ==> Separated(seeds[k]) by {
          assert forall k :: 0 <= k < |seeds| ==> seeds[k] == device.seeds[k];
        }
        if attempt == 0 { first := sent; } else { second := sent; }
        if outcome.Some? {
          return outcome.value, first, second;
        }
        attempt := attempt + 1;
      }
      return Err(RejectedTwice), first, second;
    }

    /** The loop of `Query` after this many passes, every one of them refused. */
    twostate predicate Progress(attempt: nat)
      reads this, device
    {
      Genuine() ==>
        && Agrees()
        && device.refusals + Owed() == old(device.refusals + Owed()) + device.expiries - old(device.expiries)
        && device.refusals == old(device.refusals) + attempt
        && (!Recognised() && !old(established) ==> attempt == 0)
        && (Steady(old(device.script)) ==> attempt < 2)
    }

    /**
     Calls one after another, some of them interrupted. As long as no reply is forged, every
     other reply is the device's answer to the request it was asked for, unless the device
     refused that request twice; and the two sides agree at the end of the run.
     */
    method QueryAll(requests: seq<bytes>)
      returns (replies: seq<Result<bytes, KlapError>>, ghost refused: seq<nat>)
      requires Valid()
      modifies this, device
      ensures Valid() && |replies| == |refused| == |requests|
      ensures device.forgeries >= old(device.forgeries) && old(device.seeds) <= device.seeds
      ensures device.losses == old(device.losses) + LostIn(replies)
      ensures Genuine() ==>
        && Agrees() && device.refusals == old(device.refusals) + Sum(refused)
        && Sum(refused) + Owed() == old(Owed()) + device.expiries - old(device.expiries)
      ensures Genuine() && Recognised() ==>
        Answers(device.respond, requests, replies, refused)
      ensures Genuine() && Steady(old(device.script)) ==> OnceEach(refused)
    {
      hide Steady, Recognised, Owed, Agrees, Separated;
      replies, refused := [], [];
      assert Answers(device.respond, requests[..0], [], []) && OnceEach([]);
      hide Answers, OnceEach, Interrupted;
      for n := 0 to |requests|
        invariant Valid() && |replies| == |refused| == n
        invariant device.forgeries >= old(device.forgeries) && old(device.seeds) <= device.seeds
        invariant device.losses == old(device.losses) + LostIn(replies)
        invariant Steady(old(device.script)) ==> Steady(device.script)
        invariant Genuine() ==>
          && Agrees() && device.refusals == old(device.refusals) + Sum(refused)
          && Sum(refused) + Owed() == old(Owed()) + device.expiries - old(device.expiries)
        invariant Genuine() && Recognised() ==>
          Answers(device.respond, requests[..n], replies, refused)
        invariant Genuine() && Steady(old(device.script)) ==> OnceEach(refused)
      {
        label before:
        ghost var seeds, refusals := device.seeds, device.refusals;
        var r; ghost var first, second;
        r, first, second := Query(requests[n]);
        assert Served@before(requests[n], r);
        assert Compatible() ==> forall k :: 0 <= k < |seeds| ==> Separated(seeds[k]) by {
          assert forall k :: 0 <= k < |seeds| ==> seeds[k] == device.seeds[k];
        }
        ghost var count := if device.refusals >= refusals then device.refusals - refusals else 0;
        SumSnoc(refused, count);
        LostSnoc(replies, r);
        if Genuine() && Recognised() {
          AnswersSnoc(device.respond, requests, replies, refused, r, count);
        }
        OnceSnoc(refused, count);
        replies, refused := replies + [r], refused + [count];
      }
      assert requests[..|requests|] == requests;
    }

    method Close()
      requires Valid()
      modifies this
      ensures Valid() && !established && sessionID == None && Agrees()
    {
      established := false;
      sessionID := None;
    }
  }

  /** Every uninterrupted reply answers its own request, unless that was refused twice. */
  ghost predicate Answers(respond: bytes -> bytes, requests: seq<bytes>, replies: seq<Result<bytes, KlapError>>,
      refused: seq<nat>)
  {
    && |requests| == |replies| == |refused|
    && forall i :: 0 <= i < |requests| && !Interrupted(replies[i]) ==>
        replies[i] == if refused[i] < 2 then Ok(respond(requests[i])) else Err(RejectedTwice)
  }

  lemma AnswersSnoc(respond: bytes -> bytes, requests: seq<bytes>, replies: seq<Result<bytes, KlapError>>,
      refused: seq<nat>, r: Result<bytes, KlapError>, count: nat)
    requires |replies| < |requests|
    requires !Interrupted(r) ==> r == if count < 2 then Ok(respond(requests[|replies|])) else Err(RejectedTwice)
    ensures Answers(respond, requests[..|replies|], replies, refused) ==>
      Answers(respond, requests[..|replies| + 1], replies + [r], refused + [count])
  {
  }

  ghost predicate OnceEach(refused: seq<nat>) {
    forall i :: 0 <= i < |refused| ==> refused[i] <= 1
  }

  lemma OnceSnoc(refused: seq<nat>, count: nat)
    ensures OnceEach(refused) && count <= 1 ==> OnceEach(refused + [count])
  {
  }

  /** How many of these calls ended at a post that got no answer. */
  function LostIn(replies: seq<Result<bytes, KlapError>>): nat {
    if replies == [] then 0
    else LostIn(replies[..|replies| - 1]) + if replies[|replies| - 1] == Err(PostLost) then 1 else 0
  }

  lemma LostSnoc(replies: seq<Result<bytes, KlapError>>, r: Result<bytes, KlapError>)
    ensures LostIn(replies + [r]) == LostIn(replies) + if r == Err(PostLost) then 1 else 0
  {
    assert (replies + [r])[..|replies|] == replies;
  }

  function Sum(counts: seq<nat>): nat {
    if counts == [] then 0 else Sum(counts[..|counts| - 1]) + counts[|counts| - 1]
  }

  lemma SumSnoc(counts: seq<nat>, n: nat)
    ensures Sum(counts + [n]) == Sum(counts) + n
  {
    assert (counts + [n])[..|counts|] == counts;
  }
}
