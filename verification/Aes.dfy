/** The secure-passthrough transport (kasa/aes.go) against a device that may answer anything at all. */
module Aes {
  import opened Bytes
  import opened Crypto
  import opened Wrappers

  const SESSION_LEN: nat := 32

  datatype AesError = Unauthorized | SessionExpired | Failed

  /** `aesErrorFor`: the firmware error codes this layer acts on. */
  function ErrorFor(code: int): Option<AesError> {
    if code == 0 then None
    else if code == -1501 || code == -1002 then Some(Unauthorized)
    else if code == 9999 || code == -1301 then Some(SessionExpired)
    else Some(Failed)
  }

  datatype Post = HandshakePost | LoginPost | RequestPost

  /**
   One reply, decoded. `payload` is what the result member carries once unwrapped: the RSA
   secret of a handshake, the ciphertext of a passthrough, or nothing when it does not decode.
   Any reply with status 200 may set the session cookie.
   */
  datatype Answer =
    | Lost | Status(status: int) | Garbled(cookie: Option<nat>)
    | Envelope(code: int, payload: Option<bytes>, cookie: Option<nat>)

  /** The inner envelope a decrypted reply decodes to; `token` is empty unless it is a login result. */
  datatype Inner = Inner(code: int, token: string)

  /** The n-th answer of a script from now on; after its end nothing comes back. */
  function At(script: seq<Answer>, n: nat): Answer {
    if n < |script| then script[n] else Lost
  }

  function Drop(script: seq<Answer>, n: nat): seq<Answer> {
    if n < |script| then script[n..] else []
  }

  lemma DropThenAt(script: seq<Answer>, n: nat)
    ensures At(Drop(script, n), 0) == At(script, n) && Drop(Drop(script, n), 1) == Drop(script, n + 1)
  {
  }

  class AesDevice {
    var script: seq<Answer>
    ghost var posts: seq<Post>
    ghost var bodies: seq<bytes>
    ghost var cookies: seq<Option<nat>>
    ghost var answers: seq<Answer>

    /** One post. `body` is the ciphertext of a passthrough. */
    method Serve(post: Post, cookie: Option<nat>, body: bytes) returns (answer: Answer)
      modifies this
      ensures posts == old(posts) + [post] && bodies == old(bodies) + [body] && cookies == old(cookies) + [cookie]
      ensures answers == old(answers) + [answer]
      ensures answer == At(old(script), 0) && script == Drop(old(script), 1)
    {
      answer := if script == [] then Lost else script[0];
      script := if script == [] then [] else script[1..];
      posts, bodies, cookies := posts + [post], bodies + [body], cookies + [cookie];
      answers := answers + [answer];
    }
  }

  /** The posts of one pass: a handshake with up to two logins, then one request, cut short anywhere. */
  ghost predicate IsAttempt(posts: seq<Post>) {
    || posts <= [HandshakePost, LoginPost, LoginPost]
    || posts == [RequestPost]
    || posts == [HandshakePost, LoginPost, RequestPost]
    || posts == [HandshakePost, LoginPost, LoginPost, RequestPost]
  }

  class AesTransport {
    const crypto: Primitives
    const decode: bytes -> Option<Inner>
    const device: AesDevice

    var key: bytes
    var iv: bytes
    var token: string
    var sessionID: Option<nat>
    var established: bool

    constructor (crypto: Primitives, decode: bytes -> Option<Inner>, device: AesDevice)
      ensures Valid() && !established && this.device == device
    {
      this.crypto, this.decode, this.device := crypto, decode, device;
      key, iv, token, sessionID, established := [], [], "", None, false;
    }

    /** Between calls: an established session has its key, its IV and a token. */
    ghost predicate Valid()
      reads this
    {
      established ==> |key| == 16 && |iv| == 16 && token != ""
    }

    // -------------------------------------------------------------- what a script of answers leads to

    /** Under a 32-byte secret, this answer carries the payload x, with no error inside or out. */
    ghost predicate Gives(secret: bytes, a: Answer, x: bytes)
      requires |secret| == 32
    {
      && a.Envelope? && a.code == 0 && a.payload.Some?
      && Seal(crypto, secret[..16], secret[16..], x) == Ok(a.payload.value)
      && decode(x).Some? && decode(x).value.code == 0
    }

    /** This answer says that the session has expired, in the open or inside the ciphertext. */
    ghost predicate Expires(secret: bytes, a: Answer)
      requires |secret| == 32
    {
      && a.Envelope?
      && (|| a.code == 9999 || a.code == -1301
          || (a.code == 0 && a.payload.Some? && exists x: bytes ::
                && Seal(crypto, secret[..16], secret[16..], x) == Ok(a.payload.value) && decode(x).Some?
                && (decode(x).value.code == 9999 || decode(x).value.code == -1301)))
    }

    ghost predicate LogsIn(secret: bytes, a: Answer)
      requires |secret| == 32
    {
      exists x :: Gives(secret, a, x) && decode(x).value.token != ""
    }

    ghost predicate HandsOver(a: Answer, secret: bytes) {
      a.Envelope? && a.code == 0 && a.payload == Some(secret) && |secret| == 32
    }

    /** The session a pass sends its request under, and how many answers it took to have one. */
    ghost predicate Sets(session: Option<bytes>, script: seq<Answer>, secret: bytes, n: nat)
      requires |secret| == 32
    {
      match session
      case Some(kept) => kept == secret && n == 0
      case None =>
        && HandsOver(At(script, 0), secret)
        && if LogsIn(secret, At(script, 1)) then n == 2 else n == 3 && LogsIn(secret, At(script, 2))
    }

    /** The device hands over a secret and then takes neither shape of the login. */
    ghost predicate Rejects(script: seq<Answer>) {
      exists secret: bytes | |secret| == 32 ::
        HandsOver(At(script, 0), secret) && !LogsIn(secret, At(script, 1)) && !LogsIn(secret, At(script, 2))
    }

    ghost predicate PassGives(session: Option<bytes>, script: seq<Answer>, x: bytes) {
      exists secret: bytes, n: nat | |secret| == 32 ::
        Sets(session, script, secret, n) && Gives(secret, At(script, n), x)
    }

    ghost predicate PassExpires(session: Option<bytes>, script: seq<Answer>, rest: seq<Answer>) {
      exists secret: bytes, n: nat | |secret| == 32 ::
        Sets(session, script, secret, n) && Expires(secret, At(script, n)) && rest == Drop(script, n + 1)
    }

    /** What an answer opens to decides, under any one secret. */
    lemma AnswerRead(key: bytes, iv: bytes, a: Answer)
      requires |key| == |iv| == 16
      ensures var plain := if a.Envelope? && a.code == 0 && a.payload.Some? then Open(crypto, key, iv, a.payload.value)
                           else Err(TooShort);
        && (forall x :: Gives(key + iv, a, x) <==> plain == Ok(x) && decode(x).Some? && decode(x).value.code == 0)
        && (Expires(key + iv, a) <==>
              && a.Envelope?
              && (|| a.code == 9999 || a.code == -1301
                  || (plain.Ok? && decode(plain.value).Some?
                      && (decode(plain.value).value.code == 9999 || decode(plain.value).value.code == -1301))))
    {
      hide Open, Seal;
      assert (key + iv)[..16] == key && (key + iv)[16..] == iv;
      if a.Envelope? && a.payload.Some? {
        forall x: bytes
          ensures Open(crypto, key, iv, a.payload.value) == Ok(x) <==> Seal(crypto, key, iv, x) == Ok(a.payload.value)
        {
          OpenInvertsSeal(crypto, key, iv, x, a.payload.value);
        }
      }
    }

    lemma SetsOnce(session: Option<bytes>, script: seq<Answer>, secret: bytes, n: nat, other: bytes, m: nat)
      requires |secret| == |other| == 32 && Sets(session, script, secret, n) && Sets(session, script, other, m)
      ensures secret == other && n == m
    {
      hide LogsIn;
    }

    lemma NotBoth(secret: bytes, a: Answer, x: bytes)
      requires |secret| == 32 && Gives(secret, a, x)
      ensures !Expires(secret, a) && forall y :: Gives(secret, a, y) ==> y == x
    {
      AnswerRead(secret[..16], secret[16..], a);
      assert secret[..16] + secret[16..] == secret;
    }

    /** Once a session is set up, its one answer decides the pass. */
    lemma PassDecided(session: Option<bytes>, script: seq<Answer>, secret: bytes, n: nat)
      requires |secret| == 32 && Sets(session, script, secret, n)
      ensures forall x :: PassGives(session, script, x) <==> Gives(secret, At(script, n), x)
      ensures forall rest :: PassExpires(session, script, rest) <==>
        Expires(secret, At(script, n)) && rest == Drop(script, n + 1)
    {
      hide Sets, Gives, Expires;
      forall other: bytes, m: nat | |other| == 32 && Sets(session, script, other, m) ensures other == secret && m == n {
        SetsOnce(session, script, secret, n, other, m);
      }
    }

    /** Without a session nothing is given, and nothing expires. */
    lemma NothingSet(script: seq<Answer>)
      requires forall secret: bytes, n: nat | |secret| == 32 :: !Sets(None, script, secret, n)
      ensures forall x :: !PassGives(None, script, x)
      ensures forall rest :: !PassExpires(None, script, rest)
    {
      hide Sets, Gives, Expires;
    }

    /** A pass that expired gives nothing, and leaves one script behind. */
    lemma ExpiryExcludes(session: Option<bytes>, script: seq<Answer>, rest: seq<Answer>)
      requires PassExpires(session, script, rest)
      ensures forall x :: !PassGives(session, script, x)
      ensures forall other :: PassExpires(session, script, other) ==> other == rest
    {
      var secret: bytes, n: nat :| |secret| == 32
        && Sets(session, script, secret, n) && Expires(secret, At(script, n)) && rest == Drop(script, n + 1);
      PassDecided(session, script, secret, n);
      hide Sets, Expires, Gives, PassGives, PassExpires;
      forall x ensures !Gives(secret, At(script, n), x) {
        if Gives(secret, At(script, n), x) {
          NotBoth(secret, At(script, n), x);
        }
      }
    }

    lemma KeptSession(secret: bytes, script: seq<Answer>)
      requires |secret| == 32
      ensures Sets(Some(secret), script, secret, 0) && Drop(script, 0) == script
    {
    }

    ghost function Session(): (session: Option<bytes>)
      requires Valid()
      reads this
      ensures session.Some? ==> |session.value| == 32
    {
      if established then Some(key + iv) else None
    }

    /** `post`: the result member of one exchange. */
    method DoPost(post: Post, body: bytes) returns (r: Result<Option<bytes>, AesError>)
      modifies this`sessionID, device
      ensures device.posts == old(device.posts) + [post] && device.bodies == old(device.bodies) + [body]
      ensures device.cookies == old(device.cookies) + [old(sessionID)]
      ensures sessionID != old(sessionID) ==> sessionID.Some?
      ensures device.script == Drop(old(device.script), 1)
      ensures var a := At(old(device.script), 0);
        && (r.Ok? <==> a.Envelope? && a.code == 0) && (r.Ok? ==> r.value == a.payload)
        && (r == Err(SessionExpired) <==> a.Envelope? && (a.code == 9999 || a.code == -1301))
        && (r == Err(Unauthorized) <==> a.Envelope? && (a.code == -1501 || a.code == -1002))
      ensures r.Ok? ==>
        |device.answers| > 0 && device.answers[|device.answers| - 1].Envelope?
            && device.answers[|device.answers| - 1].payload == r.value
      ensures r == Err(SessionExpired) ==>
        && |device.answers| > 0 && device.answers[|device.answers| - 1].Envelope?
        && ErrorFor(device.answers[|device.answers| - 1].code) == Some(SessionExpired)
    {
      var answer := device.Serve(post, sessionID, body);
      if (answer.Garbled? || answer.Envelope?) && answer.cookie.Some? {
        sessionID := answer.cookie;
      }
      if !answer.Envelope? {
        return Err(Failed);
      }
      match ErrorFor(answer.code)
      case Some(e) => return Err(e);
      case None => return Ok(answer.payload);
    }

    /**
     The device was last sent exactly the ciphertext that opens to this request under the session
     key, and `reply` is the one payload whose sealing is what it answered.
     */
    ghost predicate Delivered(request: bytes, reply: bytes)
      reads this, device
    {
      && |iv| == 16 && |device.bodies| > 0 && |device.answers| > 0
      && Open(crypto, key, iv, device.bodies[|device.bodies| - 1]) == Ok(request)
      && device.answers[|device.answers| - 1].Envelope? && device.answers[|device.answers| - 1].payload.Some?
      && Seal(crypto, key, iv, reply) == Ok(device.answers[|device.answers| - 1].payload.value)
    }

    /** The reply inside a ciphertext, unless its own envelope reports an error. */
    method Unwrap(raw: bytes) returns (r: Result<bytes, AesError>)
      requires |key| == |iv| == 16
      ensures forall x :: r == Ok(x) <==>
        Open(crypto, key, iv, raw) == Ok(x) && decode(x).Some? && decode(x).value.code == 0
      ensures r == Err(SessionExpired) <==>
        && Open(crypto, key, iv, raw).Ok? && decode(Open(crypto, key, iv, raw).value).Some?
        && var code := decode(Open(crypto, key, iv, raw).value).value.code; code == 9999 || code == -1301
    {
      hide Open;
      var plain := Open(crypto, key, iv, raw);
      if plain.Err? || decode(plain.value).None? {
        return Err(Failed);
      }
      match ErrorFor(decode(plain.value).value.code)
      case Some(e) => return Err(e);
      case None => return Ok(plain.value);
    }

    /** `passthrough`: the decrypted reply to one sealed request. */
    method Passthrough(post: Post, request: bytes) returns (r: Result<bytes, AesError>)
      requires |key| == 16 && |iv| == 16
      modifies this`sessionID, device
      ensures device.posts == old(device.posts) + [post] && device.cookies == old(device.cookies) + [old(sessionID)]
      ensures r.Ok? ==> decode(r.value).Some? && ErrorFor(decode(r.value).value.code) == None
      ensures r.Ok? ==> Delivered(request, r.value)
      ensures exists body :: device.bodies == old(device.bodies) + [body] && Open(crypto, key, iv, body) == Ok(request)
      ensures device.script == Drop(old(device.script), 1)
      ensures forall x :: r == Ok(x) <==> Gives(key + iv, At(old(device.script), 0), x)
      ensures r == Err(SessionExpired) <==> Expires(key + iv, At(old(device.script), 0))
    {
      hide Gives, Expires, Open, Seal;
      ghost var a := At(device.script, 0);
      AnswerRead(key, iv, a);
      var sealed := Seal(crypto, key, iv, request);
      OpenInvertsSeal(crypto, key, iv, request, sealed.value);
      var result := DoPost(post, sealed.value);
      if result.Err? {
        return Err(result.error);
      }
      if result.value.None? {
        return Err(Failed);
      }
      r := Unwrap(result.value.value);
      if r.Ok? {
        OpenInvertsSeal(crypto, key, iv, r.value, result.value.value);
      }
    }

    /** `login`: both shapes are tried; whatever the last failure was, failing both is a rejection. */
    method Login(shapes: seq<bytes>) returns (r: Result<(), AesError>, ghost logins: seq<Post>)
      requires |shapes| == 2 && |key| == 16 && |iv| == 16 && established && token == ""
      modifies this`token, this`sessionID, this`established, device
      ensures device.posts == old(device.posts) + logins && old(device.cookies) <= device.cookies
      ensures logins == [LoginPost] || logins == [LoginPost, LoginPost]
      ensures r.Ok? ==> established && token != ""
      ensures r.Err? ==> r.error == Unauthorized && !established && logins == [LoginPost, LoginPost]
      ensures device.script == Drop(old(device.script), |logins|)
      ensures |device.bodies| == |old(device.bodies)| + |logins|
      ensures forall i :: 0 <= i < |logins| ==>
        Open(crypto, key, iv, device.bodies[|old(device.bodies)| + i]) == Ok(shapes[i])
      ensures LogsIn(key + iv, At(old(device.script), 0)) ==> r.Ok? && |logins| == 1
      ensures !LogsIn(key + iv, At(old(device.script), 0)) ==>
        |logins| == 2 && (r.Ok? <==> LogsIn(key + iv, At(old(device.script), 1)))
    {
      hide Gives, Delivered, Open;
      logins := [];
      for i := 0 to |shapes|
        invariant device.posts == old(device.posts) + logins && established && old(device.cookies) <= device.cookies
        invariant logins == if i == 0 then [] else if i == 1 then [LoginPost] else [LoginPost, LoginPost]
        invariant token == "" && device.script == Drop(old(device.script), i)
        invariant |device.bodies| == |old(device.bodies)| + i
        invariant forall j :: 0 <= j < i ==>
          Open(crypto, key, iv, device.bodies[|old(device.bodies)| + j]) == Ok(shapes[j])
        invariant forall j :: 0 <= j < i ==> !LogsIn(key + iv, At(old(device.script), j))
      {
        var plain := Passthrough(LoginPost, shapes[i]);
        assert LogsIn(key + iv, At(old(device.script), i)) <==>
          plain.Ok? && decode(plain.value).value.token != "";
        logins := logins + [LoginPost];
        if plain.Ok? && decode(plain.value).value.token != "" {
          token := decode(plain.value).value.token;
          return Ok(()), logins;
        }
      }
      established := false;
      return Err(Unauthorized), logins;
    }

    method Connect(shapes: seq<bytes>) returns (r: Result<(), AesError>, ghost sent: seq<Post>)
      requires |shapes| == 2 && !established
      modifies this, device
      ensures Valid() && established == r.Ok? && device.posts == old(device.posts) + sent
      ensures old(device.cookies) + [None] <= device.cookies
      ensures r.Ok? ==> sent == [HandshakePost, LoginPost] || sent == [HandshakePost, LoginPost, LoginPost]
      ensures r.Err? ==> sent == [HandshakePost] || sent == [HandshakePost, LoginPost, LoginPost]
      ensures r.Ok? ==>
        Sets(None, old(device.script), key + iv, |sent|) && device.script == Drop(old(device.script), |sent|)
      ensures r.Err? ==> forall secret: bytes, n: nat | |secret| == 32 :: !Sets(None, old(device.script), secret, n)
      ensures Rejects(old(device.script)) ==> r == Err(Unauthorized)
    {
      hide LogsIn;
      token, sessionID := "", None;
      var result := DoPost(HandshakePost, []);
      sent := [HandshakePost];
      if result.Err? {
        return Err(result.error), sent;
      }
      if result.value.None? || |result.value.value| != SESSION_LEN {
        return Err(Failed), sent;
      }
      key, iv := result.value.value[..16], result.value.value[16..];
      assert key + iv == result.value.value;
      established := true;
      ghost var logins;
      r, logins := Login(shapes);
      sent := sent + logins;
    }

    /** The request of one pass, over the session set up for it. */
    method Ask(request: bytes, ghost session: Option<bytes>, ghost script: seq<Answer>, ghost n: nat)
      returns (r: Option<Result<bytes, AesError>>)
      requires Valid() && established
      requires Sets(session, script, key + iv, n) && device.script == Drop(script, n)
      modifies this`established, this`sessionID, device
      ensures Valid() && (established <==> r.Some?) && device.posts == old(device.posts) + [RequestPost]
      ensures r.Some? && r.value.Err? ==> r.value.error != SessionExpired
      ensures r.Some? && r.value.Ok? ==>
        && decode(r.value.value).Some? && ErrorFor(decode(r.value.value).value.code) == None
        && Delivered(request, r.value.value)
      ensures forall x :: r == Some(Ok(x)) <==> PassGives(session, script, x)
      ensures r.None? ==> PassExpires(session, script, device.script)
      ensures (exists rest :: PassExpires(session, script, rest)) ==> r.None?
    {
      hide Sets, Gives, Expires, LogsIn, Delivered, PassGives, PassExpires;
      PassDecided(session, script, key + iv, n);
      DropThenAt(script, n);
      var plain := Passthrough(RequestPost, request);
      if plain.Err? && plain.error.SessionExpired? {
        established := false;
        return None;
      }
      return Some(plain);
    }

    /** One pass of the loop in `Query`: `None` means the device said the session has expired. */
    method Attempt(request: bytes, shapes: seq<bytes>)
        returns (r: Option<Result<bytes, AesError>>, ghost sent: seq<Post>)
      requires Valid() && |shapes| == 2
      modifies this, device
      ensures Valid() && IsAttempt(sent) && device.posts == old(device.posts) + sent
      ensures !old(established) ==> sent != [] && sent[0] == HandshakePost
      ensures r.None? ==> !established && sent != [] && sent[|sent| - 1] == RequestPost
      ensures r.Some? && r.value.Ok? ==> established
      ensures r.Some? && r.value.Err? && sent != [] && sent[|sent| - 1] == RequestPost ==>
          r.value.error != SessionExpired
      ensures r.Some? && r.value.Ok? ==>
          decode(r.value.value).Some? && ErrorFor(decode(r.value.value).value.code) == None
      ensures r.Some? && r.value.Ok? ==>
          sent != [] && sent[|sent| - 1] == RequestPost && Delivered(request, r.value.value)
      ensures forall x :: r == Some(Ok(x)) <==> PassGives(old(Session()), old(device.script), x)
      ensures old(Session()).None? && Rejects(old(device.script)) ==> r == Some(Err(Unauthorized))
      ensures r.None? ==> PassExpires(old(Session()), old(device.script), device.script)
      ensures (exists rest :: PassExpires(old(Session()), old(device.script), rest)) ==> r.None?
    {
      hide Sets, Delivered, Rejects, PassGives, PassExpires;
      sent := [];
      ghost var session, script, n := Session(), device.script, 0;
      if !established {
        var connected;
        connected, sent := Connect(shapes);
        if connected.Err? {
          NothingSet(script);
          return Some(Err(connected.error)), sent;
        }
        n := |sent|;
      } else {
        KeptSession(session.value, script);
      }
      r := Ask(request, session, script, n);
      sent := sent + [RequestPost];
    }

    /**
     `Query`. Whatever the device answers, it ends within two passes of at most four posts, goes
     round only when the request itself was answered with an expired session, so a rejected
     login or a failed handshake is never retried, and leaves no half-built session behind.
     */
    method Query(request: bytes, shapes: seq<bytes>)
      returns (r: Result<bytes, AesError>, ghost first: seq<Post>, ghost second: seq<Post>)
      requires Valid() && |shapes| == 2
      modifies this, device
      ensures Valid()
      ensures IsAttempt(first) && IsAttempt(second) && device.posts == old(device.posts) + first + second
      ensures |device.posts| <= |old(device.posts)| + 8
      ensures second != [] ==> first != [] && first[|first| - 1] == RequestPost && second[0] == HandshakePost
      ensures r.Ok? ==> established && decode(r.value).Some? && ErrorFor(decode(r.value).value.code) == None
      ensures r.Ok? ==> Delivered(request, r.value)
      ensures second != [] <==> exists rest :: PassExpires(old(Session()), old(device.script), rest)
      ensures forall x :: r == Ok(x) <==>
        || PassGives(old(Session()), old(device.script), x)
        || exists rest :: PassExpires(old(Session()), old(device.script), rest) && PassGives(None, rest, x)
      ensures old(Session()).None? && Rejects(old(device.script)) ==> r == Err(Unauthorized)
      ensures forall rest :: PassExpires(old(Session()), old(device.script), rest) && Rejects(rest) ==>
        r == Err(Unauthorized)
    {
      hide Sets, PassGives, PassExpires, Delivered, Rejects;
      first, second := [], [];
      var attempt := 0;
      ghost var session, script, rest := Session(), device.script, device.script;
      while attempt < 2
        invariant 0 <= attempt <= 2 && Valid()
        invariant IsAttempt(first) && IsAttempt(second) && device.posts == old(device.posts) + first + second
        invariant attempt == 0 ==> first == [] && Session() == session && rest == device.script == script
        invariant attempt < 2 ==> second == []
        invariant attempt > 0 ==> !established && first != [] && first[|first| - 1] == RequestPost
        invariant attempt > 0 ==> PassExpires(session, script, rest) && forall x :: !PassGives(session, script, x)
        invariant attempt > 0 ==> forall other :: PassExpires(session, script, other) ==> other == rest
        invariant attempt == 1 ==> device.script == rest
        invariant attempt == 2 ==>
          second != [] && second[0] == HandshakePost && forall x :: !PassGives(None, rest, x)
        invariant attempt > 0 ==> !(session.None? && Rejects(script))
        invariant attempt == 2 ==> !Rejects(rest)
      {
        ghost var kept, before := Session(), device.script;
        var outcome; ghost var sent;
        outcome, sent := Attempt(request, shapes);
        if attempt == 0 { first := sent; } else { second := sent; }
        if outcome.Some? {
          return outcome.value, first, second;
        }
        ExpiryExcludes(kept, before, device.script);
        rest := if attempt == 0 then device.script else rest;
        attempt := attempt + 1;
      }
      return Err(Failed), first, second;
    }

    method Close()
      modifies this
      ensures Valid() && !established && token == "" && sessionID == None
    {
      established := false;
      token, sessionID := "", None;
    }
  }
}
