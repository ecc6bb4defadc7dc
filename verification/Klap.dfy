/** The KLAP derivations and message format (kasa/klap.go), as functions of the exchanged seeds and login. */
module Klap {
  import opened Bytes
  import opened Crypto
  import opened Wrappers

  const LOGIN_V1: int := 1
  const LOGIN_V2: int := 2
  const SEED_LEN: nat := 16
  const HASH_LEN: nat := 32
  const SIG_LEN: nat := 32

  datatype Credentials = Credentials(username: bytes, password: bytes)

  function Ascii(s: string): bytes {
    seq(|s|, i requires 0 <= i < |s| => s[i] as int % 0x80)
  }

  /** The default logins, tried after the operator's own. */
  function Candidates(configured: Credentials): seq<Credentials> {
    [ configured,
      Credentials([], []),
      Credentials(Ascii("kasa@tp-link.net"), Ascii("kasaSetup")),
      Credentials(Ascii("test@tp-link.net"), Ascii("test")) ]
  }

  function AuthHash(p: Primitives, creds: Credentials, loginVersion: int): (hash: bytes)
    ensures |hash| == if loginVersion == LOGIN_V2 then 32 else 16
  {
    if loginVersion == LOGIN_V2 then p.sha256(p.sha1(creds.username) + p.sha1(creds.password))
    else p.md5(p.md5(creds.username) + p.md5(creds.password))
  }

  function CandidateHashes(p: Primitives, configured: Credentials, loginVersion: int): seq<bytes> {
    var logins := Candidates(configured);
    seq(|logins|, i requires 0 <= i < |logins| => AuthHash(p, logins[i], loginVersion))
  }

  /** The proof of the login in the reply to handshake 1, and the one the client sends back. */
  function ServerProof(p: Primitives, localSeed: bytes, remoteSeed: bytes, authHash: bytes): (h: bytes)
    ensures |h| == HASH_LEN
  {
    p.sha256(localSeed + remoteSeed + authHash)
  }

  function ClientProof(p: Primitives, localSeed: bytes, remoteSeed: bytes, authHash: bytes): bytes {
    p.sha256(remoteSeed + localSeed + authHash)
  }

  datatype Session = Session(encKey: bytes, sigKey: bytes, iv: bytes, seq0: int)

  ghost predicate WellFormed(s: Session) {
    |s.encKey| == 16 && |s.sigKey| == 28 && |s.iv| == 12 && -TWO_31 <= s.seq0 < TWO_31
  }

  function Derive(p: Primitives, localSeed: bytes, remoteSeed: bytes, authHash: bytes): (s: Session)
    ensures WellFormed(s)
  {
    var tail := localSeed + remoteSeed + authHash;
    var fullIv := p.sha256(Ascii("iv") + tail);
    Session(p.sha256(Ascii("lsk") + tail)[..16], p.sha256(Ascii("ldk") + tail)[..28],
            fullIv[..12], AsInt32(Uint32(fullIv[28..32])))
  }

  /** Every derivation written out: what is hashed, in which order, and which bytes of it are kept. */
  lemma DerivationsWrittenOut(p: Primitives, l: bytes, r: bytes, creds: Credentials, v: int)
    ensures AuthHash(p, creds, v)
         == if v == 2 then p.sha256(p.sha1(creds.username) + p.sha1(creds.password))
            else p.md5(p.md5(creds.username) + p.md5(creds.password))
    ensures var a, s := AuthHash(p, creds, v), Derive(p, l, r, AuthHash(p, creds, v));
      && ServerProof(p, l, r, a) == p.sha256(l + r + a) && ClientProof(p, l, r, a) == p.sha256(r + l + a)
      && s.encKey == p.sha256([0x6C, 0x73, 0x6B] + (l + r + a))[..16]
      && s.sigKey == p.sha256([0x6C, 0x64, 0x6B] + (l + r + a))[..28]
      && var full := p.sha256([0x69, 0x76] + (l + r + a));
         && s.iv == full[..12] && -0x8000_0000 <= s.seq0 < 0x8000_0000
         && (s.seq0 - (full[28] as int * 0x100_0000 + full[29] as int * 0x1_0000 + full[30] as int * 0x100
                       + full[31] as int)) % 0x1_0000_0000 == 0
  {
    assert Ascii("lsk") == [0x6C, 0x73, 0x6B] && Ascii("ldk") == [0x6C, 0x64, 0x6B] && Ascii("iv") == [0x69, 0x76];
    var full := p.sha256(Ascii("iv") + (l + r + AuthHash(p, creds, v)));
    var word := Uint32(full[28..32]);
    assert full[28..32] == [full[28], full[29], full[30], full[31]];
    SameResidue(AsInt32(word), word);
  }

  // ---------------------------------------------------------------- initialisation vectors

  function BlockIv(prefix: bytes, seqNo: int): (iv: bytes)
    ensures |iv| == |prefix| + 4
  {
    prefix + PutUint32(AsUint32(seqNo))
  }

  /** The int32 counter after `n` increments, wrapping as Go's does. */
  function SequenceAfter(base: int, n: nat): int {
    if n == 0 then base else AsInt32(SequenceAfter(base, n - 1) + 1)
  }

  lemma {:induction false} SequenceIsModular(base: int, n: nat)
    ensures AsUint32(SequenceAfter(base, n)) == AsUint32(base + n)
  {
    if n > 0 {
      SequenceIsModular(base, n - 1);
      SameResidue(SequenceAfter(base, n - 1), base + (n - 1));
      SameResidue(SequenceAfter(base, n - 1) + 1, base + n);
    }
  }

  /**
   Requests i and j of a session share an IV exactly when they are a multiple of 2^32 requests
   apart, however often the int32 counter has wrapped in between.
   */
  lemma IvsCollideExactlyEvery2To32(prefix: bytes, base: int, i: nat, j: nat)
    ensures BlockIv(prefix, SequenceAfter(base, i)) == BlockIv(prefix, SequenceAfter(base, j))
        <==> (i - j) % TWO_32 == 0
  {
    SequenceIsModular(base, i);
    SequenceIsModular(base, j);
    var u, v := AsUint32(base + i), AsUint32(base + j);
    assert BlockIv(prefix, SequenceAfter(base, i))[|prefix|..] == PutUint32(u);
    assert BlockIv(prefix, SequenceAfter(base, j))[|prefix|..] == PutUint32(v);
    PutUint32Injective(u, v);
    SameResidue(base + i, base + j);
  }

  // ---------------------------------------------------------------- messages

  function Sign(p: Primitives, s: Session, seqNo: int, ciphertext: bytes): (sig: bytes)
    ensures |sig| == SIG_LEN
  {
    p.sha256(s.sigKey + PutUint32(AsUint32(seqNo)) + ciphertext)
  }

  /** `klapEncrypt`: signature followed by ciphertext. */
  function Encrypt(p: Primitives, s: Session, payload: bytes, seqNo: int): Result<bytes, CodecError>
    requires |s.iv| == 12
  {
    match Seal(p, s.encKey, BlockIv(s.iv, seqNo), payload)
    case Err(e) => Err(e)
    case Ok(ciphertext) => Ok(Sign(p, s, seqNo, ciphertext) + ciphertext)
  }

  /**
   What goes on the wire: the digest of signing key, big-endian sequence number and ciphertext,
   then the ciphertext, sealed under the IV prefix followed by the same four bytes.
   */
  lemma MessageWrittenOut(p: Primitives, s: Session, payload: bytes, seqNo: int)
    requires WellFormed(s)
    ensures exists number: bytes, c: bytes ::
      && |number| == 4 && (seqNo - (number[0] as int * 0x100_0000 + number[1] as int * 0x1_0000
                                    + number[2] as int * 0x100 + number[3] as int)) % 0x1_0000_0000 == 0
      && Seal(p, s.encKey, s.iv + number, payload) == Ok(c)
      && Encrypt(p, s, payload, seqNo) == Ok(p.sha256(s.sigKey + number + c) + c)
  {
    var u := AsUint32(seqNo);
    var number := PutUint32(u);
    Uint32OfPut(u);
    SameResidue(seqNo, u);
    var c := Seal(p, s.encKey, s.iv + number, payload).value;
    hide PutUint32, Seal;
    assert Encrypt(p, s, payload, seqNo) == Ok(p.sha256(s.sigKey + number + c) + c);
  }

  /** `klapDecrypt`: the signature prefix is dropped without being checked. */
  function Decrypt(p: Primitives, s: Session, body: bytes, seqNo: int): Result<bytes, CodecError>
    requires |s.iv| == 12
  {
    if |body| <= SIG_LEN then Err(TooShort) else Open(p, s.encKey, BlockIv(s.iv, seqNo), body[SIG_LEN..])
  }

  /** The device's side of one request: a status, and a body when the status is 200. */
  function DeviceAnswer(p: Primitives, s: Session, respond: bytes -> bytes, seqNo: int, body: bytes): (int, bytes)
    requires |s.iv| == 12 && |s.encKey| == 16
  {
    if |body| <= SIG_LEN then (400, [])
    else if body[..SIG_LEN] != Sign(p, s, seqNo, body[SIG_LEN..]) then (400, [])
    else match Open(p, s.encKey, BlockIv(s.iv, seqNo), body[SIG_LEN..])
      case Err(_) => (400, [])
      case Ok(plain) => (200, Encrypt(p, s, respond(plain), seqNo).value)
  }

  /** With the same keys on both sides, the device reads the request and the client reads its reply. */
  lemma ExchangeDelivers(p: Primitives, s: Session, respond: bytes -> bytes, seqNo: int, request: bytes)
    requires WellFormed(s)
    ensures Encrypt(p, s, request, seqNo).Ok?
    ensures var (status, reply) := DeviceAnswer(p, s, respond, seqNo, Encrypt(p, s, request, seqNo).value);
            status == 200 && Decrypt(p, s, reply, seqNo) == Ok(respond(request))
  {
    var iv := BlockIv(s.iv, seqNo);
    var out := Seal(p, s.encKey, iv, request).value;
    OpenInvertsSeal(p, s.encKey, iv, request, out);
    var body := Encrypt(p, s, request, seqNo).value;
    assert body[..SIG_LEN] == Sign(p, s, seqNo, out) && body[SIG_LEN..] == out;
    var back := Seal(p, s.encKey, iv, respond(request)).value;
    OpenInvertsSeal(p, s.encKey, iv, respond(request), back);
    var reply := Encrypt(p, s, respond(request), seqNo).value;
    assert reply[SIG_LEN..] == back;
  }

  // ---------------------------------------------------------------- recognising the login

  /** The first candidate whose proof matches the device's. */
  function FirstMatch(p: Primitives, localSeed: bytes, remoteSeed: bytes, proof: bytes,
      hashes: seq<bytes>): Option<bytes>
  {
    if hashes == [] then None
    else if ServerProof(p, localSeed, remoteSeed, hashes[0]) == proof then Some(hashes[0])
    else FirstMatch(p, localSeed, remoteSeed, proof, hashes[1..])
  }

  /**
   Under one pair of seeds, SHA-256 tells the device's login apart from the candidates: the one
   collision-freedom fact a handshake rests on, about the handful of strings it compares.
   */
  ghost predicate Separates(p: Primitives, l: bytes, r: bytes, held: bytes, hashes: seq<bytes>) {
    forall i: nat :: i < |hashes| && ServerProof(p, l, r, hashes[i]) == ServerProof(p, l, r, held) ==> hashes[i] == held
  }

  /** Handshake 1 picks the login the device holds when it is among the candidates, and nothing otherwise. */
  lemma {:induction false} MatchFindsHeldLogin(p: Primitives, l: bytes, r: bytes, held: bytes, hashes: seq<bytes>)
    requires Separates(p, l, r, held, hashes)
    ensures FirstMatch(p, l, r, ServerProof(p, l, r, held), hashes) == if held in hashes then Some(held) else None
  {
    if hashes != [] {
      assert ServerProof(p, l, r, hashes[0]) == ServerProof(p, l, r, held) ==> hashes[0] == held;
      forall i: nat | i < |hashes[1..]| && ServerProof(p, l, r, hashes[1..][i]) == ServerProof(p, l, r, held)
        ensures hashes[1..][i] == held
      {
        assert hashes[1..][i] == hashes[i + 1];
      }
      MatchFindsHeldLogin(p, l, r, held, hashes[1..]);
    }
  }

  /**
   A device on the same login version holding the configured login, the blank one or one of the two
   the vendor ships is recognised, and no other login is tried; the configured one is tried first.
   */
  lemma SharedLoginIsCandidate(p: Primitives, configured: Credentials, loginVersion: int, hash: bytes)
    ensures hash in CandidateHashes(p, configured, loginVersion) <==>
      || hash == AuthHash(p, configured, loginVersion)
      || hash == AuthHash(p, Credentials([], []), loginVersion)
      || hash == AuthHash(p, Credentials(Ascii("kasa@tp-link.net"), Ascii("kasaSetup")), loginVersion)
      || hash == AuthHash(p, Credentials(Ascii("test@tp-link.net"), Ascii("test")), loginVersion)
    ensures CandidateHashes(p, configured, loginVersion)[0] == AuthHash(p, configured, loginVersion)
  {
    var hashes := CandidateHashes(p, configured, loginVersion);
    hide AuthHash, Ascii;
    assert |hashes| == 4;
    assert forall i :: 0 <= i < 4 ==> hashes[i] == AuthHash(p, Candidates(configured)[i], loginVersion);
    assert hash in hashes <==> hash == hashes[0] || hash == hashes[1] || hash == hashes[2] || hash == hashes[3];
  }

  /** The two login versions never produce a common secret, whatever the logins. */
  lemma VersionsNeverAgree(p: Primitives, configured: Credentials, held: Credentials, clientVersion: int,
      deviceVersion: int)
    requires (clientVersion == LOGIN_V2) != (deviceVersion == LOGIN_V2)
    ensures AuthHash(p, held, deviceVersion) !in CandidateHashes(p, configured, clientVersion)
  {
    var hashes := CandidateHashes(p, configured, clientVersion);
    forall i | 0 <= i < |hashes| ensures |hashes[i]| != |AuthHash(p, held, deviceVersion)| {
      assert hashes[i] == AuthHash(p, Candidates(configured)[i], clientVersion);
    }
  }
}
