/** The legacy transport on port 9999: the autokey stream and its length-prefixed frame (kasa/xor.go). */
module XorWire {
  import opened Bytes
  import opened Wrappers

  const XOR_KEY: byte := 0xAB
  const MAX_PAYLOAD: nat := 0x10_0000

  // ---------------------------------------------------------------- the stream

  /** Each output byte is the input byte XORed with the previous output byte, seeded with `key`. */
  function Autokey(plain: bytes, key: byte): (cipher: bytes)
    ensures |cipher| == |plain|
  {
    if plain == [] then [] else [Xor(plain[0], key)] + Autokey(plain[1..], Xor(plain[0], key))
  }

  /** Each output byte is the input byte XORed with the previous input byte, seeded with `key`. */
  function Unkey(cipher: bytes, key: byte): (plain: bytes)
    ensures |plain| == |cipher|
  {
    if cipher == [] then [] else [Xor(cipher[0], key)] + Unkey(cipher[1..], cipher[0])
  }

  lemma {:induction false} UnkeyOfAutokey(plain: bytes, key: byte)
    ensures Unkey(Autokey(plain, key), key) == plain
  {
    if plain != [] {
      var c := Xor(plain[0], key);
      XorCancels(plain[0], key);
      UnkeyOfAutokey(plain[1..], c);
      assert Autokey(plain, key)[1..] == Autokey(plain[1..], c);
      assert plain == [plain[0]] + plain[1..];
    }
  }

  lemma {:induction false} AutokeyOfUnkey(cipher: bytes, key: byte)
    ensures Autokey(Unkey(cipher, key), key) == cipher
  {
    if cipher != [] {
      XorCancels(cipher[0], key);
      AutokeyOfUnkey(cipher[1..], cipher[0]);
      assert Unkey(cipher, key)[1..] == Unkey(cipher[1..], cipher[0]);
      assert cipher == [cipher[0]] + cipher[1..];
    }
  }

  /** The two streams are inverse in both directions. */
  lemma StreamsInvert(plain: bytes, cipher: bytes, key: byte)
    ensures Autokey(plain, key) == cipher <==> Unkey(cipher, key) == plain
  {
    UnkeyOfAutokey(plain, key);
    AutokeyOfUnkey(cipher, key);
  }

  /** Position by position: each ciphertext byte chains to the ciphertext byte before it. */
  lemma {:induction false} AutokeyAt(plain: bytes, key: byte, i: nat)
    requires i < |plain|
    ensures Autokey(plain, key)[i] == Xor(plain[i], if i == 0 then key else Autokey(plain, key)[i - 1])
  {
    if i > 0 {
      AutokeyAt(plain[1..], Xor(plain[0], key), i - 1);
    }
  }

  lemma {:induction false} UnkeyAt(cipher: bytes, key: byte, i: nat)
    requires i < |cipher|
    ensures Unkey(cipher, key)[i] == Xor(cipher[i], if i == 0 then key else cipher[i - 1])
  {
    if i > 0 {
      UnkeyAt(cipher[1..], cipher[0], i - 1);
    }
  }

  method XorEncrypt(plain: bytes) returns (out: array<byte>)
    ensures fresh(out) && out[..] == Autokey(plain, XOR_KEY)
  {
    out := new byte[|plain|];
    var key := XOR_KEY;
    ghost var cipher := Autokey(plain, XOR_KEY);
    for i := 0 to |plain|
      invariant key == if i == 0 then XOR_KEY else cipher[i - 1]
      invariant forall j :: 0 <= j < i ==> out[j] == cipher[j]
    {
      AutokeyAt(plain, XOR_KEY, i);
      key := Xor(plain[i], key);
      out[i] := key;
    }
  }

  method XorDecrypt(cipher: bytes) returns (out: array<byte>)
    ensures fresh(out) && out[..] == Unkey(cipher, XOR_KEY)
  {
    out := new byte[|cipher|];
    var key := XOR_KEY;
    for i := 0 to |cipher|
      invariant key == if i == 0 then XOR_KEY else cipher[i - 1]
      invariant forall j :: 0 <= j < i ==> out[j] == Unkey(cipher, XOR_KEY)[j]
    {
      UnkeyAt(cipher, XOR_KEY, i);
      out[i] := Xor(cipher[i], key);
      key := cipher[i];
    }
  }

  // ---------------------------------------------------------------- the frame

  datatype FrameError = TooLarge | ShortHeader | EmptyBody | DeclaredTooLarge | ShortBody

  /** The length prefix is `uint32(len)`, truncated as Go truncates it, then the stream. */
  function Frame(message: bytes): (frame: bytes)
    ensures |frame| == 4 + |message|
  {
    PutUint32(|message| % TWO_32) + Autokey(message, XOR_KEY)
  }

  /** Byte for byte: a big-endian length, then the key cancels itself and leaves the next byte bare. */
  lemma KeyCancelsItself(x: byte)
    ensures Frame([0xAB, x, x]) == [0, 0, 0, 3, 0, x, 0]
  {
    XorSelf(0xAB);
    XorZero(x);
    XorSelf(x);
    hide Xor;
    var message: bytes := [0xAB, x, x];
    assert message[1..] == [x, x] && [x, x][1..] == [x];
    assert Autokey([x], x) == [0] + Autokey([], 0);
    assert Autokey([x, x], 0) == [x] + Autokey([x], x);
    assert Autokey(message, 0xAB) == [0] + Autokey([x, x], 0);
    hide Autokey;
    assert PutUint32(3) == [0, 0, 0, 3];
  }

  /** The request side of `Query` checks the limit before anything is sent. */
  method BuildFrame(request: bytes) returns (r: Result<bytes, FrameError>)
    ensures r == if |request| > MAX_PAYLOAD then Err(TooLarge) else Ok(Frame(request))
  {
    if |request| > MAX_PAYLOAD {
      return Err(TooLarge);
    }
    var frame := new byte[4 + |request|];
    var header := PutUint32(|request| % TWO_32);
    forall i | 0 <= i < 4 {
      frame[i] := header[i];
    }
    var body := XorEncrypt(request);
    forall i | 0 <= i < |request| {
      frame[4 + i] := body[i];
    }
    assert forall i :: 0 <= i < |request| ==> frame[4 + i] == body[i];
    assert body[..] == Autokey(request, XOR_KEY);
    FrameBytes(frame[..], header, body[..]);
    assert frame[..] == header + body[..];
    return Ok(frame[..]);
  }

  lemma FrameBytes(frame: bytes, header: bytes, body: bytes)
    requires |frame| == |header| + |body|
    requires forall i :: 0 <= i < |header| ==> frame[i] == header[i]
    requires forall i :: 0 <= i < |body| ==> frame[|header| + i] == body[i]
    ensures frame == header + body
  {
    forall i | |header| <= i < |frame| ensures frame[i] == body[i - |header|] {
      assert frame[|header| + (i - |header|)] == body[i - |header|];
    }
  }

  /** The reply side of `Query`, over whatever bytes arrive before the connection ends. */
  function Parse(stream: bytes): (r: Result<bytes, FrameError>)
  {
    if |stream| < 4 then Err(ShortHeader)
    else
      var length := Uint32(stream[..4]);
      if length == 0 then Err(EmptyBody)
      else if length > MAX_PAYLOAD then Err(DeclaredTooLarge)
      else if |stream| - 4 < length then Err(ShortBody)
      else Ok(Unkey(stream[4..4 + length], XOR_KEY))
  }

  /**
   A frame parses back to the message it carries, whatever follows it on the stream, exactly
   for the messages of 1 to 2^20 bytes; an empty one and an oversized one are both rejected.
   */
  lemma {:induction false} ParseInvertsFrame(message: bytes, rest: bytes)
    requires |message| < TWO_32
    ensures Parse(Frame(message) + rest) == Ok(message) <==> 0 < |message| <= MAX_PAYLOAD
    ensures |message| == 0 ==> Parse(Frame(message) + rest) == Err(EmptyBody)
    ensures |message| > MAX_PAYLOAD ==> Parse(Frame(message) + rest) == Err(DeclaredTooLarge)
  {
    FrameParts(message, rest);
    Uint32OfPut(|message|);
    StreamsInvert(message, Autokey(message, XOR_KEY), XOR_KEY);
    hide Frame, Autokey, Unkey, PutUint32, Uint32;
  }

  /** The header and the body of a frame, where they lie on the stream. */
  lemma {:induction false} FrameParts(message: bytes, rest: bytes)
    requires |message| < TWO_32
    ensures var stream := Frame(message) + rest;
      && |stream| == 4 + |message| + |rest| && stream[..4] == PutUint32(|message|)
      && stream[4..4 + |message|] == Autokey(message, XOR_KEY)
  {
    hide PutUint32, Autokey;
    var header, body := PutUint32(|message|), Autokey(message, XOR_KEY);
    assert Frame(message) == header + body;
    hide Frame;
    Joined(header, body, rest);
  }

  lemma Joined(a: bytes, b: bytes, c: bytes)
    ensures (a + b + c)[..|a|] == a && (a + b + c)[|a|..|a| + |b|] == b
  {
  }
}
