/**
 The cryptographic layer: PKCS#7 padding (section 6.3 of RFC 5652) and the cipher block
 chaining mode (section 6.2 of NIST SP 800-38A) around block and digest primitives that are
 parameters, constrained only by their lengths and by decryption undoing encryption.
 */
module Crypto {
  import opened Bytes
  import opened Wrappers

  const BLOCK: nat := 16

  datatype RawPrimitives = RawPrimitives(
    sha256: bytes -> bytes, sha1: bytes -> bytes, md5: bytes -> bytes,
    encryptBlock: (bytes, bytes) -> bytes, decryptBlock: (bytes, bytes) -> bytes)

  ghost predicate Lawful(p: RawPrimitives)
  {
    && (forall x :: |p.sha256(x)| == 32)
    && (forall x :: |p.sha1(x)| == 20)
    && (forall x :: |p.md5(x)| == 16)
    && (forall k, b :: |b| == BLOCK ==> |p.encryptBlock(k, b)| == BLOCK && p.decryptBlock(k, p.encryptBlock(k, b)) == b)
    && (forall k, b :: |b| == BLOCK ==> |p.decryptBlock(k, b)| == BLOCK && p.encryptBlock(k, p.decryptBlock(k, b)) == b)
  }

  type Primitives = p: RawPrimitives | Lawful(p)
    ghost witness RawPrimitives(_ => Repeat(0, 32), _ => Repeat(0, 20), _ => Repeat(0, 16), (_, b) => b, (_, b) => b)

  /** The key lengths `aes.NewCipher` accepts. */
  predicate AcceptedKey(key: bytes) {
    |key| == 16 || |key| == 24 || |key| == 32
  }

  datatype CodecError = BadKeyLength | TooShort | NotBlockAligned | BadPadLength | BadPadBytes

  // ---------------------------------------------------------------- padding

  function Pad(data: bytes, blockSize: nat): (padded: bytes)
    requires 0 < blockSize < 0x100
    ensures |padded| % blockSize == 0 && |data| < |padded| <= |data| + blockSize
    ensures padded[..|data|] == data && forall i :: |data| <= i < |padded| ==> padded[i] == |padded| - |data|
  {
    var n := blockSize - |data| % blockSize;
    PaddedLength(|data|, blockSize);
    data + Repeat(n, n)
  }

  lemma PaddedLength(len: nat, blockSize: nat)
    requires 0 < blockSize
    ensures (len + (blockSize - len % blockSize)) % blockSize == 0
  {
    var q := len / blockSize;
    assert len + (blockSize - len % blockSize) == (q + 1) * blockSize;
    MultipleHasNoRemainder(q + 1, blockSize);
  }

  lemma {:induction false} MultipleHasNoRemainder(q: nat, b: nat)
    requires 0 < b
    ensures q * b % b == 0
  {
    if q > 0 {
      MultipleHasNoRemainder(q - 1, b);
      assert q * b == (q - 1) * b + b;
      ModAddSelf((q - 1) * b, b);
    }
  }

  lemma ModAddSelf(x: nat, b: nat)
    requires 0 < b
    ensures (x + b) % b == x % b
  {
    assert x + b == (x / b + 1) * b + x % b;
    QuotientUnique(x + b, x / b + 1, x % b, b);
  }

  lemma QuotientUnique(x: int, q: int, r: int, b: int)
    requires 0 <= r < b && x == q * b + r
    ensures x / b == q && x % b == r
  {
    var d := x / b - q;
    assert d * b == r - x % b;
    if d > 0 {
      TimesAtLeast(d, b);
    } else if d < 0 {
      TimesAtLeast(-d, b);
    }
  }

  lemma TimesAtLeast(d: int, b: int)
    requires d >= 1 && b >= 0
    ensures d * b >= b
  {
    assert d * b == (d - 1) * b + b;
  }

  function Unpad(data: bytes, blockSize: nat): (r: Result<bytes, CodecError>)
    requires 0 < blockSize < 0x100
  {
    if |data| == 0 || |data| % blockSize != 0 then Err(NotBlockAligned)
    else
      var n := data[|data| - 1];
      if n == 0 || n > blockSize || n > |data| then Err(BadPadLength)
      else if exists i | |data| - n <= i < |data| :: data[i] != n then Err(BadPadBytes)
      else Ok(data[..|data| - n])
  }

  lemma UnpadOfPad(data: bytes, blockSize: nat)
    requires 0 < blockSize < 0x100
    ensures Unpad(Pad(data, blockSize), blockSize) == Ok(data)
  {
    var n := blockSize - |data| % blockSize;
    var x := Pad(data, blockSize);
    assert forall i | |x| - n <= i < |x| :: x[i] == n;
    assert x[..|x| - n] == data;
  }

  lemma PadOfUnpad(x: bytes, blockSize: nat)
    requires 0 < blockSize < 0x100
    ensures Unpad(x, blockSize).Ok? ==> Pad(Unpad(x, blockSize).value, blockSize) == x
  {
    if Unpad(x, blockSize).Ok? {
      var n := x[|x| - 1];
      PadLengthFromTotal(|x|, n, blockSize);
      TrailerRepeats(x, n);
    }
  }

  lemma TrailerRepeats(x: bytes, n: byte)
    requires n <= |x| && forall i | |x| - n <= i < |x| :: x[i] == n
    ensures x == x[..|x| - n] + Repeat(n, n)
  {
  }

  /** Padding and unpadding are two-way inverses: exactly the padded strings unpad. */
  lemma UnpadInvertsPad(x: bytes, data: bytes, blockSize: nat)
    requires 0 < blockSize < 0x100
    ensures Unpad(x, blockSize) == Ok(data) <==> x == Pad(data, blockSize)
  {
    UnpadOfPad(data, blockSize);
    PadOfUnpad(x, blockSize);
  }

  lemma PadLengthFromTotal(total: nat, n: nat, blockSize: nat)
    requires 0 < blockSize && total % blockSize == 0 && 0 < n <= blockSize && n <= total
    ensures blockSize - (total - n) % blockSize == n
  {
    var q := total / blockSize;
    assert total - n == (q - 1) * blockSize + (blockSize - n);
    QuotientUnique(total - n, q - 1, blockSize - n, blockSize);
  }

  // ---------------------------------------------------------------- chaining

  function XorBlocks(a: bytes, b: bytes): (c: bytes)
    requires |a| == |b|
    ensures |c| == |a|
  {
    seq(|a|, i requires 0 <= i < |a| => Xor(a[i], b[i]))
  }

  lemma XorBlocksCancel(a: bytes, b: bytes)
    requires |a| == |b|
    ensures XorBlocks(XorBlocks(a, b), b) == a
  {
    forall i | 0 <= i < |a| ensures XorBlocks(XorBlocks(a, b), b)[i] == a[i] {
      XorCancels(a[i], b[i]);
    }
  }

  lemma XorBlocksCommute(a: bytes, b: bytes)
    requires |a| == |b|
    ensures XorBlocks(a, b) == XorBlocks(b, a)
  {
    forall i | 0 <= i < |a| ensures XorBlocks(a, b)[i] == XorBlocks(b, a)[i] {
      XorCommutes(a[i], b[i]);
    }
  }

  /** Bit by bit, a byte of the one against the byte of the other in its place. */
  lemma XorBlocksAt(a: bytes, b: bytes, i: nat, k: nat)
    requires |a| == |b| && i < |a| && k < 8
    ensures Bit(XorBlocks(a, b)[i], k) == if Bit(a[i], k) == Bit(b[i], k) then 0 else 1
  {
    XorAt(a[i], b[i], k);
  }

  function Block(data: bytes, i: nat): (block: bytes)
    requires BLOCK * (i + 1) <= |data|
    ensures |block| == BLOCK
  {
    data[BLOCK * i..BLOCK * (i + 1)]
  }

  lemma BlockOfJoin(head: bytes, tail: bytes, i: nat)
    requires |head| == BLOCK && BLOCK * (i + 1) <= BLOCK + |tail|
    ensures Block(head + tail, i) == if i == 0 then head else Block(tail, i - 1)
  {
  }

  function CbcEncrypt(p: Primitives, key: bytes, iv: bytes, data: bytes): (out: bytes)
    requires |iv| == BLOCK && |data| % BLOCK == 0
    ensures |out| == |data|
    decreases |data|
  {
    if data == [] then []
    else
      var c := p.encryptBlock(key, XorBlocks(data[..BLOCK], iv));
      c + CbcEncrypt(p, key, c, data[BLOCK..])
  }

  function CbcDecrypt(p: Primitives, key: bytes, iv: bytes, data: bytes): (out: bytes)
    requires |iv| == BLOCK && |data| % BLOCK == 0
    ensures |out| == |data|
    decreases |data|
  {
    if data == [] then []
    else
      var c := data[..BLOCK];
      XorBlocks(p.decryptBlock(key, c), iv) + CbcDecrypt(p, key, c, data[BLOCK..])
  }

  lemma {:induction false} CbcDecryptInvertsEncrypt(p: Primitives, key: bytes, iv: bytes, data: bytes)
    requires |iv| == BLOCK && |data| % BLOCK == 0
    ensures CbcDecrypt(p, key, iv, CbcEncrypt(p, key, iv, data)) == data
    decreases |data|
  {
    if data != [] {
      var head, rest := data[..BLOCK], data[BLOCK..];
      var c := p.encryptBlock(key, XorBlocks(head, iv));
      var out := CbcEncrypt(p, key, iv, data);
      assert out[..BLOCK] == c && out[BLOCK..] == CbcEncrypt(p, key, c, rest);
      XorBlocksCancel(head, iv);
      CbcDecryptInvertsEncrypt(p, key, c, rest);
      assert head + rest == data;
    }
  }

  lemma {:induction false} CbcEncryptInvertsDecrypt(p: Primitives, key: bytes, iv: bytes, data: bytes)
    requires |iv| == BLOCK && |data| % BLOCK == 0
    ensures CbcEncrypt(p, key, iv, CbcDecrypt(p, key, iv, data)) == data
    decreases |data|
  {
    if data != [] {
      var c, rest := data[..BLOCK], data[BLOCK..];
      var plain := XorBlocks(p.decryptBlock(key, c), iv);
      var out := CbcDecrypt(p, key, iv, data);
      assert out[..BLOCK] == plain && out[BLOCK..] == CbcDecrypt(p, key, c, rest);
      XorBlocksCancel(p.decryptBlock(key, c), iv);
      CbcEncryptInvertsDecrypt(p, key, c, rest);
      assert c + rest == data;
    }
  }

  /** The first block and the blocks after it. */
  lemma HeadAndRest(data: bytes, i: nat)
    requires |data| % BLOCK == 0 && BLOCK * (i + 1) <= |data|
    ensures data == data[..BLOCK] + data[BLOCK..] && |data[BLOCK..]| % BLOCK == 0
    ensures Block(data, i) == if i == 0 then data[..BLOCK] else Block(data[BLOCK..], i - 1)
  {
    BlockOfJoin(data[..BLOCK], data[BLOCK..], i);
  }

  lemma CbcEncryptStep(p: Primitives, key: bytes, iv: bytes, head: bytes, rest: bytes)
    requires |iv| == |head| == BLOCK && |rest| % BLOCK == 0
    ensures var c := p.encryptBlock(key, XorBlocks(head, iv));
      CbcEncrypt(p, key, iv, head + rest) == c + CbcEncrypt(p, key, c, rest)
  {
    assert (head + rest)[..BLOCK] == head && (head + rest)[BLOCK..] == rest;
  }

  /**
   Section 6.2 of NIST SP 800-38A: each block is encrypted over the ciphertext block before it, and
   the first over the IV.
   */
  lemma {:induction false} CbcEncryptAt(p: Primitives, key: bytes, iv: bytes, data: bytes, i: nat)
    requires |iv| == BLOCK && |data| % BLOCK == 0 && BLOCK * (i + 1) <= |data|
    ensures var out := CbcEncrypt(p, key, iv, data);
      Block(out, i) == p.encryptBlock(key, XorBlocks(Block(data, i), if i == 0 then iv else Block(out, i - 1)))
    decreases i
  {
    hide XorBlocks, CbcEncrypt, Block;
    HeadAndRest(data, i);
    var head, rest := data[..BLOCK], data[BLOCK..];
    var c := p.encryptBlock(key, XorBlocks(head, iv));
    var tail := CbcEncrypt(p, key, c, rest);
    CbcEncryptStep(p, key, iv, head, rest);
    BlockOfJoin(c, tail, i);
    if i > 0 {
      CbcEncryptAt(p, key, c, rest, i - 1);
      BlockOfJoin(c, tail, i - 1);
    }
  }

  lemma CbcDecryptStep(p: Primitives, key: bytes, iv: bytes, c: bytes, rest: bytes)
    requires |iv| == |c| == BLOCK && |rest| % BLOCK == 0
    ensures CbcDecrypt(p, key, iv, c + rest)
         == XorBlocks(p.decryptBlock(key, c), iv) + CbcDecrypt(p, key, c, rest)
  {
    assert (c + rest)[..BLOCK] == c && (c + rest)[BLOCK..] == rest;
  }

  /** And the other way: each decrypted block is combined with the ciphertext block before it, the first with the IV. */
  lemma {:induction false} CbcDecryptAt(p: Primitives, key: bytes, iv: bytes, data: bytes, i: nat)
    requires |iv| == BLOCK && |data| % BLOCK == 0 && BLOCK * (i + 1) <= |data|
    ensures Block(CbcDecrypt(p, key, iv, data), i)
         == XorBlocks(p.decryptBlock(key, Block(data, i)), if i == 0 then iv else Block(data, i - 1))
    decreases i
  {
    hide XorBlocks, CbcDecrypt, Block;
    HeadAndRest(data, i);
    var c, rest := data[..BLOCK], data[BLOCK..];
    var plain, tail := XorBlocks(p.decryptBlock(key, c), iv), CbcDecrypt(p, key, c, rest);
    CbcDecryptStep(p, key, iv, c, rest);
    BlockOfJoin(plain, tail, i);
    if i > 0 {
      CbcDecryptAt(p, key, c, rest, i - 1);
      HeadAndRest(data, i - 1);
    }
  }

  // ---------------------------------------------------------------- padded messages

  /** Pad then chain: the body both encrypted transports send. */
  function Seal(p: Primitives, key: bytes, iv: bytes, payload: bytes): (r: Result<bytes, CodecError>)
    requires |iv| == BLOCK
    ensures r.Ok? <==> AcceptedKey(key)
    ensures r.Ok? ==> |r.value| % BLOCK == 0 && |payload| < |r.value| <= |payload| + BLOCK
  {
    if AcceptedKey(key) then Ok(CbcEncrypt(p, key, iv, Pad(payload, BLOCK))) else Err(BadKeyLength)
  }

  /** Unchain then unpad. */
  function Open(p: Primitives, key: bytes, iv: bytes, ciphertext: bytes): (r: Result<bytes, CodecError>)
    requires |iv| == BLOCK
  {
    if !AcceptedKey(key) then Err(BadKeyLength)
    else if |ciphertext| % BLOCK != 0 then Err(NotBlockAligned)
    else Unpad(CbcDecrypt(p, key, iv, ciphertext), BLOCK)
  }

  /**
   A ciphertext opens to a payload exactly when it is that payload sealed: nothing else
   decrypts to it, and every payload survives the trip, for every key and IV.
   */
  lemma OpenInvertsSeal(p: Primitives, key: bytes, iv: bytes, payload: bytes, ciphertext: bytes)
    requires |iv| == BLOCK
    ensures Open(p, key, iv, ciphertext) == Ok(payload) <==> Seal(p, key, iv, payload) == Ok(ciphertext)
  {
    if AcceptedKey(key) && |ciphertext| % BLOCK == 0 {
      UnpadInvertsPad(CbcDecrypt(p, key, iv, ciphertext), payload, BLOCK);
      CbcDecryptInvertsEncrypt(p, key, iv, Pad(payload, BLOCK));
      CbcEncryptInvertsDecrypt(p, key, iv, ciphertext);
    }
  }

  /** One payload under two IVs is sent with different first blocks, so nothing shows that it was sent before. */
  lemma SealTellsIvs(p: Primitives, key: bytes, iv: bytes, other: bytes, payload: bytes)
    requires |iv| == |other| == BLOCK && iv != other && AcceptedKey(key)
    ensures Block(Seal(p, key, iv, payload).value, 0) != Block(Seal(p, key, other, payload).value, 0)
  {
    var data := Pad(payload, BLOCK);
    var a, b := CbcEncrypt(p, key, iv, data), CbcEncrypt(p, key, other, data);
    CbcEncryptAt(p, key, iv, data, 0);
    CbcEncryptAt(p, key, other, data, 0);
    var first := Block(data, 0);
    if Block(a, 0) == Block(b, 0) {
      assert p.decryptBlock(key, Block(a, 0)) == XorBlocks(first, iv);
      assert p.decryptBlock(key, Block(b, 0)) == XorBlocks(first, other);
      XorBlocksCommute(first, iv);
      XorBlocksCommute(first, other);
      XorBlocksCancel(iv, first);
      XorBlocksCancel(other, first);
      assert false;
    }
  }
}
