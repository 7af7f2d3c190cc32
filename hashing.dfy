/** SHA-256 as the engine uses it: an opaque 32-byte digest, its lowercase
    hex text (`hexdigest()`), `int(text, 16)` over digest prefixes, and the
    ratio `int(h[:8], 16) / 0xFFFFFFFF` that turns a digest into a number
    in [0, 1]. */
module Hashing {
  import opened PyOps

  type Digest = d: seq<byte> | |d| == 32 witness seq(32, _ => 0)

  /** The library calls the engine makes but whose internals are not modelled:
      `hashlib.sha256(..).digest()`, `str(list_of_floats)` and `str(dict)` of
      the lexicon. The dict's key order is the first-occurrence order of the
      names, so its repr is taken as a function of the name list and the map. */
  datatype Env = Env(
    sha256: seq<byte> -> Digest,
    reprFloats: seq<real> -> string,
    reprLexicon: (seq<string>, map<string, string>) -> string)

  const MaxRatioDenominator: int := 0xFFFF_FFFF

  predicate IsHexChar(c: char) {
    '0' <= c <= '9' || 'a' <= c <= 'f'
  }

  predicate IsHex(s: string) {
    forall i :: 0 <= i < |s| ==> IsHexChar(s[i])
  }

  /** A `hexdigest()` string: 64 lowercase hex characters. */
  predicate IsHexDigest(s: string) {
    |s| == 64 && IsHex(s)
  }

  function HexChar(n: nat): (c: char)
    requires n < 16
    ensures IsHexChar(c)
  {
    if n < 10 then (48 + n) as char else (87 + n) as char
  }

  function HexValue(c: char): (n: nat)
    requires IsHexChar(c)
    ensures n < 16
  {
    if c <= '9' then c as int - 48 else c as int - 87
  }

  /** Lowercase hex text of a byte string, two characters per byte, high nibble first. */
  function HexOfBytes(bs: seq<byte>): (s: string)
    ensures |s| == 2 * |bs|
    ensures IsHex(s)
  {
    if bs == [] then ""
    else
      var b := bs[|bs| - 1];
      HexOfBytes(bs[..|bs| - 1]) + [HexChar(b / 16), HexChar(b % 16)]
  }

  /** `d.hexdigest()`. */
  function HexDigest(d: Digest): (s: string)
    ensures IsHexDigest(s)
  {
    HexOfBytes(d)
  }

  /** `int(s, 16)` for a string of lowercase hex digits. */
  function ParseHex(s: string): nat
    requires IsHex(s)
  {
    if s == [] then 0 else 16 * ParseHex(s[..|s| - 1]) + HexValue(s[|s| - 1])
  }

  /** The big-endian value of a byte string. */
  function BigEndian(bs: seq<byte>): nat
  {
    if bs == [] then 0 else 256 * BigEndian(bs[..|bs| - 1]) + bs[|bs| - 1]
  }

  function Pow16(n: nat): (p: nat)
    ensures p >= 1
  {
    if n == 0 then 1 else 16 * Pow16(n - 1)
  }

  /** n hex digits never exceed 16^n - 1. */
  lemma {:induction false} ParseHexBound(s: string)
    requires IsHex(s)
    ensures ParseHex(s) < Pow16(|s|)
  {
    if s != [] {
      ParseHexBound(s[..|s| - 1]);
    }
  }

  /** Hex text of a concatenation is the concatenation of the hex texts. */
  lemma {:induction false} HexOfBytesAppend(a: seq<byte>, b: seq<byte>)
    ensures HexOfBytes(a + b) == HexOfBytes(a) + HexOfBytes(b)
    decreases |b|
  {
    if b != [] {
      var n := |b| - 1;
      var last := b[n];
      assert (a + b)[..|a + b| - 1] == a + b[..n];
      assert (a + b)[|a + b| - 1] == last;
      HexOfBytesAppend(a, b[..n]);
      calc {
        HexOfBytes(a + b);
        HexOfBytes(a + b[..n]) + [HexChar(last / 16), HexChar(last % 16)];
        HexOfBytes(a) + HexOfBytes(b[..n]) + [HexChar(last / 16), HexChar(last % 16)];
        HexOfBytes(a) + HexOfBytes(b);
      }
    } else {
      assert a + b == a;
    }
  }

  /** Parsing the hex text back gives the bytes' big-endian value: `int(x.hex(), 16)`
      is the number the bytes spell. */
  lemma {:induction false} ParseHexOfBytes(bs: seq<byte>)
    ensures ParseHex(HexOfBytes(bs)) == BigEndian(bs)
  {
    if bs != [] {
      var n := |bs| - 1;
      var b := bs[n];
      var front := HexOfBytes(bs[..n]);
      var s := HexOfBytes(bs);
      assert s == front + [HexChar(b / 16), HexChar(b % 16)];
      assert s[..|s| - 1] == front + [HexChar(b / 16)];
      assert (front + [HexChar(b / 16)])[..|front|] == front;
      ParseHexOfBytes(bs[..n]);
      calc {
        ParseHex(s);
        16 * ParseHex(front + [HexChar(b / 16)]) + b % 16;
        16 * (16 * ParseHex(front) + b / 16) + b % 16;
        256 * BigEndian(bs[..n]) + b;
      }
    }
  }

  /** `int(h[:8], 16) / 0xFFFFFFFF` for hex text h. */
  function HexRatio(h: string): (r: real)
    requires |h| >= 8 && IsHex(h)
    ensures 0.0 <= r <= 1.0
  {
    ParseHexBound(h[..8]);
    assert Pow16(8) == MaxRatioDenominator + 1;
    ParseHex(h[..8]) as real / MaxRatioDenominator as real
  }

  /** The ratio of a digest is its first four bytes, read big-endian, over 0xFFFFFFFF. */
  lemma {:induction false} DigestRatio(d: Digest)
    ensures HexRatio(HexDigest(d)) == BigEndian(d[..4]) as real / MaxRatioDenominator as real
  {
    assert d == d[..4] + d[4..];
    HexOfBytesAppend(d[..4], d[4..]);
    assert HexDigest(d)[..8] == HexOfBytes(d[..4]);
    ParseHexOfBytes(d[..4]);
  }
}
