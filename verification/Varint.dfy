/** QUIC variable-length integers, section 16 of RFC 9000. */
module Varint {
  import opened Bytes

  const VARINT_LIMIT: nat := 0x4000_0000_0000_0000

  /** The shortest of the four encoded lengths. */
  function Size(v: nat): (n: nat)
    ensures n == 1 || n == 2 || n == 4 || n == 8
  {
    if v < 0x40 then 1 else if v < 0x4000 then 2 else if v < 0x4000_0000 then 4 else 8
  }

  /** Two-bit length code in the top bits of the first byte. */
  function Code(len: nat): nat {
    if len == 1 then 0 else if len == 2 then 1 else if len == 4 then 2 else 3
  }

  function Pow256(k: nat): (p: nat)
    ensures p > 0
  {
    if k == 0 then 1 else 256 * Pow256(k - 1)
  }

  /** Big-endian, `len` bytes. */
  function BigEndian(v: nat, len: nat): (s: seq<byte>)
    ensures |s| == len
  {
    if len == 0 then [] else BigEndian(v / 256, len - 1) + [v % 256]
  }

  function Fold(acc: nat, s: seq<byte>): nat
    decreases |s|
  {
    if s == [] then acc else Fold(acc * 256 + s[0], s[1..])
  }

  function Encode(v: nat): (s: seq<byte>)
    requires v < VARINT_LIMIT
    ensures |s| == Size(v)
  {
    var len := Size(v);
    BigEndian(Code(len) * 64 * Pow256(len - 1) + v, len)
  }

  /** The integer at the front of `s` and its length, or `None` if `s` ends first. */
  function Decode(s: seq<byte>): (r: Option<(nat, nat)>)
    ensures r.Some? ==> 1 <= r.value.1 <= 8 && r.value.1 <= |s|
    ensures |s| >= 8 ==> r.Some?
  {
    if s == [] then None
    else
      var len := Length(s[0]);
      if |s| < len then None else Some((Fold(s[0] % 64, s[1..len]), len))
  }

  function Length(first: byte): (n: nat)
    ensures n == 1 || n == 2 || n == 4 || n == 8
  {
    if first < 64 then 1 else if first < 128 then 2 else if first < 192 then 4 else 8
  }

  lemma {:induction false} FoldAppend(acc: nat, s: seq<byte>, b: byte)
    ensures Fold(acc, s + [b]) == Fold(acc, s) * 256 + b
    decreases |s|
  {
    if s == [] {
      assert s + [b] == [b];
      assert Fold(acc * 256 + b, [b][1..]) == acc * 256 + b;
    } else {
      assert (s + [b])[1..] == s[1..] + [b];
      FoldAppend(acc * 256 + s[0], s[1..], b);
    }
  }

  /** The fold is linear in its accumulator. */
  lemma {:induction false} FoldShift(acc: nat, d: nat, s: seq<byte>)
    ensures Fold(acc + d, s) == Fold(acc, s) + d * Pow256(|s|)
    decreases |s|
  {
    if s != [] {
      FoldShift(acc * 256 + s[0], d * 256, s[1..]);
      assert (acc + d) * 256 + s[0] == (acc * 256 + s[0]) + d * 256;
      assert d * 256 * Pow256(|s| - 1) == d * Pow256(|s|);
    }
  }

  lemma {:induction false} FoldBigEndian(v: nat, len: nat)
    requires v < Pow256(len)
    ensures Fold(0, BigEndian(v, len)) == v
    decreases len
  {
    if len > 0 {
      FoldBigEndian(v / 256, len - 1);
      FoldAppend(0, BigEndian(v / 256, len - 1), v % 256);
    }
  }

  /** A first byte and its tail: the tag bits contribute exactly their place value. */
  lemma Untag(first: byte, tail: seq<byte>)
    ensures Fold(first % 64, tail) + (first / 64) * 64 * Pow256(|tail|) == Fold(first, tail)
  {
    FoldShift(first % 64, first / 64 * 64, tail);
  }

  lemma Scaled(b: nat, p: nat, v: nat)
    requires b * p <= v / 256 < (b + 1) * p
    ensures b * (256 * p) <= v < (b + 1) * (256 * p)
  {
    var x, y := b * p, (b + 1) * p;
    assert 256 * x <= v < 256 * y;
    assert b * (256 * p) == 256 * x && (b + 1) * (256 * p) == 256 * y;
  }

  /** The first big-endian byte is the quotient by the place value of the rest. */
  lemma {:induction false} FirstByte(v: nat, len: nat)
    requires len > 0 && v < Pow256(len)
    ensures BigEndian(v, len)[0] * Pow256(len - 1) <= v < (BigEndian(v, len)[0] + 1) * Pow256(len - 1)
    decreases len
  {
    if len == 1 {
      assert BigEndian(v, 1) == [v % 256];
    } else {
      FirstByte(v / 256, len - 1);
      assert BigEndian(v, len)[0] == BigEndian(v / 256, len - 1)[0];
      assert Pow256(len - 1) == 256 * Pow256(len - 2);
      Scaled(BigEndian(v / 256, len - 1)[0], Pow256(len - 2), v);
    }
  }

  lemma Cancel(a: nat, b: nat, p: nat)
    requires a * p < b * p
    ensures a < b
  {
    assert b * p == a * p + (b - a) * p;
    assert a >= b ==> (b - a) * p <= 0;
  }

  /** A value below 64 places leaves the top two bits of the first byte to the tag. */
  lemma TagOnTop(c: nat, b: nat, p: nat, v: nat)
    requires c < 4 && v < 64 * p && b * p <= c * 64 * p + v < (b + 1) * p
    ensures b / 64 == c
  {
    assert c * 64 * p + 64 * p == (c * 64 + 64) * p;
    Cancel(c * 64, b + 1, p);
    Cancel(b, c * 64 + 64, p);
  }

  /** The tagged value fits its length and its first byte carries the length code. */
  lemma TagFits(v: nat)
    requires v < VARINT_LIMIT
    ensures var len := Size(v);
            var tagged := Code(len) * 64 * Pow256(len - 1) + v;
            tagged < Pow256(len) && Encode(v)[0] / 64 == Code(len)
  {
    var len := Size(v);
    var p := Pow256(len - 1);
    assert v < 64 * p && Pow256(len) == 256 * p by { PlaceValues(); }
    var c := Code(len);
    var tagged := c * 64 * p + v;
    assert tagged < Pow256(len) by {
      hide Pow256;
      TagBelow(c, p, v);
    }
    FirstByte(tagged, len);
    hide BigEndian, Pow256;
    TagOnTop(c, Encode(v)[0], p, v);
  }

  lemma TagBelow(c: nat, p: nat, v: nat)
    requires c < 4 && v < 64 * p
    ensures c * 64 * p + v < 256 * p
  {
    assert c * 64 * p + 64 * p == (c * 64 + 64) * p;
    assert 256 * p == (c * 64 + 64) * p + (192 - c * 64) * p;
    assert (192 - c * 64) * p >= 0;
  }

  lemma PlaceValues()
    ensures Pow256(0) == 1 && Pow256(1) == 0x100 && Pow256(2) == 0x1_0000
    ensures Pow256(3) == 0x100_0000 && Pow256(4) == 0x1_0000_0000
    ensures Pow256(7) == 0x100_0000_0000_0000 && Pow256(8) == 0x1_0000_0000_0000_0000
  {
    assert Pow256(5) == 256 * Pow256(4);
    assert Pow256(6) == 256 * Pow256(5);
  }

  /** Round trip, with anything following, and no proper prefix decodes. */
  lemma RoundTrip(v: nat, tail: seq<byte>)
    requires v < VARINT_LIMIT
    ensures Decode(Encode(v) + tail) == Some((v, Size(v)))
    ensures forall k | 0 <= k < Size(v) :: Decode(Encode(v)[..k]) == None
  {
    var s := Encode(v);
    var len := Size(v);
    TagFits(v);
    FoldBigEndian(Code(len) * 64 * Pow256(len - 1) + v, len);
    Untag(s[0], s[1..]);
    assert Fold(0, s) == Fold(s[0], s[1..]);
    assert (s + tail)[1..len] == s[1..];
    assert Length(s[0]) == len;
  }

  /** More bytes never change an integer that was already complete. */
  lemma DecodePrefix(s: seq<byte>, tail: seq<byte>)
    ensures Decode(s).Some? ==> Decode(s + tail) == Decode(s)
  {
    if Decode(s).Some? {
      var len := Length(s[0]);
      assert (s + tail)[1..len] == s[1..len];
    }
  }
}
