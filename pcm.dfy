/** 16-bit little-endian PCM primitives shared by the generators and the codec:
    the byte and short types, Java's narrowing of a floating-point value to a
    `short`, and the little-endian byte layout of a `short` (low byte first). */
module Pcm {

  /** A Java `byte`, represented by its bit pattern (`b & 0xFF`). */
  newtype uint8 = x: int | 0 <= x < 0x100

  /** A Java `short`. */
  newtype int16 = x: int | -0x8000 <= x < 0x8000

  const MinInt: int := -0x8000_0000
  const MaxInt: int := 0x7FFF_FFFF

  /** Java's cast of a finite float/double to an integer type rounds toward zero. */
  function Trunc(x: real): (t: int)
    ensures x >= 0.0 ==> 0 <= t && t as real <= x < t as real + 1.0
    ensures x < 0.0 ==> t <= 0 && t as real - 1.0 < x <= t as real
  {
    if x >= 0.0 then x.Floor else -((-x).Floor)
  }

  /** The first step of a float-to-short cast: to `int`, saturating at the `int` range. */
  function SaturateInt(v: int): (w: int)
    ensures MinInt <= w <= MaxInt
    ensures MinInt <= v <= MaxInt ==> w == v
  {
    if v > MaxInt then MaxInt else if v < MinInt then MinInt else v
  }

  /** The second step: `int` to `short` keeps the low 16 bits (two's complement). */
  function WrapShort(v: int): (s: int16)
    ensures (s as int - v) % 0x1_0000 == 0
    ensures -0x8000 <= v < 0x8000 ==> s as int == v
  {
    ((v + 0x8000) % 0x1_0000 - 0x8000) as int16
  }

  /** Java's `(short) x` for a finite float or double `x`. */
  function NarrowToShort(x: real): int16
  {
    WrapShort(SaturateInt(Trunc(x)))
  }

  /** Inside the 16-bit range the cast only truncates toward zero, never wraps. */
  lemma NarrowInRange(x: real)
    requires -32769.0 < x < 32768.0
    ensures NarrowToShort(x) as int == Trunc(x)
    ensures -1.0 < x - NarrowToShort(x) as real < 1.0
    ensures x >= 0.0 ==> 0.0 <= NarrowToShort(x) as real <= x
    ensures x < 0.0 ==> x <= NarrowToShort(x) as real <= 0.0
  {
  }

  /** A whole number already in the 16-bit range is its own cast. */
  lemma NarrowWhole(s: int16)
    ensures NarrowToShort(s as real) == s
  {
  }

  /** `(byte)(val & 0x00ff)`: the low byte of a `short`. */
  function LowByte(s: int16): uint8
  {
    (s as int % 0x100) as uint8
  }

  /** `(byte)((val & 0xff00) >>> 8)`: the high byte of a `short`. */
  function HighByte(s: int16): uint8
  {
    ((s as int % 0x1_0000) / 0x100) as uint8
  }

  /** `ByteBuffer.getShort()` in little-endian order: the signed value of `lo`, `hi`. */
  function ShortOf(lo: uint8, hi: uint8): (s: int16)
    ensures hi < 0x80 ==> s as int == lo as int + 0x100 * hi as int
    ensures hi >= 0x80 ==> s as int == lo as int + 0x100 * hi as int - 0x1_0000
  {
    WrapShort(lo as int + 0x100 * hi as int)
  }

  /** Splitting a short into its two bytes and joining them again gives it back. */
  lemma ShortOfBytes(s: int16)
    ensures ShortOf(LowByte(s), HighByte(s)) == s
  {
    var u := s as int % 0x1_0000;
    assert u == (if s < 0 then s as int + 0x1_0000 else s as int);
    assert u == LowByte(s) as int + 0x100 * HighByte(s) as int;
  }

  /** Joining two bytes into a short and splitting it again gives them back. */
  lemma BytesOfShort(lo: uint8, hi: uint8)
    ensures LowByte(ShortOf(lo, hi)) == lo && HighByte(ShortOf(lo, hi)) == hi
  {
    var s := ShortOf(lo, hi);
    var u := lo as int + 0x100 * hi as int;
    assert s as int % 0x1_0000 == u;
    assert u % 0x100 == lo as int;
    assert u / 0x100 == hi as int;
  }

  /** The little-endian byte image of a sequence of shorts (what `putShort` writes). */
  function Encode(s: seq<int16>): (b: seq<uint8>)
    ensures |b| == 2 * |s|
    ensures forall i :: 0 <= i < |s| ==> b[2 * i] == LowByte(s[i]) && b[2 * i + 1] == HighByte(s[i])
  {
    seq(2 * |s|, k requires 0 <= k < 2 * |s| => if k % 2 == 0 then LowByte(s[k / 2]) else HighByte(s[k / 2]))
  }

  /** The shorts read from a byte sequence in little-endian order (what `getShort` reads);
      a trailing odd byte is not read. */
  function Decode(b: seq<uint8>): (s: seq<int16>)
    ensures |s| == |b| / 2
    ensures forall i :: 0 <= i < |s| ==> s[i] == ShortOf(b[2 * i], b[2 * i + 1])
  {
    seq(|b| / 2, i requires 0 <= i < |b| / 2 => ShortOf(b[2 * i], b[2 * i + 1]))
  }

  /** Two byte sequences of even length agree when they agree on every pair. */
  lemma PairsDetermine(a: seq<uint8>, b: seq<uint8>)
    requires |a| == |b| && |a| % 2 == 0
    requires forall i :: 0 <= i < |a| / 2 ==> a[2 * i] == b[2 * i] && a[2 * i + 1] == b[2 * i + 1]
    ensures a == b
  {
    forall k | 0 <= k < |a| ensures a[k] == b[k] {
      var i := k / 2;
      assert k == 2 * i || k == 2 * i + 1;
    }
  }

  /** The first `n` shorts of `s` sit in `b` as byte pairs, low byte first; `b` has room
      for all of `s`. */
  ghost predicate Written(b: seq<uint8>, s: seq<int16>, n: nat)
  {
    n <= |s| && |b| == 2 * |s|
    && forall i :: 0 <= i < n ==> b[2 * i] == LowByte(s[i]) && b[2 * i + 1] == HighByte(s[i])
  }

  /** Writing the next pair extends what is written by one short. */
  lemma WrittenStep(b: seq<uint8>, s: seq<int16>, n: nat)
    requires Written(b, s, n) && n < |s|
    ensures Written(b[2 * n := LowByte(s[n])][2 * n + 1 := HighByte(s[n])], s, n + 1)
  {
  }

  /** A byte sequence holding the two bytes of each short, low byte first, is its encoding. */
  lemma EncodeByPairs(b: seq<uint8>, s: seq<int16>)
    requires Written(b, s, |s|)
    ensures b == Encode(s)
  {
    var e := Encode(s);
    assert |b| / 2 == |s|;
    forall i | 0 <= i < |b| / 2 ensures b[2 * i] == e[2 * i] && b[2 * i + 1] == e[2 * i + 1] {
    }
    PairsDetermine(b, e);
  }

  /** Decoding what was encoded gives the shorts back: `toShort(fromShort(s)) == s`. */
  lemma DecodeEncode(s: seq<int16>)
    ensures Decode(Encode(s)) == s
  {
    forall i | 0 <= i < |s| ensures Decode(Encode(s))[i] == s[i] {
      ShortOfBytes(s[i]);
    }
  }

  /** Encoding what was decoded gives back the bytes up to the last whole pair:
      `fromShort(toShort(b)) == b[..2*(|b|/2)]`. */
  lemma EncodeDecode(b: seq<uint8>)
    ensures Encode(Decode(b)) == b[..2 * (|b| / 2)]
  {
    var e, p := Encode(Decode(b)), b[..2 * (|b| / 2)];
    forall i | 0 <= i < |p| / 2 ensures e[2 * i] == p[2 * i] && e[2 * i + 1] == p[2 * i + 1] {
      BytesOfShort(b[2 * i], b[2 * i + 1]);
    }
    PairsDetermine(e, p);
  }
}
