/** The tag scan of a RIFF/WAVE byte buffer: one left-to-right pass that looks
    for the ASCII tags `fmt ` and `data` and reads little-endian fields at fixed
    offsets from each match, the last match of each tag winning. */
module WaveFileParser {
  import opened Pcm
  import opened Wrappers

  // ---------------------------------------------------------------------------
  // Field decoding: Java's `getUInt16` / `getUInt32` on (signed) bytes
  // ---------------------------------------------------------------------------

  /** The low eight bits of a bit pattern. */
  function Lane32(v: bv32): bv8
  {
    (v & 0xFF) as bv8
  }

  function Lane64(v: bv64): bv8
  {
    (v & 0xFF) as bv8
  }

  /** The value of a Java `int` with bit pattern `v` (two's complement), byte by byte. */
  function IntValue(v: bv32): int
  {
    Lane32(v) as int + 0x100 * Lane32(v >> 8) as int + 0x1_0000 * Lane32(v >> 16) as int
    + 0x100_0000 * Lane32(v >> 24) as int
    - (if v & 0x8000_0000 == 0 then 0 else 0x1_0000_0000)
  }

  /** The value of a Java `long` with bit pattern `v` (two's complement), byte by byte. */
  function LongValue(v: bv64): int
  {
    Lane64(v) as int + 0x100 * Lane64(v >> 8) as int + 0x1_0000 * Lane64(v >> 16) as int
    + 0x100_0000 * Lane64(v >> 24) as int + 0x1_0000_0000 * Lane64(v >> 32) as int
    + 0x100_0000_0000 * Lane64(v >> 40) as int + 0x1_0000_0000_0000 * Lane64(v >> 48) as int
    + 0x100_0000_0000_0000 * Lane64(v >> 56) as int
    - (if v & 0x8000_0000_0000_0000 == 0 then 0 else 0x1_0000_0000_0000_0000)
  }

  /** A Java `byte` (its bit pattern) widened to `int`: sign extension to 32 bits. */
  function SignExtend8(x: bv8): bv32
  {
    if x & 0x80 == 0 then x as bv32 else (x as bv32) | 0xFFFF_FF00
  }

  /** A Java `int` widened to `long`: sign extension. */
  function IntToLong(x: bv32): bv64
  {
    if x & 0x8000_0000 == 0 then x as bv64 else (x as bv64) | 0xFFFF_FFFF_0000_0000
  }

  /** The bytes of `(small & 0xFF) | ((big << 8) & 0xFFFF)`. */
  lemma Lanes16(lo: bv8, hi: bv8)
    ensures var v := (SignExtend8(lo) & 0xFF) | ((SignExtend8(hi) << 8) & 0xFFFF);
      Lane32(v) == lo && Lane32(v >> 8) == hi && Lane32(v >> 16) == 0 && Lane32(v >> 24) == 0
      && v & 0x8000_0000 == 0
  {
  }

  /** The `int` that `getUInt16(small, big)` computes: `(small & 0xFF) | ((big << 8) & 0xFFFF)`
      on the sign-extended bytes. */
  function UInt16Bits(small: bv8, big: bv8): bv32
  {
    (SignExtend8(small) & 0xFF) | ((SignExtend8(big) << 8) & 0xFFFF)
  }

  /** `getUInt16`: the unsigned little-endian value of two bytes. */
  function GetUInt16(small: uint8, big: uint8): (r: int)
    ensures 0 <= r < 0x1_0000
  {
    small as int + 0x100 * big as int
  }

  /** The masks make `getUInt16`'s bit expression the unsigned value of the two bytes,
      whatever their sign as Java bytes. */
  lemma GetUInt16Bits(small: bv8, big: bv8)
    ensures IntValue(UInt16Bits(small, big)) == GetUInt16(small as uint8, big as uint8)
  {
    Lanes16(small, big);
  }

  /** The unsigned little-endian value of four bytes. */
  function UInt32Le(b0: uint8, b1: uint8, b2: uint8, b3: uint8): int
  {
    b0 as int + 0x100 * b1 as int + 0x1_0000 * b2 as int + 0x100_0000 * b3 as int
  }

  /** The `long` built by `getUInt32`, before it is read as a number. */
  function UInt32Bits(x0: bv8, x1: bv8, x2: bv8, x3: bv8): bv64
  {
    IntToLong(SignExtend8(x0) & 0xFF) | IntToLong((SignExtend8(x1) << 8) & 0xFFFF)
    | IntToLong((SignExtend8(x2) << 16) & 0xFF_FFFF) | IntToLong(SignExtend8(x3) << 24)
  }

  /** Its four low bytes are the four input bytes. */
  lemma LowLanes32(x0: bv8, x1: bv8, x2: bv8, x3: bv8)
    ensures var v := UInt32Bits(x0, x1, x2, x3);
      Lane64(v) == x0 && Lane64(v >> 8) == x1 && Lane64(v >> 16) == x2 && Lane64(v >> 24) == x3
  {
  }

  /** Its four high bytes all copy the sign bit of the top input byte. */
  lemma HighLanes32(x0: bv8, x1: bv8, x2: bv8, x3: bv8)
    ensures var v := UInt32Bits(x0, x1, x2, x3);
      var fill: bv8 := if x3 & 0x80 == 0 then 0 else 0xFF;
      Lane64(v >> 32) == fill && Lane64(v >> 40) == fill && Lane64(v >> 48) == fill
      && Lane64(v >> 56) == fill && (v & 0x8000_0000_0000_0000 == 0 <==> x3 & 0x80 == 0)
  {
  }

  /** Hence the value of that `long`. */
  lemma UInt32BitsValue(x0: bv8, x1: bv8, x2: bv8, x3: bv8)
    ensures LongValue(UInt32Bits(x0, x1, x2, x3))
            == x0 as int + 0x100 * x1 as int + 0x1_0000 * x2 as int + 0x100_0000 * x3 as int
               - (if x3 & 0x80 == 0 then 0 else 0x1_0000_0000)
  {
    var v := UInt32Bits(x0, x1, x2, x3);
    LowLanes32(x0, x1, x2, x3);
    HighLanes32(x0, x1, x2, x3);
    var fill: bv8 := if x3 & 0x80 == 0 then 0 else 0xFF;
    assert fill as int == if x3 & 0x80 == 0 then 0 else 0xFF;
  }

  lemma TopBit(b: bv8)
    ensures b & 0x80 == 0 <==> b as int < 0x80
  {
  }

  lemma Mod32(u: int, r: int)
    requires 0 <= u < 0x1_0000_0000
    requires r == u || r == u - 0x1_0000_0000
    ensures r % 0x1_0000_0000 == u
  {
    if r != u {
      assert r + 0x1_0000_0000 == u;
    }
  }

  /** `getUInt32`: the unsigned little-endian value of four bytes when the top byte is
      below 0x80, and that value minus 2^32 otherwise (see `GetUInt32Bits`). */
  function GetUInt32(smallest: uint8, small: uint8, big: uint8, biggest: uint8): (r: int)
    ensures r % 0x1_0000_0000 == UInt32Le(smallest, small, big, biggest)
    ensures -0x8000_0000 <= r < 0x8000_0000
  {
    var u := UInt32Le(smallest, small, big, biggest);
    var r := if biggest < 0x80 then u else u - 0x1_0000_0000;
    Mod32(u, r);
    r
  }

  /** `getUInt32` by the top byte: the unsigned little-endian value of the four bytes
      when the top byte is below 0x80, and that value minus 2^32 (the signed 32-bit
      reading) when it is 0x80 or more. */
  lemma GetUInt32Cases(b0: uint8, b1: uint8, b2: uint8, b3: uint8)
    ensures b3 < 0x80 ==> GetUInt32(b0, b1, b2, b3) == UInt32Le(b0, b1, b2, b3)
    ensures b3 >= 0x80 ==> GetUInt32(b0, b1, b2, b3) == UInt32Le(b0, b1, b2, b3) - 0x1_0000_0000
  {
  }

  /** The value `UInt32BitsValue` gives, read as the bytes' `GetUInt32`. */
  lemma SignedValue(v: int, x0: bv8, x1: bv8, x2: bv8, x3: bv8)
    requires v == x0 as int + 0x100 * x1 as int + 0x1_0000 * x2 as int + 0x100_0000 * x3 as int
                  - (if x3 & 0x80 == 0 then 0 else 0x1_0000_0000)
    ensures v == GetUInt32(x0 as uint8, x1 as uint8, x2 as uint8, x3 as uint8)
  {
    TopBit(x3);
    GetUInt32Cases(x0 as uint8, x1 as uint8, x2 as uint8, x3 as uint8);
  }

  /** The three low bytes are masked, but `biggest << 24` is an `int` that is sign-extended
      when or-ed into the `long`: the value `getUInt32` builds is `GetUInt32` of the bytes. */
  lemma GetUInt32Bits(smallest: bv8, small: bv8, big: bv8, biggest: bv8)
    ensures LongValue(UInt32Bits(smallest, small, big, biggest))
            == GetUInt32(smallest as uint8, small as uint8, big as uint8, biggest as uint8)
  {
    UInt32BitsValue(smallest, small, big, biggest);
    SignedValue(LongValue(UInt32Bits(smallest, small, big, biggest)), smallest, small, big, biggest);
  }

  /** The value of Java's `getUInt32` expression by the top byte: the unsigned
      little-endian value of the four bytes when the top byte is below 0x80, and that
      value minus 2^32 when it is 0x80 or more. */
  lemma UInt32BitsCases(x0: bv8, x1: bv8, x2: bv8, x3: bv8)
    ensures var u := UInt32Le(x0 as uint8, x1 as uint8, x2 as uint8, x3 as uint8);
      LongValue(UInt32Bits(x0, x1, x2, x3)) == if x3 < 0x80 then u else u - 0x1_0000_0000
  {
    GetUInt32Bits(x0, x1, x2, x3);
    GetUInt32Cases(x0 as uint8, x1 as uint8, x2 as uint8, x3 as uint8);
  }

  // ---------------------------------------------------------------------------
  // The scan
  // ---------------------------------------------------------------------------

  /** The ASCII tag `fmt `. */
  const FmtTag: seq<uint8> := [0x66, 0x6D, 0x74, 0x20]
  /** The ASCII tag `data`. */
  const DataTag: seq<uint8> := [0x64, 0x61, 0x74, 0x61]

  /** Offsets from a `fmt ` tag that the scan reads, in the order it reads them:
      channels at +10, the 32-bit field at +16 (the canonical byte-rate field) taken
      as the sample rate, and the 16-bit field at +34 taken as bits per sample. */
  const FmtReads: seq<nat> := [10, 11, 16, 17, 18, 19, 34, 35]
  /** Offsets from a `data` tag that the scan reads: the 32-bit chunk length. */
  const DataReads: seq<nat> := [4, 5, 6, 7]

  /** The header facts the parser keeps: one field per getter. */
  datatype WaveInfo = WaveInfo(channelCount: int, sampleRate: int, bitsPerSample: int,
                               dataLength: int, dataStartIndex: int)

  /** The field values before any tag is seen. */
  const Unset: WaveInfo := WaveInfo(0, 0, 0, 0, 0)

  /** The outcome of the constructor: its fields, or the array index whose read
      threw `ArrayIndexOutOfBoundsException`. */
  datatype ParseResult = Parsed(info: WaveInfo) | IndexOutOfBounds(index: int)

  predicate TagAt(b: seq<uint8>, c: nat, tag: seq<uint8>)
    requires |tag| == 4 && c + 4 <= |b|
  {
    b[c] == tag[0] && b[c + 1] == tag[1] && b[c + 2] == tag[2] && b[c + 3] == tag[3]
  }

  /** The number of offsets the loop `for (c = 0; c < bytes.length - 4; c++)` visits. */
  function Offsets(b: seq<uint8>): (n: nat)
    ensures n + 4 <= |b| || n == 0
    ensures |b| > 4 ==> n + 4 == |b|
  {
    if |b| > 4 then |b| - 4 else 0
  }

  /** The first of the reads `c + offs[j]`, in order, that falls outside a buffer of
      length `len`: the index Java reports. */
  function FirstOutside(c: nat, offs: seq<nat>, len: nat): (k: nat)
    requires |offs| > 0 && c + offs[|offs| - 1] >= len
    ensures k >= len
    ensures exists j :: 0 <= j < |offs| && k == c + offs[j] && forall i :: 0 <= i < j ==> c + offs[i] < len
  {
    if c + offs[0] >= len then
      c + offs[0]
    else
      var k := FirstOutside(c, offs[1..], len);
      ghost var j :| 0 <= j < |offs| - 1 && k == c + offs[1..][j] && forall i :: 0 <= i < j ==> c + offs[1..][i] < len;
      assert k == c + offs[j + 1] && forall i :: 0 <= i < j + 1 ==> c + offs[i] < len;
      k
  }

  /** A tag at `c` whose field reads run past the end of the buffer. */
  predicate Faulting(b: seq<uint8>, c: nat)
    requires c + 4 <= |b|
  {
    (TagAt(b, c, FmtTag) && c + 35 >= |b|) || (TagAt(b, c, DataTag) && c + 7 >= |b|)
  }

  /** The index reported when the reads of the tag at `c` fault. */
  function FaultIndex(b: seq<uint8>, c: nat): nat
    requires c + 4 <= |b| && Faulting(b, c)
  {
    if TagAt(b, c, FmtTag) then FirstOutside(c, FmtReads, |b|) else FirstOutside(c, DataReads, |b|)
  }

  /** One pass of the loop body at offset `c`, starting from the fields `a`. */
  function Visit(b: seq<uint8>, c: nat, a: WaveInfo): ParseResult
    requires c + 4 < |b|
  {
    if TagAt(b, c, FmtTag) && c + 35 >= |b| then IndexOutOfBounds(FirstOutside(c, FmtReads, |b|))
    else
      var a1 := if TagAt(b, c, FmtTag) then
                  a.(channelCount := GetUInt16(b[c + 10], b[c + 11]),
                     sampleRate := GetUInt32(b[c + 16], b[c + 17], b[c + 18], b[c + 19]),
                     bitsPerSample := GetUInt16(b[c + 34], b[c + 35]))
                else a;
      if TagAt(b, c, DataTag) && c + 7 >= |b| then IndexOutOfBounds(FirstOutside(c, DataReads, |b|))
      else if TagAt(b, c, DataTag) then
        Parsed(a1.(dataStartIndex := c + 8, dataLength := GetUInt32(b[c + 4], b[c + 5], b[c + 6], b[c + 7])))
      else Parsed(a1)
  }

  /** The state after the loop has visited offsets `0 .. n-1`; a fault ends the scan. */
  function Sweep(b: seq<uint8>, n: nat): ParseResult
    requires n <= Offsets(b)
  {
    if n == 0 then Parsed(Unset)
    else match Sweep(b, n - 1)
      case IndexOutOfBounds(k) => IndexOutOfBounds(k)
      case Parsed(a) => Visit(b, n - 1, a)
  }

  /** What `new WaveFileParser(bytes)` yields. */
  function Scan(b: seq<uint8>): ParseResult
  {
    Sweep(b, Offsets(b))
  }

  /** The last offset below `n` holding `tag`, if any. */
  function LastTag(b: seq<uint8>, tag: seq<uint8>, n: nat): (r: Option<nat>)
    requires |tag| == 4 && n <= Offsets(b)
    ensures r.Some? ==> r.value < n && TagAt(b, r.value, tag)
                        && forall c :: r.value < c < n ==> !TagAt(b, c, tag)
    ensures r.None? ==> forall c :: 0 <= c < n ==> !TagAt(b, c, tag)
  {
    if n == 0 then None
    else if TagAt(b, n - 1, tag) then Some(n - 1)
    else LastTag(b, tag, n - 1)
  }

  /** The constructor's loop. It throws, here returns `IndexOutOfBounds`, at the first
      field read past the end of the array. */
  method Parse(bytes: array<uint8>) returns (r: ParseResult)
    ensures r == Scan(bytes[..])
  {
    ghost var b := bytes[..];
    var channelCount, sampleRate, bitsPerSample, dataLength, dataStartIndex := 0, 0, 0, 0, 0;
    var c := 0;
    while c < bytes.Length - 4
      invariant 0 <= c <= Offsets(b)
      invariant Sweep(b, c) == Parsed(WaveInfo(channelCount, sampleRate, bitsPerSample, dataLength, dataStartIndex))
    {
      if bytes[c] == FmtTag[0] && bytes[c + 1] == FmtTag[1] && bytes[c + 2] == FmtTag[2] && bytes[c + 3] == FmtTag[3] {
        if c + 35 >= bytes.Length {
          r := IndexOutOfBounds(FirstOutside(c, FmtReads, bytes.Length));
          FaultPersists(b, c + 1, Offsets(b));
          return;
        }
        channelCount := GetUInt16(bytes[c + 10], bytes[c + 11]);
        sampleRate := GetUInt32(bytes[c + 16], bytes[c + 17], bytes[c + 18], bytes[c + 19]);
        bitsPerSample := GetUInt16(bytes[c + 34], bytes[c + 35]);
      }
      if bytes[c] == DataTag[0] && bytes[c + 1] == DataTag[1] && bytes[c + 2] == DataTag[2] && bytes[c + 3] == DataTag[3] {
        if c + 7 >= bytes.Length {
          r := IndexOutOfBounds(FirstOutside(c, DataReads, bytes.Length));
          FaultPersists(b, c + 1, Offsets(b));
          return;
        }
        dataStartIndex := c + 8;
        dataLength := GetUInt32(bytes[c + 4], bytes[c + 5], bytes[c + 6], bytes[c + 7]);
      }
      c := c + 1;
    }
    r := Parsed(WaveInfo(channelCount, sampleRate, bitsPerSample, dataLength, dataStartIndex));
  }

  /** Once the scan has thrown, later offsets change nothing. */
  lemma {:induction false} FaultPersists(b: seq<uint8>, n: nat, m: nat)
    requires n <= m <= Offsets(b) && Sweep(b, n).IndexOutOfBounds?
    ensures Sweep(b, m) == Sweep(b, n)
    decreases m - n
  {
    if n < m {
      FaultPersists(b, n, m - 1);
    }
  }

  // ---------------------------------------------------------------------------
  // Properties of the scan
  // ---------------------------------------------------------------------------

  /** A buffer without either tag, in particular one of at most four bytes, is scanned
      without error and every field stays 0. */
  lemma {:induction false} ScanUntagged(b: seq<uint8>)
    requires forall c :: 0 <= c < Offsets(b) ==> !TagAt(b, c, FmtTag) && !TagAt(b, c, DataTag)
    ensures Scan(b) == Parsed(Unset)
  {
    SweepUntagged(b, Offsets(b));
  }

  lemma {:induction false} SweepUntagged(b: seq<uint8>, n: nat)
    requires n <= Offsets(b)
    requires forall c :: 0 <= c < n ==> !TagAt(b, c, FmtTag) && !TagAt(b, c, DataTag)
    ensures Sweep(b, n) == Parsed(Unset)
  {
    if n > 0 {
      SweepUntagged(b, n - 1);
    }
  }

  /** The scan throws exactly when some visited offset holds a tag whose field reads run
      past the end; the first such offset decides the reported index. */
  lemma ScanFaults(b: seq<uint8>)
    ensures Scan(b).IndexOutOfBounds? <==> exists c :: 0 <= c < Offsets(b) && Faulting(b, c)
    ensures forall c :: 0 <= c < Offsets(b) && Faulting(b, c) && (forall d :: 0 <= d < c ==> !Faulting(b, d))
                        ==> Scan(b) == IndexOutOfBounds(FaultIndex(b, c))
  {
    if exists c :: 0 <= c < Offsets(b) && Faulting(b, c) {
      var c := FirstFault(b, Offsets(b));
      SweepFault(b, Offsets(b), c);
      forall c' | 0 <= c' < Offsets(b) && Faulting(b, c') && (forall d :: 0 <= d < c' ==> !Faulting(b, d))
        ensures Scan(b) == IndexOutOfBounds(FaultIndex(b, c'))
      {
        assert c' == c;
      }
    } else {
      SweepFaultFree(b, Offsets(b));
    }
  }

  /** The least faulting offset below `n`. */
  lemma FirstFault(b: seq<uint8>, n: nat) returns (c: nat)
    requires n <= Offsets(b) && exists c :: 0 <= c < n && Faulting(b, c)
    ensures c < n && Faulting(b, c) && forall d :: 0 <= d < c ==> !Faulting(b, d)
  {
    c :| 0 <= c < n && Faulting(b, c);
    while exists d :: 0 <= d < c && Faulting(b, d)
      invariant c < n && Faulting(b, c)
      decreases c
    {
      var d :| 0 <= d < c && Faulting(b, d);
      c := d;
    }
  }

  lemma {:induction false} SweepFaultFree(b: seq<uint8>, n: nat)
    requires n <= Offsets(b)
    requires forall c :: 0 <= c < n ==> !Faulting(b, c)
    ensures Sweep(b, n).Parsed?
  {
    if n > 0 {
      SweepFaultFree(b, n - 1);
      assert !Faulting(b, n - 1);
      assert Visit(b, n - 1, Sweep(b, n - 1).info).Parsed?;
    }
  }

  lemma {:induction false} SweepFault(b: seq<uint8>, n: nat, c: nat)
    requires c < n <= Offsets(b) && Faulting(b, c)
    requires forall d :: 0 <= d < c ==> !Faulting(b, d)
    ensures Sweep(b, n) == IndexOutOfBounds(FaultIndex(b, c))
  {
    if n == c + 1 {
      SweepFaultFree(b, c);
    } else {
      SweepFault(b, n - 1, c);
    }
  }

  /** What one visit does to the `fmt ` fields. */
  lemma VisitFmt(b: seq<uint8>, c: nat, a: WaveInfo)
    requires c + 4 < |b| && Visit(b, c, a).Parsed?
    ensures var info := Visit(b, c, a).info;
      if TagAt(b, c, FmtTag) then
        c + 35 < |b|
        && info.channelCount == GetUInt16(b[c + 10], b[c + 11])
        && info.sampleRate == GetUInt32(b[c + 16], b[c + 17], b[c + 18], b[c + 19])
        && info.bitsPerSample == GetUInt16(b[c + 34], b[c + 35])
      else
        info.channelCount == a.channelCount && info.sampleRate == a.sampleRate
        && info.bitsPerSample == a.bitsPerSample
  {
  }

  /** What one visit does to the data window. */
  lemma VisitData(b: seq<uint8>, c: nat, a: WaveInfo)
    requires c + 4 < |b| && Visit(b, c, a).Parsed?
    ensures var info := Visit(b, c, a).info;
      if TagAt(b, c, DataTag) then
        c + 7 < |b|
        && info.dataStartIndex == c + 8
        && info.dataLength == GetUInt32(b[c + 4], b[c + 5], b[c + 6], b[c + 7])
      else
        info.dataStartIndex == a.dataStartIndex && info.dataLength == a.dataLength
  {
  }

  /** The `fmt ` fields come from the last `fmt ` tag visited, whatever `data` tags
      there are; with no `fmt ` tag they stay 0. */
  lemma {:induction false} SweepFmt(b: seq<uint8>, n: nat)
    requires n <= Offsets(b) && Sweep(b, n).Parsed?
    ensures var info := Sweep(b, n).info;
      match LastTag(b, FmtTag, n)
      case None => info.channelCount == 0 && info.sampleRate == 0 && info.bitsPerSample == 0
      case Some(c) =>
        c + 35 < |b|
        && info.channelCount == GetUInt16(b[c + 10], b[c + 11])
        && info.sampleRate == GetUInt32(b[c + 16], b[c + 17], b[c + 18], b[c + 19])
        && info.bitsPerSample == GetUInt16(b[c + 34], b[c + 35])
  {
    if n > 0 {
      assert Sweep(b, n - 1).Parsed?;
      SweepFmt(b, n - 1);
      VisitFmt(b, n - 1, Sweep(b, n - 1).info);
    }
  }

  /** The data window comes from the last `data` tag visited: it starts 8 bytes after
      the tag and its length is the 32-bit field after the tag; with no `data` tag both stay 0. */
  lemma {:induction false} SweepData(b: seq<uint8>, n: nat)
    requires n <= Offsets(b) && Sweep(b, n).Parsed?
    ensures var info := Sweep(b, n).info;
      match LastTag(b, DataTag, n)
      case None => info.dataStartIndex == 0 && info.dataLength == 0
      case Some(c) =>
        c + 7 < |b|
        && info.dataStartIndex == c + 8
        && info.dataLength == GetUInt32(b[c + 4], b[c + 5], b[c + 6], b[c + 7])
  {
    if n > 0 {
      assert Sweep(b, n - 1).Parsed?;
      SweepData(b, n - 1);
      VisitData(b, n - 1, Sweep(b, n - 1).info);
    }
  }

  /** Last match wins, for each tag separately, over the whole scan. */
  lemma ScanLastMatch(b: seq<uint8>)
    requires Scan(b).Parsed?
    ensures var info := Scan(b).info;
      (match LastTag(b, FmtTag, Offsets(b))
       case None => info.channelCount == 0 && info.sampleRate == 0 && info.bitsPerSample == 0
       case Some(c) =>
         c + 35 < |b|
         && info.channelCount == GetUInt16(b[c + 10], b[c + 11])
         && info.sampleRate == GetUInt32(b[c + 16], b[c + 17], b[c + 18], b[c + 19])
         && info.bitsPerSample == GetUInt16(b[c + 34], b[c + 35]))
      && (match LastTag(b, DataTag, Offsets(b))
          case None => info.dataStartIndex == 0 && info.dataLength == 0
          case Some(c) =>
            c + 7 < |b|
            && info.dataStartIndex == c + 8
            && info.dataLength == GetUInt32(b[c + 4], b[c + 5], b[c + 6], b[c + 7]))
  {
    SweepFmt(b, Offsets(b));
    SweepData(b, Offsets(b));
  }

  /** The ranges the header facts can take after a scan of `len` bytes: 16-bit fields
      are unsigned, 32-bit fields are what `getUInt32` can return, and the data window
      starts at 0 (no tag) or 8 bytes after a tag that lies inside the buffer. */
  predicate WellFormed(info: WaveInfo, len: nat)
  {
    0 <= info.channelCount < 0x1_0000 && 0 <= info.bitsPerSample < 0x1_0000
    && -0x8000_0000 <= info.sampleRate < 0x8000_0000
    && -0x8000_0000 <= info.dataLength < 0x8000_0000
    && (info.dataStartIndex == 0 || 8 <= info.dataStartIndex <= len)
  }

  /** Every scan that does not throw leaves the fields in those ranges. */
  lemma ScanWellFormed(b: seq<uint8>)
    requires Scan(b).Parsed?
    ensures WellFormed(Scan(b).info, |b|)
  {
    ScanLastMatch(b);
  }

  // ---------------------------------------------------------------------------
  // The parser object
  // ---------------------------------------------------------------------------

  /** The parser object: five fields that the constructor's scan fills in. */
  class WaveFileParser {
    var channelCount: int
    var sampleRate: int
    var bitsPerSample: int
    var dataLength: int
    var dataStartIndex: int

    ghost function Info(): WaveInfo
      reads this
    {
      WaveInfo(channelCount, sampleRate, bitsPerSample, dataLength, dataStartIndex)
    }

    /** The fields hold what some scan can produce. */
    ghost predicate Valid()
      reads this
    {
      exists len: nat :: WellFormed(Info(), len)
    }

    /** `new WaveFileParser(bytes)` when the scan does not throw (see `Parse` for when it does). */
    constructor (bytes: array<uint8>)
      requires Scan(bytes[..]).Parsed?
      ensures Valid() && Info() == Scan(bytes[..]).info
      ensures WellFormed(Info(), bytes.Length)
    {
      ScanWellFormed(bytes[..]);
      var r := Parse(bytes);
      channelCount := r.info.channelCount;
      sampleRate := r.info.sampleRate;
      bitsPerSample := r.info.bitsPerSample;
      dataLength := r.info.dataLength;
      dataStartIndex := r.info.dataStartIndex;
      new;
      assert WellFormed(Info(), bytes.Length);
    }

    function GetChannelCount(): (r: int)
      reads this
      requires Valid()
      ensures 0 <= r < 0x1_0000
    {
      channelCount
    }

    function GetSampleRate(): (r: int)
      reads this
      requires Valid()
      ensures -0x8000_0000 <= r < 0x8000_0000
    {
      sampleRate
    }

    function GetBitsPerSample(): (r: int)
      reads this
      requires Valid()
      ensures 0 <= r < 0x1_0000
    {
      bitsPerSample
    }

    function GetDataLength(): (r: int)
      reads this
      requires Valid()
      ensures -0x8000_0000 <= r < 0x8000_0000
    {
      dataLength
    }

    function GetDataStartIndex(): (r: int)
      reads this
      requires Valid()
      ensures r == 0 || r >= 8
    {
      dataStartIndex
    }
  }
}
