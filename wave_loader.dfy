/** The sample codec and the mixer. WaveLoader.java and WaveFactory.java carry the
    same code for both (`mixWaves`, `pcmToFloat`, `floatToPcm`, `toFloat`, `toShort`,
    `fromFloat`, `fromShort`); this module models it once. Floats are `real`s. */
module WaveLoader {
  import opened Pcm

  // ---------------------------------------------------------------------------
  // Specification functions
  // ---------------------------------------------------------------------------

  /** `(float) s / 32768.0f`: exact, since every short is a float and the divisor a power of two. */
  function ToUnit(s: int16): (x: real)
    ensures -1.0 <= x <= 1.0 - 1.0 / 32768.0
    ensures (x < 0.0 <==> s < 0) && (x == 0.0 <==> s == 0)
  {
    s as real / 32768.0
  }

  /** `(short)(f * 32768.0f)`: scale by 2^15, truncate toward zero, wrap to 16 bits. */
  function Quantize(f: real): int16
  {
    NarrowToShort(f * 32768.0)
  }

  function ToUnits(s: seq<int16>): (x: seq<real>)
    ensures |x| == |s| && forall i :: 0 <= i < |s| ==> x[i] == ToUnit(s[i])
  {
    seq(|s|, i requires 0 <= i < |s| => ToUnit(s[i]))
  }

  function QuantizeAll(f: seq<real>): (s: seq<int16>)
    ensures |s| == |f| && forall i :: 0 <= i < |f| ==> s[i] == Quantize(f[i])
  {
    seq(|f|, i requires 0 <= i < |f| => Quantize(f[i]))
  }

  // ---------------------------------------------------------------------------
  // Properties of the codec
  // ---------------------------------------------------------------------------

  /** A short survives the trip to float and back: `fromFloat(toFloat(s)) == s`. */
  lemma QuantizeToUnit(s: int16)
    ensures Quantize(ToUnit(s)) == s
  {
    assert ToUnit(s) * 32768.0 == s as real;
    NarrowWhole(s);
  }

  lemma QuantizeToUnits(s: seq<int16>)
    ensures QuantizeAll(ToUnits(s)) == s
  {
    forall i | 0 <= i < |s| ensures QuantizeAll(ToUnits(s))[i] == s[i] {
      QuantizeToUnit(s[i]);
    }
  }

  /** PCM to float and back is exact up to the last whole pair of bytes:
      `floatToPcm(pcmToFloat(b)) == b[..2*(|b|/2)]`. */
  lemma PcmRoundTrip(b: seq<uint8>)
    ensures Encode(QuantizeAll(ToUnits(Decode(b)))) == b[..2 * (|b| / 2)]
  {
    QuantizeToUnits(Decode(b));
    EncodeDecode(b);
  }

  /** A float in [-1, 1) comes back from PCM less than one quantum away from itself,
      and never further from zero (the cast truncates toward zero). */
  lemma QuantizeError(f: real)
    requires -1.0 <= f < 1.0
    ensures -1.0 / 32768.0 < ToUnit(Quantize(f)) - f < 1.0 / 32768.0
    ensures f >= 0.0 ==> 0.0 <= ToUnit(Quantize(f)) <= f
    ensures f < 0.0 ==> f <= ToUnit(Quantize(f)) <= 0.0
  {
    NarrowInRange(f * 32768.0);
  }

  /** Just above the range of `QuantizeError` the cast wraps: a full-scale 1.0 (and
      anything up to one quantum above it) becomes -32768, the most negative short. */
  lemma QuantizeWrapsAtOne(f: real)
    requires 1.0 <= f < 1.0 + 1.0 / 32768.0
    ensures Quantize(f) == -0x8000
  {
    assert 32768.0 <= f * 32768.0 < 32769.0;
    assert Trunc(f * 32768.0) == 32768;
  }

  // ---------------------------------------------------------------------------
  // The codec, as the source writes it
  // ---------------------------------------------------------------------------

  /** `toFloat`: each short divided by 32768. */
  method ToFloat(pcms: array<int16>) returns (floaters: array<real>)
    ensures floaters[..] == ToUnits(pcms[..])
  {
    floaters := new real[pcms.Length];
    for i := 0 to pcms.Length
      invariant forall k :: 0 <= k < i ==> floaters[k] == ToUnit(pcms[k])
    {
      floaters[i] := ToUnit(pcms[i]);
    }
  }

  /** `toShort`: `bytes.length / 2` little-endian `getShort` reads through a buffer
      position that advances by two; an odd trailing byte is never read. */
  method ToShort(bytes: array<uint8>) returns (out: array<int16>)
    ensures out[..] == Decode(bytes[..])
  {
    out := new int16[bytes.Length / 2];
    var position := 0;
    for i := 0 to out.Length
      invariant position == 2 * i
      invariant forall k :: 0 <= k < i ==> out[k] == ShortOf(bytes[2 * k], bytes[2 * k + 1])
    {
      out[i] := ShortOf(bytes[position], bytes[position + 1]);
      position := position + 2;
    }
  }

  /** `fromFloat`: each float scaled by 32768 and cast to `short`. */
  method FromFloat(floats: array<real>) returns (shorts: array<int16>)
    ensures shorts[..] == QuantizeAll(floats[..])
  {
    shorts := new int16[floats.Length];
    for i := 0 to floats.Length
      invariant forall k :: 0 <= k < i ==> shorts[k] == Quantize(floats[k])
    {
      shorts[i] := Quantize(floats[i]);
    }
  }

  /** `fromShort`: `putShort` of each value in little-endian order, low byte first. */
  method FromShort(shorts: array<int16>) returns (bytes: array<uint8>)
    ensures bytes[..] == Encode(shorts[..])
  {
    bytes := new uint8[shorts.Length * 2];
    var position := 0;
    for i := 0 to shorts.Length
      invariant position == 2 * i
      invariant forall k :: 0 <= k < i ==> bytes[2 * k] == LowByte(shorts[k]) && bytes[2 * k + 1] == HighByte(shorts[k])
    {
      bytes[position] := LowByte(shorts[i]);
      bytes[position + 1] := HighByte(shorts[i]);
      position := position + 2;
    }
    EncodeByPairs(bytes[..], shorts[..]);
  }

  /** `pcmToFloat`: `toFloat(toShort(bytes))`. */
  method PcmToFloat(bytes: array<uint8>) returns (floats: array<real>)
    ensures floats[..] == ToUnits(Decode(bytes[..]))
    ensures |floats[..]| == bytes.Length / 2
  {
    var shorts := ToShort(bytes);
    floats := ToFloat(shorts);
  }

  /** `floatToPcm`: `fromShort(fromFloat(floats))`. */
  method FloatToPcm(floats: array<real>) returns (bytes: array<uint8>)
    ensures bytes[..] == Encode(QuantizeAll(floats[..]))
    ensures bytes.Length == 2 * floats.Length
  {
    var shorts := FromFloat(floats);
    bytes := FromShort(shorts);
  }

  // ---------------------------------------------------------------------------
  // Mixing
  // ---------------------------------------------------------------------------

  /** `Math.min(sound.length, destination.length - offset)`. */
  function WriteableSamples(soundLength: nat, destinationLength: nat, offset: int): int
  {
    if soundLength < destinationLength - offset then soundLength else destinationLength - offset
  }

  /** The destination after mixing: positions `offset .. offset+count-1` hold
      `tanh(sound[c] + destination[c + offset])`, every other position is untouched. */
  function Mixed(sound: seq<real>, destination: seq<real>, offset: nat, tanh: real -> real): (r: seq<real>)
    ensures |r| == |destination|
  {
    var count := WriteableSamples(|sound|, |destination|, offset);
    seq(|destination|, j requires 0 <= j < |destination| =>
      if offset <= j < offset + count then tanh(sound[j - offset] + destination[j]) else destination[j])
  }

  /** The window written is the sound truncated to the room after `offset`: it lies inside
      the destination, it is the whole sound exactly when the sound fits, and it is empty
      when `offset` is at or past the end. */
  lemma MixedWindow(sound: seq<real>, destination: seq<real>, offset: nat, tanh: real -> real)
    ensures var count := WriteableSamples(|sound|, |destination|, offset);
      (count > 0 ==> offset + count <= |destination| && count <= |sound|)
      && (count == |sound| <==> |sound| <= |destination| - offset)
      && (offset >= |destination| ==> Mixed(sound, destination, offset, tanh) == destination)
      && (forall j :: 0 <= j < |destination| && !(offset <= j < offset + count)
            ==> Mixed(sound, destination, offset, tanh)[j] == destination[j])
  {
  }

  /** `mixWaves`: mixes `sound` into `destination` in place. With a negative offset and
      something to write, the first access throws before any write (`thrown`). */
  method MixWaves(sound: array<real>, destination: array<real>, offset: int, tanh: real -> real)
      returns (thrown: bool)
    requires sound != destination
    modifies destination
    ensures thrown <==> offset < 0 && WriteableSamples(sound.Length, destination.Length, offset) > 0
    ensures thrown ==> destination[..] == old(destination[..])
    ensures !thrown ==> destination[..] == Mixed(sound[..], old(destination[..]), if offset < 0 then 0 else offset, tanh)
  {
    var writeableSamples := WriteableSamples(sound.Length, destination.Length, offset);
    if offset < 0 && writeableSamples > 0 {
      return true;
    }
    thrown := false;
    if writeableSamples <= 0 {
      assert destination[..] == Mixed(sound[..], old(destination[..]), if offset < 0 then 0 else offset, tanh);
      return;
    }
    for c := 0 to writeableSamples
      invariant forall j :: 0 <= j < destination.Length && !(offset <= j < offset + c) ==> destination[j] == old(destination[j])
      invariant forall j :: offset <= j < offset + c ==> destination[j] == tanh(sound[j - offset] + old(destination[j]))
    {
      destination[c + offset] := tanh(sound[c] + destination[c + offset]);
    }
  }
}
