/** The tone generators: each fills a `double` sample array in a loop and then writes
    every sample as a 16-bit little-endian PCM word through a running byte index.
    The transcendental sample values (`Math.sin` and `(2/π)·Math.asin(Math.sin(..))`)
    are inputs, given as the value at each sample index; `Math.signum` is modelled.
    The sample count (`Math.round(duration * sampleRate)`, or `Math.ceil` for
    silence) is an input too. */
module WaveFactory {
  import opened Pcm
  import opened Wrappers

  // ---------------------------------------------------------------------------
  // Sample values
  // ---------------------------------------------------------------------------

  /** `(short)(dVal * Short.MAX_VALUE)`. */
  function FullScale(x: real): int16
  {
    NarrowToShort(x * 32767.0)
  }

  /** A normalised value is scaled without wrap-around and stays within ±32767. */
  lemma FullScaleNormalised(x: real)
    requires -1.0 <= x <= 1.0
    ensures FullScale(x) as int == Trunc(x * 32767.0)
    ensures -32767 <= FullScale(x) <= 32767
    ensures -1.0 < x * 32767.0 - FullScale(x) as real < 1.0
  {
    NarrowInRange(x * 32767.0);
  }

  /** The first `n` values of `wave` at full scale. */
  function FullScales(wave: nat -> real, n: nat): (v: seq<int16>)
    ensures |v| == n && forall i :: 0 <= i < n ==> v[i] == FullScale(wave(i))
  {
    seq(n, i requires 0 <= i < n => FullScale(wave(i)))
  }

  /** `Math.signum`: -1, 0 or 1 by the sign of its argument. */
  function Signum(x: real): real
  {
    if x > 0.0 then 1.0 else if x < 0.0 then -1.0 else 0.0
  }

  /** A square-wave sample takes one of three levels, by the sign of the sine. */
  lemma SquareLevels(x: real)
    ensures x > 0.0 ==> FullScale(Signum(x)) == 32767
    ensures x < 0.0 ==> FullScale(Signum(x)) == -32767
    ensures x == 0.0 ==> FullScale(Signum(x)) == 0
  {
  }

  // ---------------------------------------------------------------------------
  // The envelope of getSineTone
  // ---------------------------------------------------------------------------

  /** `Math.min(0.5f, Math.max(0, ramp))`. */
  function ClampRamp(ramp: real): (r: real)
    ensures 0.0 <= r <= 0.5
    ensures 0.0 <= ramp <= 0.5 ==> r == ramp
  {
    if ramp < 0.0 then 0.0 else if ramp > 0.5 then 0.5 else ramp
  }

  /** `Math.round(x)` for a float: the nearest whole number, halves rounded up. */
  function Round(x: real): int
  {
    (x + 0.5).Floor
  }

  /** `rampSamples = Math.round((float) numSamples * ramp)`, after the clamp: at most
      half the samples, rounded up, so the nominal fade ranges `[0, r)` and
      `[numSamples - r, numSamples)` share at most one index. The loops themselves never
      overlap: the fade-out loop starts at `max(r, numSamples - r)`. */
  function RampSamples(numSamples: nat, ramp: real): (r: nat)
    ensures 2 * r <= numSamples + 1
    ensures r <= numSamples
    ensures ramp <= 0.0 ==> r == 0
  {
    RoundHalf(numSamples, ClampRamp(ramp));
    Round(numSamples as real * ClampRamp(ramp))
  }

  /** Rounding `n * c` for `c` in [0, 0.5] gives at most half of `n`, rounded up. */
  lemma RoundHalf(n: nat, c: real)
    requires 0.0 <= c <= 0.5
    ensures 0 <= Round(n as real * c) && 2 * Round(n as real * c) <= n + 1
    ensures Round(n as real * c) <= n
    ensures c == 0.0 ==> Round(n as real * c) == 0
  {
    var x := n as real * c;
    assert 0.0 <= x <= n as real * 0.5;
    var r := (x + 0.5).Floor;
    assert r as real <= x + 0.5 < r as real + 1.0;
    assert 2.0 * r as real <= n as real + 1.0;
  }

  /** `x * k / rampSamples`: the full-scale value scaled down to `k` samples in from the
      silent end of a ramp of `r` samples. */
  function RampScale(x: real, k: nat, r: nat): real
    requires r > 0
  {
    x * k as real / r as real
  }

  /** `(short)(dVal * Short.MAX_VALUE * k / rampSamples)`: a sample on the ramp. */
  function Ramped(dVal: real, k: nat, r: nat): int16
    requires r > 0
  {
    NarrowToShort(RampScale(dVal * 32767.0, k, r))
  }

  /** The value written for sample `i` of `getSineTone`: fade-in below `r`, full scale up
      to `numSamples - r`, fade-out from there on. */
  function ToneValue(numSamples: nat, r: nat, dVal: real, i: nat): int16
    requires i < numSamples
  {
    if i < r then Ramped(dVal, i, r)
    else if i < numSamples - r then FullScale(dVal)
    else Ramped(dVal, numSamples - i, r)
  }

  function ToneValues(numSamples: nat, r: nat, sine: nat -> real): (v: seq<int16>)
    ensures |v| == numSamples
  {
    seq(numSamples, i requires 0 <= i < numSamples => ToneValue(numSamples, r, sine(i), i))
  }

  /** The narrowing cast is monotone and stays in range on [-32767, 32767]. */
  lemma NarrowMonotone(a: real, b: real)
    requires -32767.0 <= b <= 32767.0
    ensures 0.0 <= a <= b ==> 0 <= NarrowToShort(a) <= NarrowToShort(b)
    ensures b <= a <= 0.0 ==> NarrowToShort(b) <= NarrowToShort(a) <= 0
  {
    if 0.0 <= a <= b || b <= a <= 0.0 {
      NarrowInRange(a);
      NarrowInRange(b);
    }
  }

  /** Scaling by `k / r` with `k <= r` moves a value toward zero without crossing it; the
      ends of the ramp give zero and the value itself. */
  lemma Attenuate(x: real, k: nat, r: nat)
    requires 0 < r && k <= r
    ensures x >= 0.0 ==> 0.0 <= RampScale(x, k, r) <= x
    ensures x < 0.0 ==> x <= RampScale(x, k, r) <= 0.0
    ensures k == 0 ==> RampScale(x, k, r) == 0.0
    ensures k == r ==> RampScale(x, k, r) == x
  {
    var y, kr, rr := RampScale(x, k, r), k as real, r as real;
    assert y * rr == x * kr;
    assert x * rr - x * kr == x * (rr - kr);
    if x >= 0.0 {
      assert 0.0 <= x * kr <= x * rr;
    } else {
      assert x * rr <= x * kr <= 0.0;
    }
  }

  /** A ramped sample of a normalised value has the sign of the full-scale sample and is
      never louder. */
  lemma RampAttenuates(dVal: real, k: nat, r: nat)
    requires 0 < r && k <= r && -1.0 <= dVal <= 1.0
    ensures dVal >= 0.0 ==> 0 <= Ramped(dVal, k, r) <= FullScale(dVal)
    ensures dVal < 0.0 ==> FullScale(dVal) <= Ramped(dVal, k, r) <= 0
  {
    Attenuate(dVal * 32767.0, k, r);
    NarrowMonotone(RampScale(dVal * 32767.0, k, r), dVal * 32767.0);
  }

  /** The ramp factor `k / r` gives silence at `k = 0` (the first fade-in sample) and
      full scale at `k = r` (the first fade-out sample, `i = numSamples - r`, which the
      fade-out loop reaches only when `numSamples - r >= r`). */
  lemma RampEnds(dVal: real, r: nat)
    requires 0 < r
    ensures Ramped(dVal, 0, r) == 0
    ensures Ramped(dVal, r, r) == FullScale(dVal)
  {
    Attenuate(dVal * 32767.0, 0, r);
    Attenuate(dVal * 32767.0, r, r);
  }

  /** Each `getSineTone` sample of a normalised value lies between 0 and the full-scale
      sample: the fades never amplify and never flip the sign. The middle stretch and a
      tone without ramp are at full scale, and a ramped tone starts silent. */
  lemma ToneEnvelope(numSamples: nat, r: nat, dVal: real, i: nat)
    requires i < numSamples && -1.0 <= dVal <= 1.0
    ensures dVal >= 0.0 ==> 0 <= ToneValue(numSamples, r, dVal, i) <= FullScale(dVal) <= 32767
    ensures dVal < 0.0 ==> -32767 <= FullScale(dVal) <= ToneValue(numSamples, r, dVal, i) <= 0
    ensures r <= i < numSamples - r ==> ToneValue(numSamples, r, dVal, i) == FullScale(dVal)
    ensures r == 0 ==> ToneValue(numSamples, r, dVal, i) == FullScale(dVal)
    ensures i == 0 < r ==> ToneValue(numSamples, r, dVal, i) == 0
  {
    FullScaleNormalised(dVal);
    NarrowMonotone(dVal * 32767.0, dVal * 32767.0);
    if i < r {
      RampAttenuates(dVal, i, r);
      RampEnds(dVal, r);
    } else if i >= numSamples - r {
      RampAttenuates(dVal, numSamples - i, r);
    }
  }

  // ---------------------------------------------------------------------------
  // The generators
  // ---------------------------------------------------------------------------

  /** Writes one sample through the running byte index: the low byte of `val`, then its
      high byte, and returns the index advanced by two. */
  method PutShort(generatedSnd: array<uint8>, idx: nat, val: int16) returns (next: nat)
    requires idx + 1 < generatedSnd.Length
    modifies generatedSnd
    ensures next == idx + 2
    ensures generatedSnd[..] == old(generatedSnd[..])[idx := LowByte(val)][idx + 1 := HighByte(val)]
  {
    generatedSnd[idx] := LowByte(val);
    generatedSnd[idx + 1] := HighByte(val);
    next := idx + 2;
  }

  /** `getSineTone`: `numSamples` sine samples under the fade-in/fade-out envelope, as
      `2 * numSamples` PCM bytes. The three loops share `i` and advance `idx` by two, so
      fade-in covers `[0, r)`, the middle `[r, numSamples - r)` and fade-out the rest. */
  method SineTone(numSamples: nat, ramp: real, sine: nat -> real) returns (generatedSnd: array<uint8>)
    ensures generatedSnd.Length == 2 * numSamples
    ensures generatedSnd[..] == Encode(ToneValues(numSamples, RampSamples(numSamples, ramp), sine))
  {
    var sample := new real[numSamples];
    generatedSnd := new uint8[2 * numSamples];
    var clamped := ClampRamp(ramp);
    for k := 0 to numSamples
      invariant forall j :: 0 <= j < k ==> sample[j] == sine(j)
    {
      sample[k] := sine(k);
    }
    var idx := 0;
    var i := 0;
    var rampSamples := Round(numSamples as real * clamped);
    RoundHalf(numSamples, clamped);
    assert rampSamples == RampSamples(numSamples, ramp);
    ghost var v := ToneValues(numSamples, rampSamples, sine);

    // Fade in
    while i < rampSamples
      invariant 0 <= i <= rampSamples && idx == 2 * i
      modifies generatedSnd
      invariant Written(generatedSnd[..], v, i)
    {
      var val := Ramped(sample[i], i, rampSamples);
      assert v[i] == val;
      WrittenStep(generatedSnd[..], v, i);
      idx := PutShort(generatedSnd, idx, val);
      i := i + 1;
    }

    // Full scale
    while i < numSamples - rampSamples
      invariant rampSamples <= i <= numSamples && idx == 2 * i
      modifies generatedSnd
      invariant Written(generatedSnd[..], v, i)
    {
      var val := FullScale(sample[i]);
      assert v[i] == val;
      WrittenStep(generatedSnd[..], v, i);
      idx := PutShort(generatedSnd, idx, val);
      i := i + 1;
    }

    // Fade out
    while i < numSamples
      invariant rampSamples <= i <= numSamples && numSamples - rampSamples <= i && idx == 2 * i
      modifies generatedSnd
      invariant Written(generatedSnd[..], v, i)
    {
      var val := Ramped(sample[i], numSamples - i, rampSamples);
      assert v[i] == val;
      WrittenStep(generatedSnd[..], v, i);
      idx := PutShort(generatedSnd, idx, val);
      i := i + 1;
    }
    EncodeByPairs(generatedSnd[..], v);
  }

  /** `getSquareWave`: `signum` of each sine sample at full scale. */
  method SquareWave(numSamples: nat, sine: nat -> real) returns (generatedSnd: array<uint8>)
    ensures generatedSnd[..] == Encode(FullScales((i: nat) => Signum(sine(i)), numSamples))
  {
    var sample := new real[numSamples];
    generatedSnd := new uint8[2 * numSamples];
    for i := 0 to numSamples
      invariant forall j :: 0 <= j < i ==> sample[j] == Signum(sine(j))
    {
      sample[i] := Signum(sine(i));
    }
    ghost var v := FullScales((i: nat) => Signum(sine(i)), numSamples);
    var idx := 0;
    for i := 0 to numSamples
      invariant idx == 2 * i
      modifies generatedSnd
      invariant Written(generatedSnd[..], v, i)
    {
      var val := FullScale(sample[i]);
      WrittenStep(generatedSnd[..], v, i);
      idx := PutShort(generatedSnd, idx, val);
    }
    EncodeByPairs(generatedSnd[..], v);
  }

  /** `getTriangleWave`: each triangle sample (`(2/π)·asin(sin(..))`, given) at full scale. */
  method TriangleWave(numSamples: nat, triangle: nat -> real) returns (generatedSnd: array<uint8>)
    ensures generatedSnd[..] == Encode(FullScales(triangle, numSamples))
  {
    var sample := new real[numSamples];
    generatedSnd := new uint8[2 * numSamples];
    for i := 0 to numSamples
      invariant forall j :: 0 <= j < i ==> sample[j] == triangle(j)
    {
      sample[i] := triangle(i);
    }
    ghost var v := FullScales(triangle, numSamples);
    var idx := 0;
    for i := 0 to numSamples
      invariant idx == 2 * i
      modifies generatedSnd
      invariant Written(generatedSnd[..], v, i)
    {
      var val := FullScale(sample[i]);
      WrittenStep(generatedSnd[..], v, i);
      idx := PutShort(generatedSnd, idx, val);
    }
    EncodeByPairs(generatedSnd[..], v);
  }

  /** `getSilence`: `2 * numSamples` zero bytes, the PCM image of `numSamples` zero samples. */
  lemma EncodeSilence(n: nat)
    ensures Encode(seq(n, i => 0 as int16)) == seq(2 * n, k => 0 as uint8)
  {
    var z := seq(n, i => 0 as int16);
    forall k | 0 <= k < 2 * n ensures Encode(z)[k] == 0 {
      assert LowByte(z[k / 2]) == 0 && HighByte(z[k / 2]) == 0;
    }
  }

  method Silence(numSamples: nat) returns (generatedSnd: array<uint8>)
    ensures generatedSnd.Length == 2 * numSamples
    ensures forall k :: 0 <= k < generatedSnd.Length ==> generatedSnd[k] == 0
    ensures generatedSnd[..] == Encode(seq(numSamples, i => 0 as int16))
  {
    generatedSnd := new uint8[2 * numSamples];
    var idx := 0;
    for i := 0 to numSamples
      invariant idx == 2 * i
      invariant forall k :: 0 <= k < idx ==> generatedSnd[k] == 0
    {
      generatedSnd[idx] := 0;
      idx := idx + 1;
      generatedSnd[idx] := 0;
      idx := idx + 1;
    }
    EncodeSilence(numSamples);
    assert generatedSnd[..] == seq(2 * numSamples, k => 0 as uint8);
  }

  // ---------------------------------------------------------------------------
  // The loopable tone of getSineToneRound
  // ---------------------------------------------------------------------------

  /** The first index in `[lo, hi)` satisfying `p`. */
  function FirstWhere(p: nat -> bool, lo: nat, hi: nat): (r: Option<nat>)
    ensures r.Some? ==> lo <= r.value < hi && p(r.value) && forall j :: lo <= j < r.value ==> !p(j)
    ensures r.None? ==> forall j :: lo <= j < hi ==> !p(j)
    decreases hi - lo
  {
    if lo >= hi then None
    else if p(lo) then Some(lo)
    else FirstWhere(p, lo + 1, hi)
  }

  /** The wave crosses zero going up at `i`: `sample[i - 1] < 0 && sample[i] >= 0`. */
  predicate UpwardCrossing(sine: nat -> real, i: nat)
  {
    i >= 1 && sine(i - 1) < 0.0 && sine(i) >= 0.0
  }

  /** An upward crossing that lands within 0.005 of zero. */
  predicate PreciseCrossing(sine: nat -> real, i: nat)
  {
    UpwardCrossing(sine, i) && sine(i) <= 0.005
  }

  function FirstCrossing(sine: nat -> real, lo: nat, hi: nat): (r: Option<nat>)
    ensures r.Some? ==> lo <= r.value < hi && UpwardCrossing(sine, r.value)
                        && forall j :: lo <= j < r.value ==> !UpwardCrossing(sine, j)
    ensures r.None? ==> forall j :: lo <= j < hi ==> !UpwardCrossing(sine, j)
  {
    var p := (j: nat) => UpwardCrossing(sine, j);
    assert forall j: nat :: p(j) == UpwardCrossing(sine, j);
    FirstWhere(p, lo, hi)
  }

  function FirstPrecise(sine: nat -> real, lo: nat, hi: nat): (r: Option<nat>)
    ensures r.Some? ==> lo <= r.value < hi && PreciseCrossing(sine, r.value)
                        && forall j :: lo <= j < r.value ==> !PreciseCrossing(sine, j)
    ensures r.None? ==> forall j :: lo <= j < hi ==> !PreciseCrossing(sine, j)
  {
    var p := (j: nat) => PreciseCrossing(sine, j);
    assert forall j: nat :: p(j) == PreciseCrossing(sine, j);
    FirstWhere(p, lo, hi)
  }

  function OrZero(r: Option<nat>): nat
  {
    if r.Some? then r.value else 0
  }

  /** The cut point of `getSineToneRound`, searched in `[minCount, 2 * minCount)`: the first
      precise crossing if there is one, else the first crossing, else 0. */
  function CutPoint(minCount: nat, sine: nat -> real): (cut: nat)
    ensures cut == 0 || minCount <= cut < 2 * minCount
  {
    match FirstPrecise(sine, minCount, 2 * minCount)
    case Some(p) => p
    case None =>
      match FirstCrossing(sine, minCount, 2 * minCount)
      case Some(f) => f
      case None => 0
  }

  /** A cut is only ever made at an upward crossing inside the search window; no precise
      crossing is passed over; when there is none, no crossing at all is passed over;
      and the cut is 0 exactly when the window holds no crossing. */
  lemma CutPointSpec(minCount: nat, sine: nat -> real)
    ensures var cut := CutPoint(minCount, sine);
      (cut == 0 || (minCount <= cut < 2 * minCount && UpwardCrossing(sine, cut)))
      && (forall j :: minCount <= j < cut ==> !PreciseCrossing(sine, j))
      && ((exists j :: minCount <= j < 2 * minCount && PreciseCrossing(sine, j)) ==> PreciseCrossing(sine, cut))
      && ((forall j :: minCount <= j < 2 * minCount ==> !PreciseCrossing(sine, j))
            ==> forall j :: minCount <= j < cut ==> !UpwardCrossing(sine, j))
      && (cut == 0 <==> forall j :: minCount <= j < 2 * minCount ==> !UpwardCrossing(sine, j))
  {
    var cut := CutPoint(minCount, sine);
    var pr := FirstPrecise(sine, minCount, 2 * minCount);
    var fc := FirstCrossing(sine, minCount, 2 * minCount);
    if pr.None? && fc.Some? {
      assert cut == fc.value;
    }
    if pr.Some? {
      assert UpwardCrossing(sine, pr.value);
    }
  }

  /** Searching one index further finds the same first crossing, or the new index. */
  lemma CrossingExtend(sine: nat -> real, lo: nat, hi: nat)
    requires lo <= hi
    ensures FirstCrossing(sine, lo, hi + 1) ==
      if FirstCrossing(sine, lo, hi).Some? then FirstCrossing(sine, lo, hi)
      else if UpwardCrossing(sine, hi) then Some(hi) else None
  {
    var r, r' := FirstCrossing(sine, lo, hi), FirstCrossing(sine, lo, hi + 1);
    if r.Some? {
      assert r' == r by {
        if r'.None? || r'.value != r.value {
          assert false;
        }
      }
    }
  }

  lemma PreciseExtend(sine: nat -> real, lo: nat, hi: nat)
    requires lo <= hi
    ensures FirstPrecise(sine, lo, hi + 1) ==
      if FirstPrecise(sine, lo, hi).Some? then FirstPrecise(sine, lo, hi)
      else if PreciseCrossing(sine, hi) then Some(hi) else None
  {
    var r, r' := FirstPrecise(sine, lo, hi), FirstPrecise(sine, lo, hi + 1);
    if r.Some? {
      assert r' == r by {
        if r'.None? || r'.value != r.value {
          assert false;
        }
      }
    }
  }

  /** A first precise crossing stays the first one of any longer range. */
  lemma PreciseStable(sine: nat -> real, lo: nat, hi: nat, hi': nat)
    requires hi <= hi' && FirstPrecise(sine, lo, hi).Some?
    ensures FirstPrecise(sine, lo, hi') == FirstPrecise(sine, lo, hi)
  {
    var r, r' := FirstPrecise(sine, lo, hi), FirstPrecise(sine, lo, hi');
    if r'.None? || r'.value != r.value {
      assert false;
    }
  }

  /** The sampling loop of `getSineToneRound`: fills `sample` with sine values from 0 on,
      searching from `minCount` on for the first upward crossing and stopping at the first
      precise one; returns `Math.max(firstCrossoverIndex, properCrossoverIndex)`. Every
      sample before the cut has been filled. */
  method SampleToCrossover(minCount: nat, sine: nat -> real, sample: array<real>) returns (zeroCrossover: nat)
    requires sample.Length == 2 * minCount
    modifies sample
    ensures zeroCrossover == CutPoint(minCount, sine)
    ensures forall j :: 0 <= j < zeroCrossover ==> sample[j] == sine(j)
  {
    var numSamples := sample.Length;
    var firstCrossoverIndex := 0;
    var properCrossoverIndex := 0;
    var i := 0;
    while i < numSamples
      invariant 0 <= i <= numSamples
      invariant forall j :: 0 <= j < i ==> sample[j] == sine(j)
      invariant properCrossoverIndex == 0
      invariant FirstPrecise(sine, minCount, i) == None
      invariant firstCrossoverIndex == OrZero(FirstCrossing(sine, minCount, i))
    {
      sample[i] := sine(i);
      if i >= minCount {
        CrossingExtend(sine, minCount, i);
        PreciseExtend(sine, minCount, i);
        if firstCrossoverIndex == 0 && sample[i - 1] < 0.0 && sample[i] >= 0.0 {
          firstCrossoverIndex := i;
        }
        if sample[i - 1] < 0.0 && sample[i] >= 0.0 && sample[i] <= 0.005 {
          properCrossoverIndex := i;
          PreciseStable(sine, minCount, i + 1, numSamples);
          break;
        }
      }
      i := i + 1;
    }
    zeroCrossover := if firstCrossoverIndex > properCrossoverIndex then firstCrossoverIndex else properCrossoverIndex;
  }

  /** `getSineToneRound`: a window of `2 * minCount` sine samples cut at the crossover;
      the result is the samples `0 .. cut-1` at full scale, `2 * cut` bytes. */
  method SineToneRound(minCount: nat, sine: nat -> real) returns (generatedSnd: array<uint8>)
    ensures generatedSnd[..] == Encode(FullScales(sine, CutPoint(minCount, sine)))
  {
    var sample := new real[minCount * 2];
    var zeroCrossover := SampleToCrossover(minCount, sine, sample);
    generatedSnd := new uint8[2 * zeroCrossover];
    ghost var v := FullScales(sine, zeroCrossover);
    var idx := 0;
    for k := 0 to zeroCrossover
      invariant idx == 2 * k
      modifies generatedSnd
      invariant Written(generatedSnd[..], v, k)
    {
      var val := FullScale(sample[k]);
      WrittenStep(generatedSnd[..], v, k);
      idx := PutShort(generatedSnd, idx, val);
    }
    EncodeByPairs(generatedSnd[..], v);
  }
}
