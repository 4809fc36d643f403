# Wave-Factory, modelled in Dafny

Wave-Factory is a small Android audio toolkit. Its core does three things:

- It synthesises tones (sine with a fade-in/fade-out envelope, square, triangle, a
  "round" sine cut at an upward zero crossing so that copies of it loop without a click,
  and silence) into 16-bit little-endian PCM byte arrays.
- It converts between such PCM bytes and normalised float samples, and mixes one float
  buffer into another through `tanh`.
- It scans a RIFF/WAVE byte array for the `fmt ` and `data` tags to find the header
  fields and the PCM payload.

The model keeps the source's own form.

- The generators, the codec loops and `mixWaves` are methods over arrays. Each one is
  proved against a specification function on sequences. The properties the source
  promises are then proved about those functions as lemmas.
- The parser's constructor loop is the method `WaveFileParser.Parse`. It is proved equal
  to `Scan`, a fold of one loop step (`Visit`) over the offsets the loop visits. The
  class `WaveFileParser.WaveFileParser` holds the five fields and the getters.

Modules, one per source file plus a shared one:

- `Pcm` (`pcm.dfy`) holds the byte and short types, Java's `(short)` narrowing of a
  floating-point value, and the little-endian layout of a short, with its round-trip
  lemmas.
- `WaveLoader` (`wave_loader.dfy`) holds the codec (`toFloat`, `toShort`, `fromFloat`,
  `fromShort`, `pcmToFloat`, `floatToPcm`) and `mixWaves`.
  `WaveFactory.java:190-198` and `WaveFactory.java:230-282` hold the same code as
  `WaveLoader.java:42-50` and `WaveLoader.java:88-146`, apart from identifier names and
  comments. This module models both copies once.
- `WaveFactory` (`wave_factory.dfy`) holds the generators.
- `WaveFileParser` (`wave_file_parser.dfy`) holds the tag scan.
- `Wrappers` (`wrappers.dfy`) holds an `Option` type.

Representation choices:

- A Java `byte` is its bit pattern, the newtype `uint8` (0..255). A `short` is the
  newtype `int16`.
- `float` and `double` values are `real`s. `(short) x` truncates toward zero, saturates
  to the `int` range and keeps the low 16 bits (`Pcm.NarrowToShort`).
- `Math.sin` and `(2/π)·Math.asin(Math.sin(..))` are given as a function from sample
  index to value. `Math.signum` is modelled (`WaveFactory.Signum`): `SquareWave` takes
  the sine values and applies it itself. `Math.tanh` is a function parameter of `mixWaves`.
- The sample count `Math.round(duration * sampleRate)` (`Math.ceil` for silence) is a
  `nat` input.

Behaviour of the code that the model follows, where the RIFF layout or the method
names suggest otherwise:

- The `fmt ` fields are read at +10 (channels), +16 (taken as the sample rate; in the
  canonical layout this is the byte-rate field) and +34 (taken as bits per sample;
  canonically +22). The audio-format code is not read at all.
- The sample count uses `Math.round`, not a floor.
- There are no validation errors: only the ramp is clamped into [0, 0.5].
- `getSquareWave` and `getTriangleWave` have no envelope and no amplitude parameter.
  Only the sine variant has a round version.
- The scan can throw `ArrayIndexOutOfBoundsException`. A `fmt ` tag within 35 bytes of
  the end of the buffer throws, and so does a `data` tag within 7 bytes of the end.
  `Parse` returns this as `IndexOutOfBounds(index)`, naming the first index read out of
  range.
- With a minimum count of 0 the search window of `getSineToneRound` is empty. Its loop
  never runs and never reads `sample[-1]`, so `SineToneRound` needs no precondition.

## Model

| member | source | states |
|---|---|---|
| `Pcm.NarrowInRange` | wavefactory/src/main/java/net/scarlettsystems/android/wavefactory/WaveLoader.java:131 | inside the 16-bit range, `(short)` only truncates toward zero. It never wraps, it is within 1 of the value and never further from zero |
| `Pcm.NarrowWhole` | wavefactory/src/main/java/net/scarlettsystems/android/wavefactory/WaveLoader.java:131 | a whole number already in the short range is cast to itself |
| `Pcm.ShortOf` | wavefactory/src/main/java/net/scarlettsystems/android/wavefactory/WaveLoader.java:121 | `getShort` in little-endian order gives `lo + 256*hi` when the high byte is below 0x80, and that minus 65536 otherwise |
| `Pcm.ShortOfBytes` | wavefactory/src/main/java/net/scarlettsystems/android/wavefactory/WaveLoader.java:136-146 | splitting a short into low byte and high byte and joining them again gives the short back |
| `Pcm.BytesOfShort` | wavefactory/src/main/java/net/scarlettsystems/android/wavefactory/WaveLoader.java:114-124 | joining two bytes into a short and splitting it again gives both bytes back |
| `Pcm.EncodeByPairs` | wavefactory/src/main/java/net/scarlettsystems/android/wavefactory/WaveLoader.java:136-146 | a buffer holding each short's low byte then high byte at `2i`, `2i+1` is exactly the PCM encoding of those shorts |
| `Pcm.DecodeEncode` | wavefactory/src/main/java/net/scarlettsystems/android/wavefactory/WaveLoader.java:114-146 | `toShort(fromShort(s)) == s` |
| `Pcm.EncodeDecode` | wavefactory/src/main/java/net/scarlettsystems/android/wavefactory/WaveLoader.java:114-146 | `fromShort(toShort(b)) == b[..2*(b.length/2)]`: only an odd trailing byte is lost |
| `WaveLoader.ToUnit` | wavefactory/src/main/java/net/scarlettsystems/android/wavefactory/WaveLoader.java:109 | a short divided by 32768 lies in [-1, 1 - 1/32768] and has the short's sign |
| `WaveLoader.QuantizeToUnit` | wavefactory/src/main/java/net/scarlettsystems/android/wavefactory/WaveLoader.java:104-134 | a short survives `toFloat` then `fromFloat` unchanged |
| `WaveLoader.QuantizeToUnits` | wavefactory/src/main/java/net/scarlettsystems/android/wavefactory/WaveLoader.java:104-134 | `fromFloat(toFloat(s)) == s` for whole arrays |
| `WaveLoader.PcmRoundTrip` | wavefactory/src/main/java/net/scarlettsystems/android/wavefactory/WaveLoader.java:88-102 | `floatToPcm(pcmToFloat(b)) == b[..2*(b.length/2)]`: PCM to float and back is exact |
| `WaveLoader.QuantizeError` | wavefactory/src/main/java/net/scarlettsystems/android/wavefactory/WaveLoader.java:126-134 | a float in [-1, 1) comes back from PCM within 1/32768 of itself, and never further from zero |
| `WaveLoader.QuantizeWrapsAtOne` | wavefactory/src/main/java/net/scarlettsystems/android/wavefactory/WaveLoader.java:131 | at full scale the cast wraps: `(short)(1.0f * 32768.0f)` is -32768, and so is every float up to one quantum above 1.0 |
| `WaveLoader.ToFloat` | wavefactory/src/main/java/net/scarlettsystems/android/wavefactory/WaveLoader.java:104-112 | the result has one float per short, each the short divided by 32768 |
| `WaveLoader.ToShort` | wavefactory/src/main/java/net/scarlettsystems/android/wavefactory/WaveLoader.java:114-124 | the result has `bytes.length/2` shorts; short i is the signed little-endian value of bytes `2i`, `2i+1`; a buffer position advancing by two reaches every pair |
| `WaveLoader.FromFloat` | wavefactory/src/main/java/net/scarlettsystems/android/wavefactory/WaveLoader.java:126-134 | the result has one short per float, each `(short)(f * 32768)` |
| `WaveLoader.FromShort` | wavefactory/src/main/java/net/scarlettsystems/android/wavefactory/WaveLoader.java:136-146 | the result has `2*shorts.length` bytes: each short's low byte, then its high byte |
| `WaveLoader.PcmToFloat` | wavefactory/src/main/java/net/scarlettsystems/android/wavefactory/WaveLoader.java:88-91 | `bytes.length/2` floats, each the decoded short divided by 32768 |
| `WaveLoader.FloatToPcm` | wavefactory/src/main/java/net/scarlettsystems/android/wavefactory/WaveLoader.java:99-102 | `2*floats.length` bytes, the little-endian image of the quantized floats |
| `WaveLoader.MixedWindow` | wavefactory/src/main/java/net/scarlettsystems/android/wavefactory/WaveLoader.java:33-50 | the window written is `min(sound.length, destination.length - offset)` long and lies inside the destination. It is the whole sound exactly when the sound fits, and nothing is written when the offset is at or past the end. Every index outside the window keeps its value |
| `WaveLoader.MixWaves` | wavefactory/src/main/java/net/scarlettsystems/android/wavefactory/WaveLoader.java:42-50 | each index `c+offset` in the window becomes `tanh(sound[c] + old destination[c+offset])` and every other index is unchanged. A negative offset with something to write throws before any write |
| `WaveFileParser.GetUInt16` | wavefactory/src/main/java/net/scarlettsystems/android/wavefactory/WaveFileParser.java:40-45 | `getUInt16` is always in [0, 65535] |
| `WaveFileParser.GetUInt16Bits` | wavefactory/src/main/java/net/scarlettsystems/android/wavefactory/WaveFileParser.java:40-45 | the Java bit expression on sign-extended bytes equals `lo + 256*hi`, whatever the bytes' signs |
| `WaveFileParser.GetUInt32` | wavefactory/src/main/java/net/scarlettsystems/android/wavefactory/WaveFileParser.java:47-54 | `getUInt32` agrees with the unsigned little-endian value modulo 2^32 and lies in the signed 32-bit range |
| `WaveFileParser.GetUInt32Bits` | wavefactory/src/main/java/net/scarlettsystems/android/wavefactory/WaveFileParser.java:47-54 | the `long` built by or-ing the masked, sign-extended bytes (with `biggest << 24` sign-extended into the long) has the value `GetUInt32` gives |
| `WaveFileParser.UInt32BitsCases` | wavefactory/src/main/java/net/scarlettsystems/android/wavefactory/WaveFileParser.java:47-54 | the value of Java's `getUInt32` bit expression is the unsigned little-endian value of the four bytes when the top byte is below 0x80, and that value minus 2^32 otherwise |
| `WaveFileParser.Offsets` | wavefactory/src/main/java/net/scarlettsystems/android/wavefactory/WaveFileParser.java:17 | the loop visits `b.length - 4` offsets, so every tag read `c..c+3` is in bounds; a buffer of at most 4 bytes is not scanned |
| `WaveFileParser.FirstOutside` | wavefactory/src/main/java/net/scarlettsystems/android/wavefactory/WaveFileParser.java:24-26 | the index reported by a faulting field read is the first read, in program order, that falls past the end |
| `WaveFileParser.Parse` | wavefactory/src/main/java/net/scarlettsystems/android/wavefactory/WaveFileParser.java:12-38 | the constructor's loop yields exactly `Scan(bytes)`, stopping at the first out-of-range field read |
| `WaveFileParser.ScanUntagged` | wavefactory/src/main/java/net/scarlettsystems/android/wavefactory/WaveFileParser.java:6-37 | a buffer holding neither tag is scanned without throwing and every field stays 0 |
| `WaveFileParser.ScanFaults` | wavefactory/src/main/java/net/scarlettsystems/android/wavefactory/WaveFileParser.java:17-37 | the scan throws if and only if some visited tag's field reads run past the end; the first such tag decides the reported index |
| `WaveFileParser.ScanLastMatch` | wavefactory/src/main/java/net/scarlettsystems/android/wavefactory/WaveFileParser.java:17-37 | no early exit: the `fmt ` fields come from the last `fmt ` tag at c (channels from `c+10..11`, rate from `c+16..19`, bits from `c+34..35`) and the data window from the last `data` tag at c (start `c+8`, length the 32-bit value at `c+4..7`), independently and in either order. With no such tag they stay 0 |
| `WaveFileParser.ScanWellFormed` | wavefactory/src/main/java/net/scarlettsystems/android/wavefactory/WaveFileParser.java:6-10 | after a scan that does not throw, the 16-bit fields are unsigned, the 32-bit fields are signed 32-bit values, and the data start is 0 or between 8 and the buffer length |
| `WaveFileParser.WaveFileParser.constructor` | wavefactory/src/main/java/net/scarlettsystems/android/wavefactory/WaveFileParser.java:12-38 | the five fields are those of `Scan(bytes)`, when the scan does not throw |
| `WaveFileParser.WaveFileParser.GetChannelCount` | wavefactory/src/main/java/net/scarlettsystems/android/wavefactory/WaveFileParser.java:56-59 | the channel count is in [0, 65535] |
| `WaveFileParser.WaveFileParser.GetSampleRate` | wavefactory/src/main/java/net/scarlettsystems/android/wavefactory/WaveFileParser.java:61-64 | the sample rate is a signed 32-bit value |
| `WaveFileParser.WaveFileParser.GetBitsPerSample` | wavefactory/src/main/java/net/scarlettsystems/android/wavefactory/WaveFileParser.java:66-69 | bits per sample is in [0, 65535] |
| `WaveFileParser.WaveFileParser.GetDataLength` | wavefactory/src/main/java/net/scarlettsystems/android/wavefactory/WaveFileParser.java:71-74 | the data length is a signed 32-bit value |
| `WaveFileParser.WaveFileParser.GetDataStartIndex` | wavefactory/src/main/java/net/scarlettsystems/android/wavefactory/WaveFileParser.java:76-79 | the data start is 0 (no `data` tag) or at least 8 |
| `WaveFactory.FullScaleNormalised` | wavefactory/src/main/java/net/scarlettsystems/android/wavefactory/WaveFactory.java:67 | a value in [-1, 1] times `Short.MAX_VALUE` is cast without wrap-around, lies within ±32767 and is within 1 of the exact product |
| `WaveFactory.SquareLevels` | wavefactory/src/main/java/net/scarlettsystems/android/wavefactory/WaveFactory.java:94-101 | a square-wave sample is 32767, -32767 or 0 by the sign of the sine; 0 stays 0 |
| `WaveFactory.ClampRamp` | wavefactory/src/main/java/net/scarlettsystems/android/wavefactory/WaveFactory.java:37 | the ramp is clamped into [0, 0.5] and kept when already there |
| `WaveFactory.RampSamples` | wavefactory/src/main/java/net/scarlettsystems/android/wavefactory/WaveFactory.java:49 | the ramp length is at most half the samples rounded up, so the nominal fade ranges `[0, r)` and `[N - r, N)` share at most one index (the loops never overlap: fade-out starts at `max(r, N - r)`); a non-positive ramp gives 0 |
| `WaveFactory.RampAttenuates` | wavefactory/src/main/java/net/scarlettsystems/android/wavefactory/WaveFactory.java:56-78 | a ramped sample keeps the sign of the full-scale sample and is never louder |
| `WaveFactory.RampEnds` | wavefactory/src/main/java/net/scarlettsystems/android/wavefactory/WaveFactory.java:56-78 | the ramp factor `k/r` gives silence at `k = 0` (the first fade-in sample, line 56) and full scale at `k = r` (the first fade-out sample `i = N - r`, line 78, reached only when `N - r >= r`) |
| `WaveFactory.ToneEnvelope` | wavefactory/src/main/java/net/scarlettsystems/android/wavefactory/WaveFactory.java:49-82 | every `getSineTone` sample lies between 0 and the full-scale sample. The middle `[r, N-r)` and a tone without ramp are at full scale, and a ramped tone starts silent |
| `WaveFactory.PutShort` | wavefactory/src/main/java/net/scarlettsystems/android/wavefactory/WaveFactory.java:58-59 | writes the low byte at `idx` and the high byte at `idx+1`, changes nothing else, and advances `idx` by two |
| `WaveFactory.SineTone` | wavefactory/src/main/java/net/scarlettsystems/android/wavefactory/WaveFactory.java:32-84 | `2*numSamples` bytes. Fade-in covers `[0, r)`, the middle `[r, N-r)` and fade-out `[max(r, N-r), N)`, sharing `i` with `idx == 2*i`, so sample i is written exactly once, low byte first |
| `WaveFactory.SquareWave` | wavefactory/src/main/java/net/scarlettsystems/android/wavefactory/WaveFactory.java:86-106 | `2*numSamples` bytes: the little-endian image of `signum(sine(i))` at full scale |
| `WaveFactory.TriangleWave` | wavefactory/src/main/java/net/scarlettsystems/android/wavefactory/WaveFactory.java:108-128 | `2*numSamples` bytes: the little-endian image of each triangle sample at full scale |
| `WaveFactory.EncodeSilence` | wavefactory/src/main/java/net/scarlettsystems/android/wavefactory/WaveFactory.java:177-188 | the PCM image of n zero samples is 2n zero bytes |
| `WaveFactory.Silence` | wavefactory/src/main/java/net/scarlettsystems/android/wavefactory/WaveFactory.java:177-188 | `2*numSamples` bytes, all zero |
| `WaveFactory.FirstCrossing` | wavefactory/src/main/java/net/scarlettsystems/android/wavefactory/WaveFactory.java:148 | the first index of a range where `sample[i-1] < 0 <= sample[i]`, or none when the range holds no such index |
| `WaveFactory.FirstPrecise` | wavefactory/src/main/java/net/scarlettsystems/android/wavefactory/WaveFactory.java:154 | the first upward crossing of a range whose value is at most 0.005, or none |
| `WaveFactory.CutPoint` | wavefactory/src/main/java/net/scarlettsystems/android/wavefactory/WaveFactory.java:161 | the cut is 0 or inside the search window `[minCount, 2*minCount)` |
| `WaveFactory.CutPointSpec` | wavefactory/src/main/java/net/scarlettsystems/android/wavefactory/WaveFactory.java:141-161 | the cut is 0 or an upward crossing in the window. It is the first precise crossing when one exists, else the first crossing, and it is 0 exactly when the window holds no crossing |
| `WaveFactory.SampleToCrossover` | wavefactory/src/main/java/net/scarlettsystems/android/wavefactory/WaveFactory.java:141-161 | the search loop with its `break` returns `max(firstCrossoverIndex, properCrossoverIndex)`, which equals `CutPoint`; every sample before it has been filled |
| `WaveFactory.SineToneRound` | wavefactory/src/main/java/net/scarlettsystems/android/wavefactory/WaveFactory.java:130-175 | `2*cut` bytes: samples `0 .. cut-1` at full scale, starting from index 0 |

## Left out

- `getWaveFromResource` (`WaveFactory.java:200-228`, `WaveLoader.java:52-80`) reads an
  Android resource, catches every exception and caches the result in a process-wide
  `SparseArray`; it is I/O and host glue. Unmodelled remark: it calls
  `Arrays.copyOfRange(fileBytes, start, len)` with the data LENGTH as the end index, so
  a payload shorter than its offset throws (and yields an empty buffer) and a longer one
  loses its last `start` bytes.
- `getInstance` (both files): a process-wide singleton with no logic.
- `MainActivity.java`: UI and chart rendering. It is not part of this model.
- `Math.sin`, `Math.asin`, `Math.tanh` and the π factor: floating-point numerics, given as
  function inputs. Waveform shape and periodicity are not stated.
- `Math.round(duration * sampleRate)` and `Math.ceil(duration * sampleRate)`: the sample
  count is a `nat` input. A negative count (a `NegativeArraySizeException` in Java) is
  not modelled.
- IEEE rounding: `float`/`double` products, the `(float)` casts in `mixWaves` and
  `toFloat`, and `(float) numSamples * ramp` are exact `real` arithmetic here. NaN and
  infinities do not exist in the model.
- 32-bit `int` overflow of `2 * numSamples`, `c + 8` and `destination.length - offset`
  is not modelled; lengths and indices are unbounded integers.
- `WaveLoader.MixWaves`: requires `sound` and `destination` to be different arrays.
  When Java is passed the same array twice with a positive offset, later reads see
  earlier writes; that aliasing is not modelled.
- `WaveFileParser.WaveFileParser.constructor`: requires a scan that does not throw. The
  throwing case is modelled by `WaveFileParser.Parse`, which returns `IndexOutOfBounds`.
