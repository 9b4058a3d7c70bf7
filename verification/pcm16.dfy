/**
 * PCM16 codec of the audio translator hook: normalised float samples to
 * signed 16-bit little-endian bytes (`floatTo16BitPCM`, which asks
 * `setInt16` for little-endian explicitly) and back (the `Int16Array` loop
 * in `playAudioChunk`, which reads in the host's byte order; the model takes
 * the host to be little-endian).
 *
 * Float32 and double values are abstracted as Dafny `real`. `Sample` also
 * has NaN: a captured block may hold it, the resampler stores it where it
 * reads past the end of its input, and the encoder writes it as 0.
 * Infinities are not modelled.
 */
module Pcm16 {
  import opened Wrappers

  type Byte = x: int | 0 <= x < 256

  /** A float32 sample: a number, or NaN. */
  datatype Sample = Num(v: real) | NaN

  const Int16Min: int := -32768
  const Int16Max: int := 32767
  /** Scale applied to negative samples on encode and to every value on decode. */
  const NegativeScale: real := 32768.0
  /** Scale applied to non-negative samples on encode. */
  const PositiveScale: real := 32767.0

  predicate IsInt16(v: int) { Int16Min <= v <= Int16Max }

  function Max(a: real, b: real): real { if a >= b then a else b }
  function Min(a: real, b: real): real { if a <= b then a else b }

  /** `Math.max(-1, Math.min(1, x))`. */
  function Clamp(x: real): (c: real)
    ensures -1.0 <= c <= 1.0
    ensures -1.0 <= x <= 1.0 ==> c == x
    ensures x > 1.0 ==> c == 1.0
    ensures x < -1.0 ==> c == -1.0
  {
    Max(-1.0, Min(1.0, x))
  }

  /** ECMAScript ToInt16 truncates toward zero (before wrapping, which never happens here). */
  function Trunc(x: real): (t: int)
    ensures t as real <= x < t as real + 1.0 || t as real - 1.0 < x <= t as real
    ensures 0.0 <= x ==> 0 <= t && t as real <= x
    ensures x <= 0.0 ==> t <= 0 && x <= t as real
  {
    if x >= 0.0 then x.Floor else -((-x).Floor)
  }

  /**
   * The int16 written by `view.setInt16(i * 2, s < 0 ? s * 0x8000 : s * 0x7FFF, true)`
   * for one sample: clamp, scale asymmetrically, truncate toward zero.
   * NaN survives the clamp, fails `s < 0`, and ToInt16(NaN) is 0.
   */
  function Quantize(s: Sample): (v: int)
    ensures IsInt16(v)
    ensures s == NaN ==> v == 0
    ensures s.Num? && s.v >= 1.0 ==> v == Int16Max
    ensures s.Num? && s.v <= -1.0 ==> v == Int16Min
    ensures s.Num? && s.v < 0.0 ==> v <= 0
    ensures s.Num? && s.v >= 0.0 ==> v >= 0
  {
    match s
    case NaN => 0
    case Num(x) =>
      var c := Clamp(x);
      if c < 0.0 then Trunc(c * NegativeScale) else Trunc(c * PositiveScale)
  }

  /** Low byte of the two's-complement encoding of `v`. */
  function LowByte(v: int): Byte { (v % 65536) % 256 }

  /** High byte of the two's-complement encoding of `v`. */
  function HighByte(v: int): Byte { (v % 65536) / 256 }

  /** The signed 16-bit integer whose low byte is `lo` and high byte `hi` (an `Int16Array` element on a little-endian host). */
  function Int16FromBytes(lo: Byte, hi: Byte): (v: int)
    ensures IsInt16(v)
    ensures (v - lo - 256 * hi) % 65536 == 0
  {
    var u := lo + 256 * hi;
    if u >= 32768 then u - 65536 else u
  }

  /** Splitting an int16 into its two little-endian bytes loses nothing. */
  lemma Int16BytesRoundTrip(v: int)
    requires IsInt16(v)
    ensures Int16FromBytes(LowByte(v), HighByte(v)) == v
  {
    var u := v % 65536;
    assert u == (if v < 0 then v + 65536 else v);
    assert u == LowByte(v) + 256 * HighByte(v);
  }

  /**
   * `floatTo16BitPCM`: sample `i` becomes the little-endian int16 in bytes
   * `2 * i` (low) and `2 * i + 1` (high).
   */
  function Encode(samples: seq<Sample>): (bytes: seq<Byte>)
    ensures |bytes| == 2 * |samples|
    ensures forall i :: 0 <= i < |samples| ==>
      bytes[2 * i] == LowByte(Quantize(samples[i])) && bytes[2 * i + 1] == HighByte(Quantize(samples[i]))
  {
    if samples == [] then []
    else
      var last := |samples| - 1;
      var v := Quantize(samples[last]);
      Encode(samples[..last]) + [LowByte(v), HighByte(v)]
  }

  /** The value one decoded sample takes: `int16Array[i] / 32768`, keeping the sign, within [-1, 32767/32768]. */
  function Dequantize(v: int): (x: real)
    ensures x < 0.0 <==> v < 0
    ensures IsInt16(v) ==> -1.0 <= x <= PositiveScale / NegativeScale
  {
    v as real / NegativeScale
  }

  /** Decodes an even-length frame, two bytes per sample. */
  function DecodeSamples(bytes: seq<Byte>): (samples: seq<real>)
    requires |bytes| % 2 == 0
    ensures 2 * |samples| == |bytes|
    ensures forall i :: 0 <= i < |samples| ==>
      samples[i] == Dequantize(Int16FromBytes(bytes[2 * i], bytes[2 * i + 1]))
  {
    if bytes == [] then []
    else
      var n := |bytes|;
      DecodeSamples(bytes[..n - 2]) + [Dequantize(Int16FromBytes(bytes[n - 2], bytes[n - 1]))]
  }

  /**
   * The decode half of `playAudioChunk`: `new Int16Array(audioData)` throws
   * on an odd byte length, which is `None` here.
   */
  function Decode(bytes: seq<Byte>): (r: Option<seq<real>>)
    ensures r.None? <==> |bytes| % 2 == 1
  {
    if |bytes| % 2 == 1 then None else Some(DecodeSamples(bytes))
  }

  /** Every decoded sample lies in [-1, 32767/32768]. */
  lemma DecodeRange(bytes: seq<Byte>)
    requires |bytes| % 2 == 0
    ensures forall x :: x in DecodeSamples(bytes) ==> -1.0 <= x <= PositiveScale / NegativeScale
  {
    var d := DecodeSamples(bytes);
    forall x | x in d
      ensures -1.0 <= x <= PositiveScale / NegativeScale
    {
      var i :| 0 <= i < |d| && d[i] == x;
      var v := Int16FromBytes(bytes[2 * i], bytes[2 * i + 1]);
      assert Int16Min <= v <= Int16Max;
    }
  }

  /** Decoding an encoded block gives back, per sample, the quantised value scaled by 1/32768. */
  lemma {:induction false} RoundTrip(samples: seq<Sample>)
    ensures Decode(Encode(samples)).Some?
    ensures |Decode(Encode(samples)).value| == |samples|
    ensures forall i :: 0 <= i < |samples| ==>
      Decode(Encode(samples)).value[i] == Dequantize(Quantize(samples[i]))
  {
    var bytes := Encode(samples);
    assert |bytes| % 2 == 0;
    var d := DecodeSamples(bytes);
    assert Decode(bytes) == Some(d);
    forall i | 0 <= i < |samples|
      ensures d[i] == Dequantize(Quantize(samples[i]))
    {
      var v := Quantize(samples[i]);
      assert bytes[2 * i] == LowByte(v) && bytes[2 * i + 1] == HighByte(v);
      Int16BytesRoundTrip(v);
      assert d[i] == Dequantize(Int16FromBytes(bytes[2 * i], bytes[2 * i + 1]));
    }
  }

  /**
   * Quantisation error of one finite sample after clamping. Negative values
   * come back at most 1/32768 closer to zero; non-negative values, scaled by
   * 32767 but decoded by 32768, come back less than 2/32768 low.
   */
  lemma QuantizationError(x: real)
    ensures var c := Clamp(x); var d := Dequantize(Quantize(Num(x)));
      (c < 0.0 ==> c <= d < c + 1.0 / NegativeScale) &&
      (c >= 0.0 ==> c - 2.0 / NegativeScale < d <= c)
  {
    var c := Clamp(x);
    var v := Quantize(Num(x));
    if c < 0.0 {
      assert v == Trunc(c * NegativeScale);
      assert c * NegativeScale <= v as real < c * NegativeScale + 1.0;
    } else {
      assert v == Trunc(c * PositiveScale);
      assert c * PositiveScale - 1.0 < v as real <= c * PositiveScale;
      assert c * PositiveScale <= c * NegativeScale;
    }
  }

  /** The encode/decode round trip of a finite block stays within the quantisation error. */
  lemma {:induction false} RoundTripWithinQuantization(samples: seq<Sample>)
    requires forall i :: 0 <= i < |samples| ==> samples[i].Num?
    ensures Decode(Encode(samples)).Some? && |Decode(Encode(samples)).value| == |samples|
    ensures forall i :: 0 <= i < |samples| ==>
      var c := Clamp(samples[i].v); var d := Decode(Encode(samples)).value[i];
      (c < 0.0 ==> c <= d < c + 1.0 / NegativeScale) &&
      (c >= 0.0 ==> c - 2.0 / NegativeScale < d <= c)
  {
    RoundTrip(samples);
    forall i | 0 <= i < |samples|
      ensures var c := Clamp(samples[i].v); var d := Decode(Encode(samples)).value[i];
        (c < 0.0 ==> c <= d < c + 1.0 / NegativeScale) &&
        (c >= 0.0 ==> c - 2.0 / NegativeScale < d <= c)
    {
      QuantizationError(samples[i].v);
    }
  }

  /**
   * The tighter bound 1/32768 does not hold for non-negative samples:
   * 32766.5/32767 encodes to 32766 and decodes to 32766/32768.
   */
  lemma PositiveErrorExceedsOneStep()
    ensures var x := 32766.5 / PositiveScale;
      x - Dequantize(Quantize(Num(x))) > 1.0 / NegativeScale
  {
    var x := 32766.5 / PositiveScale;
    assert Clamp(x) == x;
    assert x * PositiveScale == 32766.5;
    assert Quantize(Num(x)) == 32766;
  }

  /** `floatTo16BitPCM`: fills a `DataView` over a fresh buffer of `2 * n` bytes. */
  method EncodeBlock(samples: seq<Sample>) returns (bytes: seq<Byte>)
    ensures bytes == Encode(samples)
  {
    var buffer := new Byte[2 * |samples|];
    for i := 0 to |samples|
      invariant forall k :: 0 <= k < i ==>
        buffer[2 * k] == LowByte(Quantize(samples[k])) && buffer[2 * k + 1] == HighByte(Quantize(samples[k]))
    {
      var v := Quantize(samples[i]);
      buffer[2 * i] := LowByte(v);
      buffer[2 * i + 1] := HighByte(v);
    }
    bytes := buffer[..];
    var expected := Encode(samples);
    forall j | 0 <= j < |bytes|
      ensures bytes[j] == expected[j]
    {
      var k := j / 2;
      if j == 2 * k {
        assert expected[2 * k] == LowByte(Quantize(samples[k]));
      } else {
        assert j == 2 * k + 1;
        assert expected[2 * k + 1] == HighByte(Quantize(samples[k]));
      }
    }
  }

  /** The `Int16Array` to `Float32Array` loop of `playAudioChunk`. */
  method DecodeChunk(bytes: seq<Byte>) returns (r: Option<seq<real>>)
    ensures r == Decode(bytes)
  {
    if |bytes| % 2 == 1 {
      return None;
    }
    var n := |bytes| / 2;
    var samples := new real[n];
    for i := 0 to n
      invariant forall k :: 0 <= k < i ==>
        samples[k] == Dequantize(Int16FromBytes(bytes[2 * k], bytes[2 * k + 1]))
    {
      samples[i] := Dequantize(Int16FromBytes(bytes[2 * i], bytes[2 * i + 1]));
    }
    assert samples[..] == DecodeSamples(bytes);
    r := Some(samples[..]);
  }
}
