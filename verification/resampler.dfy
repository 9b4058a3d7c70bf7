/**
 * Nearest-neighbour resampler of the audio translator hook (`downsample`).
 * Rates are positive integers; the float ratio `inRate / outRate` and the
 * divisions through it are taken exactly.
 */
module Resampler {
  import opened Pcm16

  /** A sample rate in Hz. */
  type Rate = r: int | r > 0 witness 16000

  /** `Math.round(n / d)` for `d > 0`: the floor of `n / d + 1/2`, ties rounding up. */
  function RoundDiv(n: nat, d: int): nat
    requires d > 0
  {
    (2 * n + d) / (2 * d)
  }

  /** `RoundDiv(n, d)` is the integer nearest to `n / d`, ties going up. */
  lemma RoundDivNearest(n: nat, d: int)
    requires d > 0
    ensures var q := RoundDiv(n, d); 2 * (d * q) - d <= 2 * n < 2 * (d * q) + d
  {
    var q := RoundDiv(n, d);
    var r := (2 * n + d) % (2 * d);
    assert 2 * n + d == 2 * d * q + r && 0 <= r < 2 * d;
  }

  /** `Math.round(buffer.length / sampleRateRatio)`. */
  function OutputLength(len: nat, inRate: Rate, outRate: Rate): nat
  {
    RoundDiv(len * outRate, inRate)
  }

  /** `Math.round(i * sampleRateRatio)`: the input index picked for output sample `i`. */
  function SourceIndex(i: nat, inRate: Rate, outRate: Rate): nat
  {
    RoundDiv(i * inRate, outRate)
  }

  /**
   * `buffer[index]` stored into the `Float32Array` result: past the end the
   * read yields `undefined`, which the store converts to NaN.
   */
  function Pick(buffer: seq<Sample>, index: nat): Sample
  {
    if index < |buffer| then buffer[index] else NaN
  }

  /**
   * `downsample(buffer, inputSampleRate, outputSampleRate)`: equal rates
   * return the block itself.
   */
  function Resample(buffer: seq<Sample>, inRate: Rate, outRate: Rate): (r: seq<Sample>)
    ensures inRate == outRate ==> r == buffer
  {
    if inRate == outRate then buffer
    else seq(OutputLength(|buffer|, inRate, outRate), (i: nat) => Pick(buffer, SourceIndex(i, inRate, outRate)))
  }

  /**
   * With different rates the output holds the whole number of samples
   * nearest to `len * outRate / inRate`.
   */
  lemma ResampleLength(buffer: seq<Sample>, inRate: Rate, outRate: Rate)
    requires inRate != outRate
    ensures var n := |Resample(buffer, inRate, outRate)|;
      2 * (inRate * n) - inRate <= 2 * (|buffer| * outRate) < 2 * (inRate * n) + inRate
  {
    RoundDivNearest(|buffer| * outRate, inRate);
  }

  /**
   * With different rates output sample `i` is the input sample nearest in
   * time to `i / outRate` (within half an input period), or NaN where that
   * index is past the end.
   */
  lemma ResampleNearest(buffer: seq<Sample>, inRate: Rate, outRate: Rate, i: nat)
    requires inRate != outRate
    requires i < |Resample(buffer, inRate, outRate)|
    ensures var j := SourceIndex(i, inRate, outRate);
      && 2 * (outRate * j) - outRate <= 2 * (i * inRate) < 2 * (outRate * j) + outRate
      && Resample(buffer, inRate, outRate)[i] == (if j < |buffer| then buffer[j] else NaN)
  {
    RoundDivNearest(i * inRate, outRate);
  }

  /** When downsampling (`inRate > outRate`) every picked index lies inside the input. */
  lemma DownsampleInBounds(len: nat, inRate: Rate, outRate: Rate, i: nat)
    requires inRate > outRate
    requires i < OutputLength(len, inRate, outRate)
    ensures SourceIndex(i, inRate, outRate) < len
  {
    var n := OutputLength(len, inRate, outRate);
    var j := SourceIndex(i, inRate, outRate);
    RoundDivNearest(len * outRate, inRate);
    RoundDivNearest(i * inRate, outRate);
    MulMonotone(inRate, i + 1, n);
    MulDistributes(inRate, i);
    IndexBound(inRate, outRate, inRate * n, i * inRate, outRate * j, len * outRate);
    if j >= len {
      MulMonotone(outRate, len, j);
    }
  }

  /** The linear core of `DownsampleInBounds`, over the products as plain numbers. */
  lemma IndexBound(inRate: int, outRate: int, inTimesLength: int, picked: int, outTimesIndex: int, total: int)
    requires inRate > outRate > 0
    requires 2 * inTimesLength - inRate <= 2 * total
    requires picked + inRate <= inTimesLength
    requires 2 * outTimesIndex - outRate <= 2 * picked
    ensures outTimesIndex < total
  {
  }

  lemma MulMonotone(k: nat, a: int, b: int)
    requires a <= b
    ensures k * a <= k * b
  {
  }

  lemma MulDistributes(k: int, i: int)
    ensures k * (i + 1) == i * k + k
  {
  }

  /** Downsampling a block of finite samples yields finite samples, all taken from the input. */
  lemma DownsampleFinite(buffer: seq<Sample>, inRate: Rate, outRate: Rate)
    requires inRate > outRate
    ensures forall s :: s in Resample(buffer, inRate, outRate) ==> s in buffer
  {
    var r := Resample(buffer, inRate, outRate);
    forall s | s in r
      ensures s in buffer
    {
      var i :| 0 <= i < |r| && r[i] == s;
      DownsampleInBounds(|buffer|, inRate, outRate, i);
    }
  }

  /**
   * Upsampling reads past the end of the input: one sample at 16 kHz
   * taken to 48 kHz gives three outputs, the last picked from index 1.
   */
  lemma UpsampleReadsPastEnd(x: real)
    ensures Resample([Num(x)], 16000, 48000) == [Num(x), Num(x), NaN]
  {
    assert OutputLength(1, 16000, 48000) == 3;
    assert SourceIndex(1, 16000, 48000) == 0;
    assert SourceIndex(2, 16000, 48000) == 1;
  }

  /** The loop of `downsample`, filling a fresh zeroed `Float32Array`. */
  method Downsample(buffer: seq<Sample>, inRate: Rate, outRate: Rate) returns (r: seq<Sample>)
    ensures r == Resample(buffer, inRate, outRate)
  {
    if inRate == outRate {
      return buffer;
    }
    var newLength := RoundDiv(|buffer| * outRate, inRate);
    var result := new Sample[newLength](_ => Num(0.0));
    for i := 0 to newLength
      invariant forall k :: 0 <= k < i ==> result[k] == Pick(buffer, SourceIndex(k, inRate, outRate))
    {
      var index := RoundDiv(i * inRate, outRate);
      result[i] := if index < |buffer| then buffer[index] else NaN;
    }
    r := result[..];
  }
}
