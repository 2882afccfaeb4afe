/** The altitude low-pass filter of the location engine.

    `lowpassFilter` smooths a sequence of altitude samples with an exponential
    filter whose smoothing factor is fixed at 0.25. The engine only ever feeds
    it two samples, the previous accepted altitude and the new one. */
module Filter {

  /** Smoothing factor of the low-pass filter (FILTER_ALPHA). */
  const FilterAlpha: real := 0.25

  /** `output` is the low-pass filtering of `input`: the first output repeats the
      first input, and every later output moves from the previous output a quarter
      of the way towards the current input. */
  ghost predicate IsLowpassOf(input: seq<real>, output: seq<real>) {
    && |output| == |input|
    && (|input| > 0 ==> output[0] == input[0])
    && forall i :: 0 < i < |input| ==> output[i] == output[i - 1] + FilterAlpha * (input[i] - output[i - 1])
  }

  /** lowpassFilter: fills a new array of the input's length. An empty input has no
      first sample to copy, which the source does not guard against. */
  method LowpassFilter(input: array<real>) returns (output: array<real>)
    requires input.Length > 0
    ensures fresh(output)
    ensures IsLowpassOf(input[..], output[..])
  {
    output := new real[input.Length];
    output[0] := input[0];
    for i := 1 to input.Length
      invariant IsLowpassOf(input[..i], output[..i])
    {
      output[i] := output[i - 1] + FilterAlpha * (input[i] - output[i - 1]);
    }
    assert input[..input.Length] == input[..];
    assert output[..input.Length] == output[..];
  }

  /** The filter is deterministic: an input has exactly one filtered output. */
  lemma {:induction false} LowpassUnique(input: seq<real>, output1: seq<real>, output2: seq<real>)
    requires IsLowpassOf(input, output1) && IsLowpassOf(input, output2)
    ensures output1 == output2
  {
    forall k | 0 <= k < |input|
      ensures output1[k] == output2[k]
    {
      LowpassUniqueUpTo(input, output1, output2, k);
    }
  }

  lemma {:induction false} LowpassUniqueUpTo(input: seq<real>, output1: seq<real>, output2: seq<real>, k: nat)
    requires IsLowpassOf(input, output1) && IsLowpassOf(input, output2)
    requires k < |input|
    ensures output1[k] == output2[k]
  {
    if k > 0 {
      LowpassUniqueUpTo(input, output1, output2, k - 1);
    }
  }

  /** Smoothing never leaves the range of the samples: when every input lies in
      [lo, hi], so does every output. */
  lemma {:induction false} LowpassBounded(input: seq<real>, output: seq<real>, lo: real, hi: real)
    requires IsLowpassOf(input, output)
    requires forall i :: 0 <= i < |input| ==> lo <= input[i] <= hi
    ensures forall i :: 0 <= i < |output| ==> lo <= output[i] <= hi
  {
    forall k | 0 <= k < |output|
      ensures lo <= output[k] <= hi
    {
      LowpassBoundedAt(input, output, lo, hi, k);
    }
  }

  lemma {:induction false} LowpassBoundedAt(input: seq<real>, output: seq<real>, lo: real, hi: real, k: nat)
    requires IsLowpassOf(input, output)
    requires forall i :: 0 <= i < |input| ==> lo <= input[i] <= hi
    requires k < |output|
    ensures lo <= output[k] <= hi
  {
    if k > 0 {
      LowpassBoundedAt(input, output, lo, hi, k - 1);
    }
  }
}
