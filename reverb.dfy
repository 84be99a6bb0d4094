/** The feedback-delay reverb of `apply_reverb`: a copy of the block in
    which every sample from the delay onwards gets `decay` times the
    already-filtered sample one delay earlier added to it.  Each call
    filters one block on its own; no history is kept between calls. */
module Reverb {
  import opened RealArith

  /** The delay in whole samples, `int(delay_ms * sample_rate / 1000)`:
      the number of samples that fit in `delayMs` milliseconds. */
  function DelaySamples(delayMs: nat, sampleRate: nat): (d: nat)
    ensures d * 1000 <= delayMs * sampleRate < d * 1000 + 1000
  {
    delayMs * sampleRate / 1000
  }

  /** The filtered value at index `i`: the value the source's loop leaves in
      `output[i]`.  With a delay of 0 the loop adds `decay` times the sample
      itself, read before it is updated. */
  function FilteredAt(s: seq<real>, decay: real, d: nat, i: nat): (r: real)
    requires i < |s|
    ensures i < d ==> r == s[i]
    decreases i
  {
    if i < d then s[i]
    else if d == 0 then s[i] + decay * s[i]
    else s[i] + decay * FilteredAt(s, decay, d, i - d)
  }

  /** The whole filtered block. */
  function Reverb(s: seq<real>, decay: real, d: nat): (r: seq<real>)
    ensures |r| == |s|
  {
    seq(|s|, i requires 0 <= i < |s| => FilteredAt(s, decay, d, i))
  }

  /** `apply_reverb(signal, decay, delay_ms)` at sample rate `sampleRate`:
      a fresh array holding the filtered copy of `signal`. */
  method ApplyReverb(signal: array<real>, decay: real, delayMs: nat, sampleRate: nat)
    returns (output: array<real>)
    ensures fresh(output)
    ensures output[..] == Reverb(signal[..], decay, DelaySamples(delayMs, sampleRate))
  {
    var delay := DelaySamples(delayMs, sampleRate);
    var n := signal.Length;
    output := new real[n](k requires 0 <= k < n reads signal => signal[k]);
    ghost var s := signal[..];
    var i := delay;
    while i < n
      invariant delay <= i
      invariant forall j :: 0 <= j < n && j < i ==> output[j] == FilteredAt(s, decay, delay, j)
      invariant forall j :: i <= j < n ==> output[j] == s[j]
    {
      ghost var earlier := if delay == 0 then s[i] else FilteredAt(s, decay, delay, i - delay);
      var prev := output[i - delay];
      assert prev == earlier;
      FeedbackStep(s, decay, delay, i);
      output[i] := output[i] + decay * prev;
      assert output[i] == FilteredAt(s, decay, delay, i);
      i := i + 1;
    }
    assert forall j :: 0 <= j < n ==> output[j] == Reverb(s, decay, delay)[j];
  }

  /** The samples before the first echo are passed through unchanged. */
  lemma ReverbPassesHead(s: seq<real>, decay: real, d: nat)
    ensures forall i :: 0 <= i < |s| && i < d ==> Reverb(s, decay, d)[i] == s[i]
    ensures |s| <= d ==> Reverb(s, decay, d) == s
  {
  }

  /** From the delay onwards every sample is the input plus `decay` times the
      FILTERED sample one delay earlier (feedback, not a single echo of the
      input). */
  lemma ReverbFeedback(s: seq<real>, decay: real, d: nat, i: nat)
    requires 0 < d <= i < |s|
    ensures Reverb(s, decay, d)[i] == s[i] + decay * Reverb(s, decay, d)[i - d]
  {
  }

  /** With a delay of 0 each sample is scaled by `1 + decay`. */
  lemma ReverbZeroDelay(s: seq<real>, decay: real)
    ensures forall i :: 0 <= i < |s| ==> Reverb(s, decay, 0)[i] == (1.0 + decay) * s[i]
  {
  }

  function Pow(b: real, k: nat): real
  {
    if k == 0 then 1.0 else b * Pow(b, k - 1)
  }

  /** A unit impulse at index 0 rings once every delay, each echo `decay`
      times the one before, and is silent in between. */
  lemma {:induction false} ImpulseResponse(s: seq<real>, decay: real, d: nat, i: nat)
    requires 0 < d && i < |s|
    requires s[0] == 1.0 && forall j :: 0 < j < |s| ==> s[j] == 0.0
    ensures FilteredAt(s, decay, d, i) == if i % d == 0 then Pow(decay, i / d) else 0.0
  {
    if i < d {
      DivModUnique(i, d, 0, i);
    } else {
      ImpulseResponse(s, decay, d, i - d);
      ShiftByDelay(i, d);
      FeedbackStep(s, decay, d, i);
    }
  }

  lemma ShiftByDelay(i: nat, d: nat)
    requires 0 < d <= i
    ensures (i - d) % d == i % d && (i - d) / d == i / d - 1
  {
    var q, r := i / d, i % d;
    assert i - d == (q - 1) * d + r;
    DivModUnique(i - d, d, q - 1, r);
  }

  /** Euclidean division is unique: a quotient and remainder that rebuild
      `n` are the ones `/` and `%` give. */
  lemma DivModUnique(n: int, d: int, q: int, r: int)
    requires 0 < d && 0 <= r < d && n == q * d + r
    ensures n / d == q && n % d == r
  {
    var q0, r0 := n / d, n % d;
    assert n == q0 * d + r0;
    assert (q - q0) * d == r0 - r;
    if q - q0 >= 1 {
      MulAtLeast(q - q0, d);
    } else if q0 - q >= 1 {
      MulAtLeast(q0 - q, d);
    }
  }

  lemma MulAtLeast(a: int, d: int)
    requires 1 <= a && 0 < d
    ensures d <= a * d
  {
    assert a * d == d + (a - 1) * d;
  }

  /** The impulse response over the whole block, with `k` echoes apart. */
  lemma ImpulseEchoes(s: seq<real>, decay: real, d: nat, k: nat)
    requires 0 < d && k * d < |s|
    requires s[0] == 1.0 && forall j :: 0 < j < |s| ==> s[j] == 0.0
    ensures Reverb(s, decay, d)[k * d] == Pow(decay, k)
    ensures forall i :: 0 <= i < |s| && i % d != 0 ==> Reverb(s, decay, d)[i] == 0.0
  {
    ImpulseResponse(s, decay, d, k * d);
    assert (k * d) % d == 0 && (k * d) / d == k by {
      MulDivExact(k, d);
    }
    forall i | 0 <= i < |s| && i % d != 0
      ensures Reverb(s, decay, d)[i] == 0.0
    {
      ImpulseResponse(s, decay, d, i);
    }
  }

  lemma MulDivExact(k: nat, d: nat)
    requires 0 < d
    ensures (k * d) % d == 0 && (k * d) / d == k
  {
    DivModUnique(k * d, d, k, 0);
  }

  /** A block bounded by `bound` filters to a block bounded by any `limit`
      that absorbs one more echo (`bound + decay * limit == limit`) and
      bounds a sample scaled by `1 + decay`. */
  lemma {:induction false} FilteredWithin(s: seq<real>, decay: real, d: nat, bound: real, limit: real, i: nat)
    requires 0.0 <= decay
    requires forall j :: 0 <= j < |s| ==> Abs(s[j]) <= bound
    requires bound <= limit && bound + decay * limit == limit && (1.0 + decay) * bound <= limit
    requires i < |s|
    ensures Abs(FilteredAt(s, decay, d, i)) <= limit
  {
    if d == 0 {
      SelfEchoAt(s, decay, bound, limit, i);
    } else if d <= i {
      FilteredWithin(s, decay, d, bound, limit, i - d);
      EchoAt(s, decay, d, bound, limit, i);
    }
  }

  /** A sample filtered with no delay stays within the limit. */
  lemma SelfEchoAt(s: seq<real>, decay: real, bound: real, limit: real, i: nat)
    requires 0.0 <= decay && i < |s| && Abs(s[i]) <= bound && (1.0 + decay) * bound <= limit
    ensures Abs(FilteredAt(s, decay, 0, i)) <= limit
  {
    FeedbackStep(s, decay, 0, i);
    SelfEcho(s[i], FilteredAt(s, decay, 0, i), decay, bound, limit);
  }

  /** A sample whose earlier echo is within the limit stays within it. */
  lemma EchoAt(s: seq<real>, decay: real, d: nat, bound: real, limit: real, i: nat)
    requires 0.0 <= decay && 0 < d <= i < |s| && Abs(s[i]) <= bound
    requires Abs(FilteredAt(s, decay, d, i - d)) <= limit && bound + decay * limit == limit
    ensures Abs(FilteredAt(s, decay, d, i)) <= limit
  {
    FeedbackStep(s, decay, d, i);
    Echo(s[i], FilteredAt(s, decay, d, i - d), FilteredAt(s, decay, d, i), decay, bound, limit);
  }

  /** The arithmetic of the stability bound: `limit = bound / (1 - decay)`
      absorbs one more echo, and bounds a sample scaled by `1 + decay`. */
  lemma StabilityLimit(decay: real, bound: real, limit: real)
    requires 0.0 <= decay < 1.0 && 0.0 <= bound && limit == bound / (1.0 - decay)
    ensures bound <= limit
    ensures bound + decay * limit == limit
    ensures (1.0 + decay) * bound <= limit
  {
    assert limit * (1.0 - decay) == bound;
    DivNonNegative(bound, 1.0 - decay);
    Scale(decay, 0.0, limit);
    assert limit - (1.0 + decay) * bound == decay * decay * limit;
    Scale(decay, 0.0, decay);
    Scale(decay * decay, 0.0, limit);
  }

  /** One feedback step keeps a sample within the limit. */
  lemma Echo(x: real, prev: real, next: real, decay: real, bound: real, limit: real)
    requires 0.0 <= decay && Abs(x) <= bound && Abs(prev) <= limit
    requires bound + decay * limit == limit && next == x + decay * prev
    ensures Abs(next) <= limit
  {
    var y := decay * prev;
    AbsScale(decay, prev);
    assert Abs(y) == decay * Abs(prev);
    Scale(decay, Abs(prev), limit);
    assert Abs(y) <= decay * limit;
    assert Abs(x + y) <= Abs(x) + Abs(y);
    assert Abs(x) + Abs(y) <= bound + decay * limit;
  }

  lemma FeedbackStep(s: seq<real>, decay: real, d: nat, i: nat)
    requires d <= i < |s|
    ensures d == 0 ==> FilteredAt(s, decay, d, i) == s[i] + decay * s[i]
    ensures 0 < d ==> FilteredAt(s, decay, d, i) == s[i] + decay * FilteredAt(s, decay, d, i - d)
  {
  }

  /** A sample plus `decay` times itself stays within the limit. */
  lemma SelfEcho(x: real, next: real, decay: real, bound: real, limit: real)
    requires 0.0 <= decay && Abs(x) <= bound && (1.0 + decay) * bound <= limit
    requires next == x + decay * x
    ensures Abs(next) <= limit
  {
    assert x + decay * x == (1.0 + decay) * x;
    AbsScale(1.0 + decay, x);
    Scale(1.0 + decay, Abs(x), bound);
  }

  /** For a decay in [0, 1), a block bounded by `bound` filters to a block
      bounded by `bound / (1 - decay)`: the feedback never diverges. */
  lemma ReverbBounded(s: seq<real>, decay: real, d: nat, bound: real)
    requires 0.0 <= decay < 1.0 && 0.0 <= bound
    requires forall j :: 0 <= j < |s| ==> Abs(s[j]) <= bound
    ensures forall i :: 0 <= i < |s| ==> Abs(Reverb(s, decay, d)[i]) <= bound / (1.0 - decay)
  {
    var limit := bound / (1.0 - decay);
    StabilityLimit(decay, bound, limit);
    forall i | 0 <= i < |s|
      ensures Abs(Reverb(s, decay, d)[i]) <= limit
    {
      FilteredWithin(s, decay, d, bound, limit, i);
    }
  }

  /** The delay of the default arguments (50 ms) at 44100 Hz. */
  lemma DefaultDelay()
    ensures DelaySamples(50, 44100) == 2205
  {
  }

  // The pulse shape produces an INTEGER block (`np.where(..., 1, -1)`), and
  // the copy keeps that element type, so the loop's `output[i] += ...`
  // stores each updated sample back truncated toward zero.  The functions
  // below model that filter as written; the callback uses `Reverb`.

  /** Storing a real into an integer array element: truncation toward zero. */
  function TruncTowardZero(x: real): (r: int)
    ensures x >= 0.0 ==> r as real <= x < r as real + 1.0
    ensures x < 0.0 ==> r as real - 1.0 < x <= r as real
  {
    if x >= 0.0 then x.Floor else -((-x).Floor)
  }

  /** The value the loop leaves at index `i` of an integer block. */
  function IntFilteredAt(s: seq<int>, decay: real, d: nat, i: nat): (r: int)
    requires i < |s|
    ensures 0.0 <= decay < 1.0 && (forall j :: 0 <= j < |s| ==> -1 <= s[j] <= 1) ==> -1 <= r <= 1
    decreases i
  {
    if i < d then s[i]
    else if d == 0 then IntEcho(s[i], s[i], decay)
    else IntEcho(s[i], IntFilteredAt(s, decay, d, i - d), decay)
  }

  /** One update `output[i] += decay * earlier` of an integer element. */
  function IntEcho(x: int, earlier: int, decay: real): (r: int)
    ensures 0.0 <= decay < 1.0 && -1 <= x <= 1 && -1 <= earlier <= 1 ==> -1 <= r <= 1
  {
    var y := x as real + decay * earlier as real;
    assert 0.0 <= decay < 1.0 && -1 <= earlier <= 1 ==> -1.0 < decay * earlier as real < 1.0 by {
      if 0.0 <= decay < 1.0 && -1 <= earlier <= 1 {
        RealArith.Scale(decay, earlier as real, 1.0);
        RealArith.Scale(decay, -1.0, earlier as real);
      }
    }
    TruncTowardZero(y)
  }

  /** `apply_reverb` as written on an integer (pulse) block. */
  function IntReverb(s: seq<int>, decay: real, d: nat): (r: seq<int>)
    ensures |r| == |s|
  {
    seq(|s|, i requires 0 <= i < |s| => IntFilteredAt(s, decay, d, i))
  }

  function AsReals(s: seq<int>): (r: seq<real>)
    ensures |r| == |s| && forall i :: 0 <= i < |s| ==> r[i] == s[i] as real
  {
    seq(|s|, i requires 0 <= i < |s| => s[i] as real)
  }

  /** On a pulse block of +1/-1 samples with a decay below 1, the integer
      filter only ever yields -1, 0 or 1: every echo is truncated away, and
      an echo of opposite sign silences the sample instead of attenuating it. */
  lemma {:induction false} IntFilteredPulse(s: seq<int>, decay: real, d: nat, i: nat)
    requires 0.0 <= decay < 1.0 && i < |s|
    requires forall j :: 0 <= j < |s| ==> s[j] == 1 || s[j] == -1
    ensures -1 <= IntFilteredAt(s, decay, d, i) <= 1
    ensures IntFilteredAt(s, decay, d, i) == 0 ==>
      d > 0 && i >= d && IntFilteredAt(s, decay, d, i - d) == -s[i]
  {
    if i >= d && d > 0 {
      IntFilteredPulse(s, decay, d, i - d);
      TruncatedEcho(s[i], IntFilteredAt(s, decay, d, i - d), decay);
    } else if d == 0 {
      TruncatedEcho(s[i], s[i], decay);
    }
  }

  /** One truncated echo of a pulse sample: the same sign gives the sample
      back, the opposite sign gives 0, silence gives the sample. */
  lemma TruncatedEcho(x: int, prev: int, decay: real)
    requires 0.0 <= decay < 1.0 && (x == 1 || x == -1) && -1 <= prev <= 1
    ensures -1 <= IntEcho(x, prev, decay) <= 1
    ensures IntEcho(x, prev, decay) == 0 <==> prev == -x && decay > 0.0
  {
    if prev == 0 {
      assert x as real + decay * prev as real == x as real;
    } else if prev == x {
      assert x as real + decay * prev as real == x as real * (1.0 + decay);
    } else {
      assert x as real + decay * prev as real == x as real * (1.0 - decay);
      if decay == 0.0 {
        assert IntEcho(x, prev, decay) == x;
      }
    }
  }

  /** A concrete block that shows the truncation: 2206 frames of a pulse
      held high, with the default decay and delay.  The filter as written
      leaves the last sample at 1, where the feedback recurrence gives 1.6. */
  lemma PulseReverbTruncates()
    ensures var s := seq(2206, i => 1);
      var d := DelaySamples(50, 44100);
      IntReverb(s, 0.6, d)[2205] == 1 && Reverb(AsReals(s), 0.6, d)[2205] == 1.6
  {
    var s := seq(2206, i => 1);
    var d := DelaySamples(50, 44100);
    assert d == 2205;
    assert IntFilteredAt(s, 0.6, d, 0) == 1;
    assert IntFilteredAt(s, 0.6, d, 2205) == IntEcho(1, 1, 0.6);
    assert FilteredAt(AsReals(s), 0.6, d, 2205) == 1.0 + 0.6 * FilteredAt(AsReals(s), 0.6, d, 0);
  }
}
