/** The waveform generator of the synthesizer: the closed-form shapes that
    `generate_waveform` evaluates over a time axis, over exact reals.

    The sine (and, through it, the square) shape evaluates a transcendental
    function and the noise shape draws random numbers; both are taken as
    parameters (`Env`), so every waveform name is covered. */
module Waveform {
  import opened RealArith

  /** The waveform names the generator recognises; any other name falls
      through to `Other`, which produces silence. */
  datatype Shape = Sine | Square | Sawtooth | Triangle | Pulse | Noise | Other

  function ShapeOf(name: string): (s: Shape)
    ensures s == Other <==>
      name !in {"sine", "square", "sawtooth", "triangle", "pulse", "noise"}
  {
    if name == "sine" then Sine
    else if name == "square" then Square
    else if name == "sawtooth" then Sawtooth
    else if name == "triangle" then Triangle
    else if name == "pulse" then Pulse
    else if name == "noise" then Noise
    else Other
  }

  /** What the generator cannot compute itself: `sinCycles(x)` is the sine of
      2*pi*x, and `noise(i)` is the i-th value drawn from the uniform random
      source. */
  datatype Env = Env(sinCycles: real -> real, noise: nat -> real)

  /** The assumptions under which every shape stays in [-1, 1]: the sine
      stays in [-1, 1] and the uniform draws lie in [-1, 1). */
  ghost predicate UnitRange(sin: real -> real) {
    forall x :: -1.0 <= sin(x) <= 1.0
  }

  ghost predicate UniformDraws(noise: nat -> real) {
    forall i :: -1.0 <= noise(i) < 1.0
  }

  ghost predicate WellBehaved(env: Env) {
    UnitRange(env.sinCycles) && UniformDraws(env.noise)
  }

  lemma UnitRangeOver(sin: real -> real, x: seq<real>, s: seq<real>)
    requires |s| == |x| && forall k :: 0 <= k < |x| ==> s[k] == sin(x[k])
    ensures UnitRange(sin) ==> forall k :: 0 <= k < |s| ==> -1.0 <= s[k] <= 1.0
  {
    if UnitRange(sin) {
      forall k | 0 <= k < |s|
        ensures -1.0 <= s[k] <= 1.0
      {
        var y := x[k];
        assert -1.0 <= sin(y) <= 1.0;
      }
    }
  }

  /** The outcome of one call: the samples, or the division by zero that
      evaluating `1/frequency` raises for the pulse shape at frequency 0. */
  datatype Generated = Samples(s: seq<real>) | ZeroDivision

  /** The fractional part of a real: its distance above the next integer
      below it. */
  function Frac(x: real): (r: real)
    ensures 0.0 <= r < 1.0
    ensures (x - r).Floor as real == x - r
  {
    x - x.Floor as real
  }

  /** The sign of a real as numpy computes it: zero has sign 0. */
  function Sign(y: real): (r: real)
    ensures r == 1.0 || r == 0.0 || r == -1.0
    ensures r == 0.0 <==> y == 0.0
    ensures r * y >= 0.0
  {
    if y > 0.0 then 1.0 else if y < 0.0 then -1.0 else 0.0
  }

  /** The floored remainder (`%` on floats): the result has the sign of the
      divisor and differs from `x` by a whole number of divisors. */
  function FloorMod(x: real, m: real): (r: real)
    requires m != 0.0
    ensures m > 0.0 ==> 0.0 <= r < m
    ensures m < 0.0 ==> m < r <= 0.0
    ensures ((x - r) / m).Floor as real == (x - r) / m
  {
    // x - floor(x / m) * m, written as m times the fractional part of x / m
    var f := Frac(x / m);
    FloorModRange(x, m, f);
    FloorModMultiple(x, m, f);
    m * f
  }

  lemma FloorModRange(x: real, m: real, f: real)
    requires m != 0.0 && f == Frac(x / m)
    ensures m > 0.0 ==> 0.0 <= m * f < m
    ensures m < 0.0 ==> m < m * f <= 0.0
  {
    if m > 0.0 {
      FractionOf(f, m);
      assert m * f == f * m;
    } else {
      FractionOf(f, -m);
      assert m * f == -(f * -m);
    }
  }
  lemma FloorModMultiple(x: real, m: real, f: real)
    requires m != 0.0 && f == Frac(x / m)
    ensures ((x - m * f) / m).Floor as real == (x - m * f) / m
  {
    var y := x / m;
    assert x == y * m;
    assert x - m * f == (y - f) * m;
    MulDiv(y - f, m);
    assert (x - m * f) / m == y - f;
    assert (y - f).Floor as real == y - f;
  }

  lemma FractionOf(e: real, p: real)
    requires 0.0 <= e < 1.0 && p > 0.0
    ensures 0.0 <= e * p < p
  {
  }
  lemma MulDiv(a: real, m: real)
    requires m != 0.0
    ensures (a * m) / m == a
  {
  }

  /** The sawtooth `2*(x - floor(1/2 + x))` at position `x` (in cycles). */
  function SawtoothAt(x: real): (r: real)
    ensures -1.0 <= r < 1.0
  {
    2.0 * (x - (0.5 + x).Floor as real)
  }

  /** The triangle `2*|2*(x - floor(1/2 + x))| - 1` at position `x`. */
  function TriangleAt(x: real): (r: real)
    ensures -1.0 <= r <= 1.0
  {
    2.0 * Abs(2.0 * (x - (0.5 + x).Floor as real)) - 1.0
  }

  /** The pulse at time `t`: high while the time within the current period
      is below `pulseWidth` periods, low otherwise. */
  function PulseAt(t: real, frequency: real, pulseWidth: real): (r: real)
    requires frequency != 0.0
    ensures r == 1.0 || r == -1.0
  {
    var period := 1.0 / frequency;
    if FloorMod(t, period) < period * pulseWidth then 1.0 else -1.0
  }

  /** The number of samples `int(sample_rate * duration)`. */
  function SampleCount(sampleRate: nat, duration: real): (n: nat)
    requires duration >= 0.0
    ensures n as real <= sampleRate as real * duration < n as real + 1.0
  {
    Scale(duration, 0.0, sampleRate as real);
    (sampleRate as real * duration).Floor
  }

  /** The time axis `linspace(0, duration, n, endpoint=False)`: `n` equally
      spaced instants that start at 0 and stay below `duration`. */
  function TimeAxis(duration: real, n: nat): (t: seq<real>)
    requires duration >= 0.0
    ensures |t| == n
    ensures n > 0 ==> t[0] == 0.0
    ensures forall i :: 0 <= i < n ==> 0.0 <= t[i] && (duration > 0.0 ==> t[i] < duration)
    ensures forall i :: 0 < i < n ==> t[i] - t[i - 1] == duration / n as real
  {
    if n == 0 then []
    else
      var t := seq(n, i requires 0 <= i < n => i as real * (duration / n as real));
      TimeAxisBounds(duration, t);
      t
  }

  lemma TimeAxisBounds(duration: real, t: seq<real>)
    requires duration >= 0.0 && |t| > 0
    requires forall i :: 0 <= i < |t| ==> t[i] == i as real * (duration / |t| as real)
    ensures forall i :: 0 <= i < |t| ==> 0.0 <= t[i] && (duration > 0.0 ==> t[i] < duration)
  {
    var step := duration / |t| as real;
    assert step * |t| as real == duration;
    assert step >= 0.0;
    forall i | 0 <= i < |t|
      ensures 0.0 <= t[i] && (duration > 0.0 ==> t[i] < duration)
    {
      Scale(step, 0.0, i as real);
      if duration > 0.0 {
        assert step > 0.0;
        Scale(step, i as real, |t| as real - 1.0);
      }
    }
  }

  /** The position of each instant in cycles of the waveform, `t * frequency`. */
  function Cycles(t: seq<real>, frequency: real): (x: seq<real>)
    ensures |x| == |t|
    ensures forall i :: 0 <= i < |t| ==> x[i] == t[i] * frequency
    ensures forall i :: 0 < i < |t| ==> x[i] - x[i - 1] == (t[i] - t[i - 1]) * frequency
  {
    seq(|t|, i requires 0 <= i < |t| => t[i] * frequency)
  }

  /** The sine branch: the sine of each position (in cycles). */
  function SineWave(x: seq<real>, sin: real -> real): (s: seq<real>)
    ensures |s| == |x|
    ensures UnitRange(sin) ==> forall k :: 0 <= k < |s| ==> -1.0 <= s[k] <= 1.0
  {
    var s := seq(|x|, i requires 0 <= i < |x| => sin(x[i]));
    UnitRangeOver(sin, x, s);
    s
  }

  /** The square branch: the sign of the sine at each position. */
  function SquareWave(x: seq<real>, sin: real -> real): (s: seq<real>)
    ensures |s| == |x|
    ensures forall k :: 0 <= k < |s| ==> s[k] in {-1.0, 0.0, 1.0}
    ensures forall k :: 0 <= k < |s| ==> s[k] * sin(x[k]) >= 0.0
    ensures forall k :: 0 <= k < |s| ==> (s[k] == 0.0 <==> sin(x[k]) == 0.0)
  {
    seq(|x|, i requires 0 <= i < |x| => Sign(sin(x[i])))
  }

  function SawtoothWave(x: seq<real>): (s: seq<real>)
    ensures |s| == |x|
    ensures forall k :: 0 <= k < |s| ==> -1.0 <= s[k] < 1.0
  {
    seq(|x|, i requires 0 <= i < |x| => SawtoothAt(x[i]))
  }

  function TriangleWave(x: seq<real>): (s: seq<real>)
    ensures |s| == |x|
    ensures forall k :: 0 <= k < |s| ==> -1.0 <= s[k] <= 1.0
  {
    seq(|x|, i requires 0 <= i < |x| => TriangleAt(x[i]))
  }

  function PulseWave(t: seq<real>, frequency: real, pulseWidth: real): (s: seq<real>)
    requires frequency != 0.0
    ensures |s| == |t|
    ensures forall k :: 0 <= k < |s| ==> s[k] == 1.0 || s[k] == -1.0
  {
    seq(|t|, i requires 0 <= i < |t| => PulseAt(t[i], frequency, pulseWidth))
  }

  /** The noise branch: `n` fresh draws from the uniform random source. */
  function NoiseWave(n: nat, noise: nat -> real): (s: seq<real>)
    ensures |s| == n
    ensures UniformDraws(noise) ==> forall k :: 0 <= k < |s| ==> -1.0 <= s[k] < 1.0
  {
    seq(n, i requires 0 <= i < n => noise(i))
  }

  /** The samples of `generate_waveform(waveType, frequency, duration,
      sampleRate)`, with the global pulse width passed in. */
  function GenerateWaveform(waveType: string, frequency: real, duration: real,
                            sampleRate: nat, pulseWidth: real, env: Env): (r: Generated)
    requires duration >= 0.0
    ensures r.ZeroDivision? <==> ShapeOf(waveType) == Pulse && frequency == 0.0
    ensures r.Samples? ==> |r.s| == SampleCount(sampleRate, duration)
    ensures r.Samples? && ShapeOf(waveType) == Square ==>
      forall k :: 0 <= k < |r.s| ==> r.s[k] in {-1.0, 0.0, 1.0}
    ensures r.Samples? && ShapeOf(waveType) == Sawtooth ==>
      forall k :: 0 <= k < |r.s| ==> -1.0 <= r.s[k] < 1.0
    ensures r.Samples? && ShapeOf(waveType) == Pulse ==>
      forall k :: 0 <= k < |r.s| ==> r.s[k] == 1.0 || r.s[k] == -1.0
    ensures r.Samples? && ShapeOf(waveType) == Other ==>
      forall k :: 0 <= k < |r.s| ==> r.s[k] == 0.0
    ensures r.Samples? && (WellBehaved(env) || ShapeOf(waveType) !in {Sine, Noise}) ==>
      forall k :: 0 <= k < |r.s| ==> -1.0 <= r.s[k] <= 1.0
  {
    var n := SampleCount(sampleRate, duration);
    var t := TimeAxis(duration, n);
    match ShapeOf(waveType)
    case Sine => Samples(SineWave(Cycles(t, frequency), env.sinCycles))
    case Square => Samples(SquareWave(Cycles(t, frequency), env.sinCycles))
    case Sawtooth => Samples(SawtoothWave(Cycles(t, frequency)))
    case Triangle => Samples(TriangleWave(Cycles(t, frequency)))
    case Pulse =>
      if frequency == 0.0 then ZeroDivision
      else Samples(PulseWave(t, frequency, pulseWidth))
    case Noise => Samples(NoiseWave(n, env.noise))
    case Other => Samples(seq(n, i requires 0 <= i < n => 0.0))
  }

  /** The duty cycle of the generated pulse: sample `k` is high exactly when
      the position of instant `k` within its cycle is below `pulseWidth`. */
  lemma GeneratedPulseDuty(waveType: string, frequency: real, duration: real,
                           sampleRate: nat, pulseWidth: real, env: Env, k: nat)
    requires ShapeOf(waveType) == Pulse && frequency > 0.0 && duration >= 0.0
    requires k < SampleCount(sampleRate, duration)
    ensures var r := GenerateWaveform(waveType, frequency, duration, sampleRate, pulseWidth, env);
      var x := Cycles(TimeAxis(duration, SampleCount(sampleRate, duration)), frequency);
      r.Samples? && (r.s[k] == 1.0 <==> Frac(x[k]) < pulseWidth)
  {
    var t := TimeAxis(duration, SampleCount(sampleRate, duration));
    assert GenerateWaveform(waveType, frequency, duration, sampleRate, pulseWidth, env)
      == Samples(PulseWave(t, frequency, pulseWidth));
    PulseWaveDuty(t, frequency, pulseWidth, k);
  }

  lemma PulseWaveDuty(t: seq<real>, frequency: real, pulseWidth: real, k: nat)
    requires frequency > 0.0 && k < |t|
    ensures PulseWave(t, frequency, pulseWidth)[k] == 1.0 <==> Frac(Cycles(t, frequency)[k]) < pulseWidth
  {
    var y := t[k];
    PulseDutyCycle(y, frequency, pulseWidth);
    assert Cycles(t, frequency)[k] == y * frequency;
  }

  /** The sawtooth repeats every whole cycle. */
  lemma SawtoothPeriodic(x: real, k: int)
    ensures SawtoothAt(x + k as real) == SawtoothAt(x)
  {
    var f := (0.5 + x).Floor;
    assert f as real <= 0.5 + x < f as real + 1.0;
    assert (0.5 + (x + k as real)).Floor == f + k;
  }

  /** Within the central period the sawtooth is the ramp from -1 to 1. */
  lemma SawtoothRamp(x: real)
    requires -0.5 <= x < 0.5
    ensures SawtoothAt(x) == 2.0 * x
  {
    assert (0.5 + x).Floor == 0;
  }

  /** The triangle is built from the sawtooth: twice its magnitude, less 1. */
  lemma TriangleFoldsSawtooth(x: real)
    ensures TriangleAt(x) == 2.0 * Abs(SawtoothAt(x)) - 1.0
    ensures TriangleAt(x + 1.0) == TriangleAt(x)
  {
    SawtoothPeriodic(x, 1);
  }

  /** Within the central period the triangle is the V from 1 down to -1 and
      back up. */
  lemma TriangleVee(x: real)
    requires -0.5 <= x < 0.5
    ensures TriangleAt(x) == 4.0 * Abs(x) - 1.0
  {
    SawtoothRamp(x);
    TriangleFoldsSawtooth(x);
  }

  /** The pulse is high exactly for the first `pulseWidth` fraction of each
      period, whatever the frequency. */
  lemma PulseDutyCycle(t: real, frequency: real, pulseWidth: real)
    requires frequency > 0.0
    ensures PulseAt(t, frequency, pulseWidth) == 1.0 <==> Frac(t * frequency) < pulseWidth
  {
    var period := 1.0 / frequency;
    assert t / period == t * frequency;
    var q := (t * frequency).Floor;
    assert FloorMod(t, period) == t - q as real * period;
    assert t - q as real * period == period * Frac(t * frequency) by {
      assert frequency * period == 1.0;
      assert (t * frequency) * period == t * (frequency * period);
    }
    if Frac(t * frequency) < pulseWidth {
      assert period * Frac(t * frequency) < period * pulseWidth;
    } else {
      Scale(period, pulseWidth, Frac(t * frequency));
    }
  }
}
