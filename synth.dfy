/** The synthesizer's live parameters, the control setters that change them
    and the audio callback that turns them into one block of output.

    The module-level globals of the program become the fields of `Synth`;
    the callback reads them and writes `volume * tone` into column 0 of the
    device's output buffer. */
module Synth {
  import Waveform
  import Reverb
  import RealArith

  /** The fixed sample rate of the output stream. */
  const SampleRate: nat := 44100

  /** The default arguments the callback leaves to `apply_reverb`. */
  const ReverbDecay: real := 0.6
  const ReverbDelayMs: nat := 50

  /** A snapshot of the live parameters. */
  datatype Params = Params(frequency: real, volume: real, waveformType: string,
                           reverbEnabled: bool, pulseWidth: real)

  /** The duration `frames / sample_rate` the callback asks the generator
      for: exactly `frames` samples' worth of time. */
  function Duration(frames: nat): (duration: real)
    ensures duration >= 0.0
    ensures Waveform.SampleCount(SampleRate, duration) == frames
  {
    var duration := frames as real / SampleRate as real;
    assert SampleRate as real * duration == frames as real;
    duration
  }

  function Scaled(volume: real, s: seq<real>): (r: seq<real>)
    ensures |r| == |s| && forall k :: 0 <= k < |s| ==> r[k] == volume * s[k]
  {
    seq(|s|, k requires 0 <= k < |s| => volume * s[k])
  }

  /** The tone after the optional reverb, before scaling by the volume. */
  function Shaped(p: Params, frames: nat, env: Waveform.Env): (r: Waveform.Generated)
    ensures r.ZeroDivision? <==>
      Waveform.ShapeOf(p.waveformType) == Waveform.Pulse && p.frequency == 0.0
    ensures r.Samples? ==> |r.s| == frames
  {
    match Waveform.GenerateWaveform(p.waveformType, p.frequency, Duration(frames), SampleRate, p.pulseWidth, env)
    case ZeroDivision => Waveform.ZeroDivision
    case Samples(tone) =>
      if p.reverbEnabled
      then Waveform.Samples(Reverb.Reverb(tone, ReverbDecay, Reverb.DelaySamples(ReverbDelayMs, SampleRate)))
      else Waveform.Samples(tone)
  }

  lemma ShapedFrom(p: Params, frames: nat, env: Waveform.Env, tone: seq<real>)
    requires Waveform.GenerateWaveform(p.waveformType, p.frequency, Duration(frames), SampleRate, p.pulseWidth, env)
      == Waveform.Samples(tone)
    ensures Shaped(p, frames, env) == Waveform.Samples(
      if p.reverbEnabled then Reverb.Reverb(tone, ReverbDecay, Reverb.DelaySamples(ReverbDelayMs, SampleRate)) else tone)
  {
  }

  lemma BlockScalesShaped(p: Params, frames: nat, env: Waveform.Env)
    ensures Shaped(p, frames, env).Samples? ==>
      Block(p, frames, env) == Waveform.Samples(Scaled(p.volume, Shaped(p, frames, env).s))
  {
  }

  /** The block one callback writes into column 0: `frames` samples of the
      volume-scaled tone, or the division by zero the pulse shape raises at
      frequency 0. */
  function Block(p: Params, frames: nat, env: Waveform.Env): (r: Waveform.Generated)
    ensures r.ZeroDivision? <==>
      Waveform.ShapeOf(p.waveformType) == Waveform.Pulse && p.frequency == 0.0
    ensures r.Samples? ==> |r.s| == frames
  {
    match Shaped(p, frames, env)
    case ZeroDivision => Waveform.ZeroDivision
    case Samples(s) => Waveform.Samples(Scaled(p.volume, s))
  }

  /** With reverb off the block is exactly the volume-scaled waveform; with
      reverb on, every sample is the volume times the feedback-filtered
      waveform. */
  lemma BlockComposition(p: Params, frames: nat, env: Waveform.Env)
    ensures var g := Waveform.GenerateWaveform(p.waveformType, p.frequency, Duration(frames), SampleRate, p.pulseWidth, env);
      var b := Block(p, frames, env);
      g.Samples? == b.Samples? &&
      (g.Samples? && !p.reverbEnabled ==> b.s == Scaled(p.volume, g.s)) &&
      (g.Samples? && p.reverbEnabled ==>
        b.s == Scaled(p.volume, Reverb.Reverb(g.s, ReverbDecay, 2205)))
  {
    Reverb.DefaultDelay();
  }

  /** A block no longer than the 2205-sample delay is the same with reverb
      on or off: each block is filtered on its own, so no echo lands in it. */
  lemma ShortBlockHasNoEcho(p: Params, frames: nat, env: Waveform.Env)
    requires frames <= 2205
    ensures Block(p.(reverbEnabled := true), frames, env) == Block(p.(reverbEnabled := false), frames, env)
  {
    Reverb.DefaultDelay();
    var g := Waveform.GenerateWaveform(p.waveformType, p.frequency, Duration(frames), SampleRate, p.pulseWidth, env);
    if g.Samples? {
      Reverb.ReverbPassesHead(g.s, ReverbDecay, 2205);
    }
  }

  /** An unrecognised waveform name gives a silent block, reverb or not. */
  lemma UnknownShapeIsSilent(p: Params, frames: nat, env: Waveform.Env)
    requires Waveform.ShapeOf(p.waveformType) == Waveform.Other
    ensures Block(p, frames, env).Samples?
    ensures forall k :: 0 <= k < frames ==> Block(p, frames, env).s[k] == 0.0
  {
    var g := Waveform.GenerateWaveform(p.waveformType, p.frequency, Duration(frames), SampleRate, p.pulseWidth, env);
    if p.reverbEnabled {
      Reverb.DefaultDelay();
      Reverb.ReverbBounded(g.s, ReverbDecay, 2205, 0.0);
      forall k | 0 <= k < frames
        ensures Block(p, frames, env).s[k] == 0.0
      {
        assert RealArith.Abs(Reverb.Reverb(g.s, ReverbDecay, 2205)[k]) <= 0.0 / (1.0 - ReverbDecay);
      }
    }
  }

  /** The output stays within the volume without reverb, and within 2.5
      times the volume with it (the feedback gain `1 / (1 - 0.6)`), for every
      shape whose samples lie in [-1, 1]. */
  lemma {:induction false} BlockBounded(p: Params, frames: nat, env: Waveform.Env)
    requires 0.0 <= p.volume
    requires Waveform.WellBehaved(env) || Waveform.ShapeOf(p.waveformType) !in {Waveform.Sine, Waveform.Noise}
    ensures var b := Block(p, frames, env);
      b.Samples? ==> forall k :: 0 <= k < frames ==>
        RealArith.Abs(b.s[k]) <= (if p.reverbEnabled then 2.5 * p.volume else p.volume)
  {
    var g := Waveform.GenerateWaveform(p.waveformType, p.frequency, Duration(frames), SampleRate, p.pulseWidth, env);
    var sh := Shaped(p, frames, env);
    if g.Samples? {
      var limit := if p.reverbEnabled then 2.5 else 1.0;
      assert forall j :: 0 <= j < |g.s| ==> RealArith.Abs(g.s[j]) <= 1.0;
      if p.reverbEnabled {
        Reverb.DefaultDelay();
        Reverb.ReverbBounded(g.s, ReverbDecay, 2205, 1.0);
        assert 1.0 / (1.0 - ReverbDecay) == 2.5;
      }
      assert forall k :: 0 <= k < frames ==> RealArith.Abs(sh.s[k]) <= limit;
      ScaledBounded(p.volume, sh.s, limit);
    }
  }

  /** Scaling by a non-negative volume scales a bound on the samples. */
  lemma ScaledBounded(volume: real, s: seq<real>, limit: real)
    requires 0.0 <= volume && forall j :: 0 <= j < |s| ==> RealArith.Abs(s[j]) <= limit
    ensures forall k :: 0 <= k < |s| ==> RealArith.Abs(Scaled(volume, s)[k]) <= limit * volume
  {
    forall k | 0 <= k < |s|
      ensures RealArith.Abs(Scaled(volume, s)[k]) <= limit * volume
    {
      ScaledWithin(volume, s[k], Scaled(volume, s)[k], limit);
    }
  }

  lemma ScaledWithin(volume: real, x: real, y: real, limit: real)
    requires 0.0 <= volume && RealArith.Abs(x) <= limit && y == volume * x
    ensures RealArith.Abs(y) <= limit * volume
  {
    RealArith.AbsScale(volume, x);
    RealArith.Scale(volume, RealArith.Abs(x), limit);
  }

  /** Without reverb the pulse block only takes the values `volume` and
      `-volume`. */
  lemma PulseBlockValues(p: Params, frames: nat, env: Waveform.Env)
    requires Waveform.ShapeOf(p.waveformType) == Waveform.Pulse && !p.reverbEnabled
    ensures var b := Block(p, frames, env);
      b.Samples? ==> forall k :: 0 <= k < frames ==> b.s[k] == p.volume || b.s[k] == -p.volume
  {
  }

  /** The program's global parameters and the handlers that change them. */
  class Synth {
    var frequency: real
    var volume: real
    var waveformType: string
    var reverbEnabled: bool
    var pulseWidth: real

    function Current(): (p: Params)
      reads this
      ensures p.frequency == frequency && p.volume == volume && p.waveformType == waveformType
      ensures p.reverbEnabled == reverbEnabled && p.pulseWidth == pulseWidth
    {
      Params(frequency, volume, waveformType, reverbEnabled, pulseWidth)
    }

    /** The initial values of the globals. */
    constructor ()
      ensures Current() == Params(440.0, 0.5, "sine", false, 0.5)
    {
      frequency := 440.0;
      volume := 0.5;
      waveformType := "sine";
      reverbEnabled := false;
      pulseWidth := 0.5;
    }

    /** The frequency slider's handler: the new frequency, nothing else. */
    method UpdateFrequency(val: real)
      modifies this
      ensures Current() == old(Current()).(frequency := val)
    {
      frequency := val;
    }

    /** The volume slider's handler: a percentage becomes a gain, so the
        slider's range 0..100 gives a volume in [0, 1]. */
    method UpdateVolume(val: real)
      modifies this
      ensures Current() == old(Current()).(volume := val / 100.0)
      ensures 0.0 <= val <= 100.0 ==> 0.0 <= volume <= 1.0
    {
      volume := val / 100.0;
    }

    /** The reverb button's handler: flips the flag and nothing else. */
    method ToggleReverb()
      modifies this
      ensures Current() == old(Current()).(reverbEnabled := !old(reverbEnabled))
    {
      reverbEnabled := !reverbEnabled;
    }

    /** Pressing the reverb button twice restores every parameter. */
    method ToggleReverbTwice()
      modifies this
      ensures Current() == old(Current())
    {
      ToggleReverb();
      ToggleReverb();
    }

    /** The waveform menu's handler: the new waveform name, nothing else
        (showing or hiding the pulse-width slider is left out). */
    method ChangeWaveform(waveType: string)
      modifies this
      ensures Current() == old(Current()).(waveformType := waveType)
    {
      waveformType := waveType;
    }

    /** The pulse-width slider's handler: a percentage becomes a fraction,
        so the slider's range 1..99 gives a width strictly inside (0, 1). */
    method UpdatePulseWidth(val: real)
      modifies this
      ensures Current() == old(Current()).(pulseWidth := val / 100.0)
      ensures 1.0 <= val <= 99.0 ==> 0.0 < pulseWidth < 1.0
    {
      pulseWidth := val / 100.0;
    }

    /** `outdata[:, 0] = block`: the block goes into column 0, one sample
        per frame, and every other column keeps its contents. */
    static method WriteColumn(outdata: array2<real>, block: seq<real>)
      requires outdata.Length0 == |block| && outdata.Length1 >= 1
      modifies outdata
      ensures forall k :: 0 <= k < |block| ==> outdata[k, 0] == block[k]
      ensures forall k, c :: 0 <= k < |block| && 0 < c < outdata.Length1 ==>
        outdata[k, c] == old(outdata[k, c])
    {
      forall k | 0 <= k < |block| {
        outdata[k, 0] := block[k];
      }
    }

    /** The tone of one callback: `generate_waveform` with the current
        parameters for `frames / sample_rate` seconds, passed through
        `apply_reverb` when reverb is enabled. */
    method Tone(frames: nat, env: Waveform.Env) returns (tone: Waveform.Generated)
      ensures tone == Shaped(Current(), frames, env)
    {
      var generated := Waveform.GenerateWaveform(waveformType, frequency, Duration(frames), SampleRate, pulseWidth, env);
      if generated.ZeroDivision? {
        return Waveform.ZeroDivision;
      }
      var samples := generated.s;
      if reverbEnabled {
        var signal := new real[|samples|](k requires 0 <= k < |samples| => samples[k]);
        assert signal[..] == samples;
        var output := Reverb.ApplyReverb(signal, ReverbDecay, ReverbDelayMs, SampleRate);
        samples := output[..];
      }
      ShapedFrom(Current(), frames, env, generated.s);
      tone := Waveform.Samples(samples);
    }

    /** `audio_callback(outdata, frames, time, status)`: generates `frames`
        samples of the current waveform, filters them when reverb is
        enabled, and writes `volume` times them into column 0 of `outdata`.
        `raised` reports the division by zero of the pulse shape at
        frequency 0, which leaves `outdata` untouched. */
    method AudioCallback(outdata: array2<real>, frames: nat, env: Waveform.Env) returns (raised: bool)
      requires outdata.Length0 == frames && outdata.Length1 >= 1
      modifies outdata
      ensures raised <==> Block(Current(), frames, env).ZeroDivision?
      ensures !raised ==> forall k :: 0 <= k < frames ==> outdata[k, 0] == Block(Current(), frames, env).s[k]
      ensures forall k, c :: 0 <= k < frames && 0 <= c < outdata.Length1 && (raised || c != 0) ==>
        outdata[k, c] == old(outdata[k, c])
    {
      var tone := Tone(frames, env);
      if tone.ZeroDivision? {
        return true;
      }
      raised := false;
      BlockScalesShaped(Current(), frames, env);
      WriteColumn(outdata, Scaled(volume, tone.s));
    }
  }
}
