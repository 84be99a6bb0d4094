# Synthesizer signal path, modelled in Dafny

A model of the real-time tone synthesizer in `synth.py`: the closed-form
waveform generator (`generate_waveform`), the feedback-delay reverb
(`apply_reverb`), the audio callback that scales the tone by the volume and
writes it into the device's output buffer (`audio_callback`), and the control
handlers that change the global parameters (`update_frequency`,
`update_volume`, `toggle_reverb`, `change_waveform`, `update_pulse_width`).

- `arith.dfy` — module `RealArith`: absolute value and monotonicity facts about reals.
- `waveform.dfy` — module `Waveform`: the shapes over exact reals, the sample
  count `int(sample_rate * duration)`, the `linspace` time axis, and
  `GenerateWaveform`, which dispatches on the waveform name. The sine of
  `2*pi*x` and the uniform random source are parameters (`Env`). The shapes
  are bounded by [-1, 1] provided that these parameters stay in range.
- `reverb.dfy` — module `Reverb`: the delay length, the recurrence
  `FilteredAt` and its block `Reverb`, and the method `ApplyReverb`. The
  method copies the input array and runs the source's in-place left-to-right
  loop, and it is proved equal to `Reverb`. The lemmas cover the pass-through
  head, the feedback recurrence, the impulse response `decay^k` every `d`
  samples, and boundedness for a decay in [0, 1).
- `synth.dfy` — module `Synth`: the class `Synth` holds the program's globals
  as fields, with one method per handler and the callback. `Block` is the
  specification of the block the callback writes.

Each block is generated from time 0 and filtered on its own: the code keeps
no phase and no reverb history between callbacks. The setters store what
they are given without checking its range, and the delay in samples is
`int(...)`, which truncates. The model does the same. It also gives
`sign(0) = 0` for the square wave and returns silence for an unknown
waveform name, as the code does.

## Model

| member | source | states |
|---|---|---|
| `Waveform.ShapeOf` | synth.py:16-29 | a name selects a shape, and it is the silent fallback exactly when it is none of the six names the generator tests |
| `Waveform.SampleCount` | synth.py:15 | `int(sample_rate * duration)` is the largest whole number of samples not exceeding `sample_rate * duration` |
| `Waveform.TimeAxis` | synth.py:15 | `n` instants starting at 0, evenly spaced by `duration / n`, all in [0, duration) |
| `Waveform.SineWave` | synth.py:17 | one sample per instant, in [-1, 1] when the sine is |
| `Waveform.Sign` | synth.py:19 | the sign is -1, 0 or 1, zero exactly at 0, and never of opposite sign to its argument |
| `Waveform.Cycles` | synth.py:21-23 | the position in cycles at each instant is `t * frequency`, and equal time steps give equal steps in cycles |
| `Waveform.SquareWave` | synth.py:19 | samples are -1, 0 or 1, agree in sign with the sine, and are 0 exactly where the sine is 0 |
| `Waveform.SawtoothAt` | synth.py:21 | `2*(x - floor(1/2 + x))` lies in [-1, 1) |
| `Waveform.SawtoothWave` | synth.py:21 | one sample per instant, each in [-1, 1) |
| `Waveform.SawtoothPeriodic` | synth.py:21 | the sawtooth repeats after every whole cycle |
| `Waveform.SawtoothRamp` | synth.py:21 | on [-1/2, 1/2) the sawtooth is the ramp `2x` |
| `Waveform.TriangleAt` | synth.py:23 | `2*abs(2*(x - floor(1/2 + x))) - 1` lies in [-1, 1] |
| `Waveform.TriangleWave` | synth.py:23 | one sample per instant, each in [-1, 1] |
| `Waveform.TriangleFoldsSawtooth` | synth.py:21-23 | the triangle is `2*abs(sawtooth) - 1` and repeats after every whole cycle |
| `Waveform.TriangleVee` | synth.py:23 | on [-1/2, 1/2) the triangle is `4*abs(x) - 1` |
| `Waveform.Frac` | synth.py:25 | the fractional part lies in [0, 1) and differs from its argument by an integer |
| `Waveform.FloorMod` | synth.py:25 | float `%` takes the sign of the divisor, stays below it in magnitude, and differs from `x` by a whole number of divisors |
| `Waveform.PulseAt` | synth.py:25 | a pulse sample is +1 or -1 |
| `Waveform.PulseDutyCycle` | synth.py:25 | the pulse is high exactly while the position within the current cycle is below `pulse_width` |
| `Waveform.PulseWave` | synth.py:25 | one sample per instant, each +1 or -1 |
| `Waveform.PulseWaveDuty` | synth.py:25 | sample `k` of the pulse is +1 exactly when the fractional part of `t_k * frequency` is below `pulse_width` |
| `Waveform.GeneratedPulseDuty` | synth.py:14-25 | for the pulse shape at a positive frequency, generation succeeds and sample `k` is +1 exactly when the fractional part of `t_k * frequency` is below `pulse_width` |
| `Waveform.NoiseWave` | synth.py:27 | `n` draws, each in [-1, 1) when the source is uniform on that interval |
| `Waveform.GenerateWaveform` | synth.py:14-29 | `int(sample_rate * duration)` samples; pulse at frequency 0 is a division by zero and nothing else fails; pulse is ±1, square is -1/0/1, sawtooth is in [-1, 1), unknown names are all zeros, and every shape is in [-1, 1] when sine and noise are |
| `Reverb.DelaySamples` | synth.py:32 | `int(delay_ms * sample_rate / 1000)` is the floor of `delay_ms * sample_rate / 1000` |
| `Reverb.DefaultDelay` | synth.py:31-32 | with the default 50 ms at 44100 Hz the delay is 2205 samples |
| `Reverb.FilteredAt` | synth.py:34-35 | a sample before the delay is the input sample unchanged |
| `Reverb.Reverb` | synth.py:31-36 | the filtered block has the same length as the input |
| `Reverb.ApplyReverb` | synth.py:31-36 | the copied-then-updated array equals the recurrence `Reverb` applied to the input |
| `Reverb.ReverbPassesHead` | synth.py:33-34 | samples before the delay are unchanged, and a block no longer than the delay comes back unchanged |
| `Reverb.ReverbFeedback` | synth.py:34-35 | from the delay on, each output is the input plus `decay` times the already-filtered output one delay earlier |
| `Reverb.FeedbackStep` | synth.py:34-35 | one iteration of the loop: a delay of 0 adds `decay` times the sample itself, a positive delay adds `decay` times the filtered sample one delay back |
| `Reverb.ReverbZeroDelay` | synth.py:34-35 | with a delay of 0 every sample is scaled by `1 + decay` |
| `Reverb.ImpulseResponse` | synth.py:34-35 | a unit impulse gives `decay^(i/d)` at multiples of the delay and 0 elsewhere |
| `Reverb.ImpulseEchoes` | synth.py:34-35 | the impulse response over the whole block: `decay^k` at `k*d`, zero at every other index |
| `Reverb.FilteredWithin` | synth.py:34-35 | any bound that absorbs one more echo bounds every filtered sample |
| `Reverb.SelfEchoAt` | synth.py:34-35 | with a delay of 0, a sample scaled by `1 + decay` stays within a limit that bounds it so scaled |
| `Reverb.EchoAt` | synth.py:34-35 | a sample whose earlier filtered sample is within the limit stays within it after the update |
| `Reverb.StabilityLimit` | synth.py:34-35 | `bound / (1 - decay)` absorbs one more echo |
| `Reverb.ReverbBounded` | synth.py:34-35 | for a decay in [0, 1), an input bounded by `b` filters to an output bounded by `b / (1 - decay)` |
| `Reverb.TruncTowardZero` | synth.py:35 | storing a real into an integer element keeps its integer part, rounding toward zero |
| `Reverb.IntEcho` | synth.py:35 | one truncated update of a sample in [-1, 1] with an earlier value in [-1, 1] and a decay in [0, 1) stays in [-1, 1] |
| `Reverb.IntFilteredAt` | synth.py:25-36 | the filter as written keeps every sample in [-1, 1] when the integer input is in [-1, 1] and the decay in [0, 1) |
| `Reverb.IntReverb` | synth.py:25-36 | the filter as written on the integer pulse block keeps the block's length |
| `Reverb.IntFilteredPulse` | synth.py:25-36 | on a ±1 pulse block the filter as written yields only -1, 0 or 1, and 0 only where the earlier output has the opposite sign |
| `Reverb.TruncatedEcho` | synth.py:35 | one truncated update of a ±1 sample gives back the sample, or 0 when the earlier value has the opposite sign and the decay is positive |
| `Reverb.PulseReverbTruncates` | synth.py:25-36 | a 2206-frame held-high pulse keeps 1 at index 2205, where the recurrence gives 1.6 |
| `Synth.Duration` | synth.py:40 | `frames / sample_rate` seconds holds exactly `frames` samples |
| `Synth.Scaled` | synth.py:43 | `volume * tone` has the tone's length and each sample is the tone's sample times the volume |
| `Synth.Shaped` | synth.py:40-42 | the tone has `frames` samples, and it fails exactly for the pulse at frequency 0 |
| `Synth.Block` | synth.py:38-43 | the block has `frames` samples, and it fails exactly for the pulse at frequency 0 |
| `Synth.BlockComposition` | synth.py:40-43 | the block is `volume * tone` when reverb is off, and `volume * Reverb(tone, 0.6, 2205)` when it is on |
| `Synth.ShortBlockHasNoEcho` | synth.py:33-42 | a callback of at most 2205 frames writes the same block with reverb on or off |
| `Synth.UnknownShapeIsSilent` | synth.py:28-43 | an unknown waveform name writes an all-zero block, with reverb on or off |
| `Synth.BlockBounded` | synth.py:38-43 | a non-negative volume bounds the output by `volume`, or by `2.5 * volume` with reverb on |
| `Synth.PulseBlockValues` | synth.py:25-43 | without reverb a pulse block holds only `volume` and `-volume` |
| `Synth.Synth.constructor` | synth.py:6-12 | the initial globals: 440 Hz, volume 0.5, sine, reverb off, pulse width 0.5 |
| `Synth.Synth.UpdateFrequency` | synth.py:45-47 | sets the frequency and changes no other parameter |
| `Synth.Synth.UpdateVolume` | synth.py:49-51 | sets the volume to `val / 100`, so the slider's 0..100 gives [0, 1]; changes no other parameter |
| `Synth.Synth.ToggleReverb` | synth.py:53-55 | negates the reverb flag and changes no other parameter |
| `Synth.Synth.ToggleReverbTwice` | synth.py:53-55 | toggling twice restores every parameter |
| `Synth.Synth.ChangeWaveform` | synth.py:57-59 | sets the waveform name and changes no other parameter |
| `Synth.Synth.UpdatePulseWidth` | synth.py:66-68 | sets the pulse width to `val / 100`, so the slider's 1..99 gives (0, 1); changes no other parameter |
| `Synth.Synth.Tone` | synth.py:40-42 | the generated tone, filtered by `ApplyReverb` exactly when reverb is enabled, equals `Shaped` |
| `Synth.Synth.WriteColumn` | synth.py:43 | `outdata[:, 0] = block` puts the block into column 0 and leaves every other column as it was |
| `Synth.Synth.AudioCallback` | synth.py:38-43 | column 0 of every frame receives `Block`; other columns are untouched; on the pulse division by zero nothing is written |

## Findings

| source | as written | input that shows it | evidently intended | confidence | as-written member | corrected member |
|---|---|---|---|---|---|---|
| synth.py:25,33-35 | the pulse tone is an integer array, because `np.where(..., 1, -1)` holds integers and `np.copy` keeps that type. Each `output[i] += decay * ...` is then stored truncated toward zero, so echoes are lost: ±1 samples stay ±1 or drop to 0 | pulse held high for 2206 frames, reverb on, defaults `decay=0.6` and `delay_ms=50`. Index 2205 stays 1 instead of 1.6 | the real-valued feedback recurrence, as for every other shape | not executed; high (numpy assignment into an integer array truncates) | `Reverb.PulseReverbTruncates` | `Reverb.ApplyReverb` |

The callback in this model (`Synth.Block`, `Synth.Synth.Tone`) filters every
shape with the real-valued `Reverb`. `Reverb.IntReverb` and
`Reverb.IntFilteredPulse` describe what the code does to the pulse shape.

## Left out

- The sine and square shapes call `np.sin`, which this model takes as a parameter `sinCycles`. Their bound to [-1, 1] holds only when that parameter stays in range.
- The noise shape calls `np.random.uniform`, which this model takes as a parameter `noise`. Its bound holds only when the draws lie in [-1, 1).
- Floating point is modelled as exact reals. The rounding of `t % (1/frequency)`, of `linspace` and of `int(sample_rate * (frames / sample_rate))` is not modelled. Over the reals the last one is exactly `frames`. With floats it could come out one short, which would make the write into `outdata` fail.
- The output buffer's float32 element type is not modelled, so neither is rounding on the write.
- The callback's `time` and `status` arguments are unused by the code and are not modelled.
- The model reports an exception in the callback as `raised` and leaves `outdata` untouched. What the audio library does with the stream after that is not modelled.
- The tkinter GUI is not modelled. This covers the sliders, the menu, the button, `mainloop`, and the pulse-width slider that `change_waveform` shows or hides.
- Starting and stopping the `sounddevice` stream is device I/O and is not modelled.
- The GUI thread and the audio thread share the globals without synchronisation. The model runs the handlers and the callback one at a time.
- `random_sound.py` is offline and not part of the real-time path, so it is not modelled. It generates random harmonics, applies an FFT low-pass filter and plots the result.
- `Synth.Shaped`: for the pulse shape with reverb on and a block longer than 2205 frames, the model filters with the real-valued `Reverb.Reverb`, whereas the code truncates every update toward zero, as `Reverb.IntReverb` describes (see Findings).
- `Synth.Block`: for the pulse shape with reverb on and a block longer than 2205 frames, the model's block is `volume` times the real-valued `Reverb.Reverb`, whereas the code writes `volume` times `Reverb.IntReverb`, the truncating filter (see Findings).
- `Synth.BlockComposition`: with reverb on, the pulse shape is composed with the real-valued `Reverb.Reverb`, whereas the code applies the truncating `Reverb.IntReverb` to it (see Findings).
- `Synth.Synth.Tone`: for the pulse shape with reverb on, the tone is the corrected real-valued filter that `Reverb.ApplyReverb` computes, whereas the code yields the truncated `Reverb.IntReverb` (see Findings).
- `Synth.Synth.AudioCallback`: for the pulse shape with reverb on and a block longer than 2205 frames, the model writes the corrected real-valued filter, whereas the code writes the truncated `Reverb.IntReverb` (see Findings).
- `Reverb.DelaySamples`: takes `delay_ms` and the sample rate as natural numbers. The code only calls it with its defaults.
