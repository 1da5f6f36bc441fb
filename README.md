# grustnify audio core in Dafny

This project models the two audio effects of grustnify's core
(`src/core/audio_buffer.cpp`). Both work on the interleaved buffer
`core::AudioBuffer`: a sample rate, a channel count, and samples in
which sample `n * channels + ch` is channel `ch` of frame `n`.

- **`change_speed`** is a linear-interpolation time-stretch resampler.
  - It refuses a non-positive speed, a non-positive channel count and an empty buffer, returning an empty buffer with the input's rate and channel count.
  - Otherwise it produces `trunc(in_frames * speed) * channels` samples.
  - Output frame `n` reads the input at position `n / speed`. It truncates that position, clamps it to the last frame (with a zero weight there), and interpolates every channel between the frame and its successor.
- **`reverb`** is a Schroeder reverb.
  - It refuses a non-positive sample rate, a non-positive channel count and an empty buffer.
  - It clamps `mix`, `room_size` and `damp` to [0, 1]. The dry gain is `1 - mix`, the wet gain is `mix`, and the comb feedback is `0.75 + 0.2 * room_size`.
  - Every channel runs on its own through fresh, zero-filled delay lines:
    - four feedback comb filters (29.7, 37.1, 41.1 and 43.7 ms), whose taps are summed;
    - then two all-pass filters in series (5.0 and 1.7 ms, gain 0.5).
  - Each line is `max(trunc(ms * 0.001 * sr), 1)` samples long, with a cursor that wraps to 0.
  - The blend of dry and wet signal is written back into a zero-filled output of the input's length.

Structure:

- `buffer.dfy` (module `Buffers`) holds the buffer and parameter records, truncation, and the arithmetic of the interleaved layout.
- `change_speed.dfy` (module `TimeStretch`) holds the resampler:
  - the specification `ChangeSpeedSpec` as a value;
  - the source's nested loops as methods over a fresh `array<real>`, proved equal to it;
  - the resampler's properties.
- `delay_line.dfy` (module `DelayLines`) holds the ring buffer, in two forms:
  - as a value (`LineState`, `Push`, `CombNext`, `AllPassNext`), with its ring-buffer properties (`CursorAfter`, `ContentsAfter`, `Echo`);
  - a comb or all-pass line over a whole signal (`LineAfter`), proved to be a ring buffer of the values it stores (`LineAfterPushes`), which gives the comb and all-pass recurrences (`CombEcho`, `AllPassEcho`);
  - as the source keeps it: class `DelayLine` is a buffer array plus a cursor, updated in place, and class `LineBank` is one of the source's fixed arrays of lines.
- `reverb.dfy` (module `Reverberation`) holds the reverb:
  - the parameter clamping;
  - the filter network as values (`FrameStep`, `RunFrom`, `ReverbSpec`);
  - the source's loops as methods over the line banks and the scratch arrays `in_ch` and `out_ch`, proved equal to `ReverbSpec`;
  - the reverb's properties, among them `CombInReverb` (each comb inside the frame loop follows the comb recurrence) and `DryBeforeFirstEcho`: until the shortest comb delay has elapsed, the output is the dry signal alone.

Samples, gains and the speed factor are `real`s. Every float-to-integer cast of a non-negative value is its floor (`Buffers.Trunc`).

## Model

| member | source | states |
|---|---|---|
| Buffers.FrameCount | src/core/audio_buffer.cpp:21 | The number of whole frames `len / c`: `frames * c <= len < frames * c + c`. |
| Buffers.EmptyLike | src/core/audio_buffer.cpp:12-18 | The buffer an effect returns for refused input has no samples and keeps the input's sample rate and channel count. |
| Buffers.TruncBounds | src/core/audio_buffer.cpp:23 | A truncating cast of a non-negative value `x` gives the integer `n` with `n <= x < n + 1`. |
| Buffers.Trunc | src/core/audio_buffer.cpp:23 | A `static_cast` of a non-negative float to an integer type: truncation toward zero, which is the floor. |
| TimeStretch.ChangeSpeedSpec | src/core/audio_buffer.cpp:12-25 | Refused input gives no samples. Otherwise the output has `trunc(in_frames * speed) * channels` samples. The sample rate and channel count are always kept. |
| TimeStretch.Refused | src/core/audio_buffer.cpp:16 | `change_speed` refuses exactly a non-positive speed, a non-positive channel count or an empty sample vector. |
| TimeStretch.OutFrames | src/core/audio_buffer.cpp:22-23 | The output frame count is the truncated `in_frames * speed`: `frames <= in_frames * speed < frames + 1`. |
| TimeStretch.Lerp | src/core/audio_buffer.cpp:43 | `s0 + (s1 - s0) * frac`, which is `s0` at weight 0 and `s1` at weight 1. |
| TimeStretch.StretchedSample | src/core/audio_buffer.cpp:30-43 | Channel `ch` of the output frame at input position `in_pos`: the read position of `ReadPosition`, then `Lerp` of the two slots `i0 * c + ch` and `i1 * c + ch`, both in bounds. |
| TimeStretch.StretchedAt | src/core/audio_buffer.cpp:27-45 | Output slot `k` is channel `k % c` of output frame `k / c`, read at input position `(k / c) / speed`. |
| TimeStretch.ChangeSpeed | src/core/audio_buffer.cpp:8-50 | The resampler's loops return exactly `ChangeSpeedSpec(b, speed)`. |
| TimeStretch.ReadPosition | src/core/audio_buffer.cpp:28-38 | Both read indices are below `in_frames` and the weight is in [0, 1). Before the last frame, `i1 = i0 + 1` and `i0 + frac` is exactly the read position. At or past the last frame, `i0 = i1 = in_frames - 1` and `frac = 0`. |
| TimeStretch.LocateFrame | src/core/audio_buffer.cpp:30-38 | The truncate/clamp/successor statements compute `ReadPosition`. |
| TimeStretch.StretchFrame | src/core/audio_buffer.cpp:27-46 | One outer iteration writes the `channels` slots of output frame `n` with their specified values and leaves every other slot unchanged. |
| TimeStretch.InterpolateFrame | src/core/audio_buffer.cpp:40-46 | The inner loop writes `s0 + (s1 - s0) * frac` for each channel of one frame and nothing else. |
| TimeStretch.FrameSlot | src/core/audio_buffer.cpp:40-45 | Slot `n * c + ch` of the output interpolates input slots `i0 * c + ch` and `i1 * c + ch`, and both lie inside the input. |
| TimeStretch.NoFramesNoOutput | src/core/audio_buffer.cpp:21-27 | With fewer samples than channels there are no input frames and no output, so `in_frames - 1` is never evaluated. |
| TimeStretch.ReadsInBounds | src/core/audio_buffer.cpp:41-42 | Every read `i * channels + ch` is inside the input. |
| TimeStretch.HoldsLastFrame | src/core/audio_buffer.cpp:33-38 | An output frame whose position is at or past the last input frame repeats that frame, channel by channel. |
| TimeStretch.LerpBetween | src/core/audio_buffer.cpp:43 | An interpolated sample lies between its two input samples. |
| TimeStretch.StaysInRange | src/core/audio_buffer.cpp:27-47 | If every input sample lies in [lo, hi], so does every output sample. |
| TimeStretch.UnitSpeedIsIdentity | src/core/audio_buffer.cpp:21-46 | At speed 1 the output is the input's whole frames, unchanged. |
| DelayLines.Silent | src/core/audio_buffer.cpp:100-101 | A fresh line has the requested length, holds only zeros, and has its cursor at 0. |
| DelayLines.Push | src/core/audio_buffer.cpp:123-127 | A store writes the value under the cursor and changes no other slot. The cursor moves to `(cursor + 1) % length` and stays in range. |
| DelayLines.Tap | src/core/audio_buffer.cpp:122 | The sample under the cursor: what a comb (`y = buf[idx]`) or an all-pass (`buf_y`, line 137) reads, before the same step overwrites it. |
| DelayLines.CombNext | src/core/audio_buffer.cpp:122-127 | One comb step stores `x + tap * feedback * (1 - damp)` under the cursor, advances the cursor with wrap-around and keeps every other slot. |
| DelayLines.AllPassNext | src/core/audio_buffer.cpp:137-143 | One all-pass step stores `ap + tap * gain` under the cursor, advances the cursor with wrap-around and keeps every other slot. |
| DelayLines.AllPassOut | src/core/audio_buffer.cpp:137-138 | What an all-pass passes on: its input minus the tap (`v = ap - buf_y`). |
| DelayLines.PushAll | src/core/audio_buffer.cpp:114-127 | Storing a sequence keeps the line well formed and its length unchanged. |
| DelayLines.CursorAfter | src/core/audio_buffer.cpp:125-127 | After `m` stores the cursor is `(cursor + m) % length`. |
| DelayLines.ContentsAfter | src/core/audio_buffer.cpp:122-127 | After a sequence of stores, every slot holds the value stored `Age` steps ago, or its initial value if no store has reached it. |
| DelayLines.AgeStep | src/core/audio_buffer.cpp:123-127 | One store makes the slot under the cursor the newest and every other slot one store older. |
| DelayLines.OldestAtCursor | src/core/audio_buffer.cpp:122 | After `m` stores from cursor 0, the slot under the cursor is the oldest, `length - 1` stores old. |
| DelayLines.Echo | src/core/audio_buffer.cpp:122-127 | A zero-filled line with cursor 0 reads back the value stored exactly `length` steps earlier, and 0 during the first `length` steps. |
| DelayLines.FilterNext | src/core/audio_buffer.cpp:119-143 | A comb or all-pass step is the store of `Stored(f, x, tap)` under the cursor, with the cursor advanced. |
| DelayLines.LineAfter | src/core/audio_buffer.cpp:114-143 | A line stays well formed and keeps its length over any signal. |
| DelayLines.LineTaps | src/core/audio_buffer.cpp:122 | One tap per input sample, tap `n` read together with sample `n`. |
| DelayLines.LineStores | src/core/audio_buffer.cpp:123 | One stored value per input sample. |
| DelayLines.LineStoresPrefix | src/core/audio_buffer.cpp:114-143 | The values stored for the first `m` samples do not depend on later samples. |
| DelayLines.LineAfterPushes | src/core/audio_buffer.cpp:122-143 | A comb or all-pass line over a signal is exactly the ring buffer into which its stored values were pushed, in order. |
| DelayLines.LineEcho | src/core/audio_buffer.cpp:122-143 | From a zero-filled line of length `L` with cursor 0, tap `n` is the value stored at step `n - L`, and 0 for the first `L` samples. |
| DelayLines.CombEcho | src/core/audio_buffer.cpp:119-127 | The comb recurrence: output `y[n]` is 0 for `n < L` and `x[n - L] + feedback * (1 - damp) * y[n - L]` afterwards. |
| DelayLines.AllPassEcho | src/core/audio_buffer.cpp:134-143 | The all-pass recurrence: output `x[n] - w[n - L]` and stored `w[n] = x[n] + gain * w[n - L]`, with `w[n - L]` read as 0 for `n < L`. |
| DelayLines.DelayLine.constructor | src/core/audio_buffer.cpp:100-101 | `assign(len, 0.0f)` and a cursor reset to 0 give the state `Silent(len)`. |
| DelayLines.DelayLine.Comb | src/core/audio_buffer.cpp:122-127 | The in-place comb step returns the old tap and leaves the line in state `CombNext(old state)`. |
| DelayLines.DelayLine.AllPass | src/core/audio_buffer.cpp:137-143 | The in-place all-pass step returns `input - tap` and leaves the line in state `AllPassNext(old state)`. |
| DelayLines.NewLines | src/core/audio_buffer.cpp:97-102 | The allocation loop creates fresh, distinct lines with distinct buffers, each `Silent` at its length. |
| DelayLines.LineBank.constructor | src/core/audio_buffer.cpp:94-112 | A bank of fresh zero-filled lines, one per length, with every cursor at 0. |
| DelayLines.LineBank.CombAt | src/core/audio_buffer.cpp:119-127 | Line `i` steps as a comb and every other line keeps its state. |
| DelayLines.LineBank.AllPassAt | src/core/audio_buffer.cpp:134-143 | Line `i` steps as an all-pass and every other line keeps its state. |
| Reverberation.Clamp01 | src/core/audio_buffer.cpp:67-69 | `std::clamp(v, 0, 1)` lies in [0, 1]. It is `v` inside the interval, 0 below it and 1 above it. |
| Reverberation.SettingsOf | src/core/audio_buffer.cpp:67-81 | wet is the clamped mix, and dry + wet = 1 with both in [0, 1]. The feedback lies in [0.75, 0.95]: 0.75 at room size 0 or below, 0.95 at 1 or above. damp is the clamped damp. |
| Reverberation.CombLoopStable | src/core/audio_buffer.cpp:123 | The gain of a comb's feedback loop, `feedback * (1 - damp)`, lies in [0, 0.95], so every comb decays. |
| Reverberation.DelaySamples | src/core/audio_buffer.cpp:98 | A delay of positive length in milliseconds is a positive number of samples. |
| Reverberation.DelayLength | src/core/audio_buffer.cpp:98-99 | A line's length is at least 1. It is the truncated delay in samples unless that is 0 (the all-passes repeat this at lines 108-109). |
| Reverberation.FreshLines | src/core/audio_buffer.cpp:94-112 | One well-formed, zero-filled line per delay, `Silent(DelayLength(ms, sr))`. |
| Reverberation.TapSum | src/core/audio_buffer.cpp:117-130 | `comb_sum`: the sum of the comb taps, accumulated from the first comb on. |
| Reverberation.FreshBank | src/core/audio_buffer.cpp:94-112 | The lines each channel starts from: four combs and two all-passes, each zero-filled with cursor 0 and `DelayLength` of its delay long. |
| Reverberation.Blend | src/core/audio_buffer.cpp:151 | `dry * x + wet * ap`, the sample written to `out_ch[n]`. |
| Reverberation.CombsNext | src/core/audio_buffer.cpp:118-130 | Every comb steps with the same input sample. |
| Reverberation.AllPassPass | src/core/audio_buffer.cpp:132-146 | The all-pass chain keeps every line well formed and their number unchanged. |
| Reverberation.FrameStep | src/core/audio_buffer.cpp:114-151 | One frame keeps every line of the bank well formed. |
| Reverberation.RunFrom | src/core/audio_buffer.cpp:114-152 | Running frames `n ..` appends one output per input frame and keeps the lines well formed. |
| Reverberation.RunChannel | src/core/audio_buffer.cpp:114-152 | A channel run from the given lines gives one output per input frame and keeps every line well formed. |
| Reverberation.Deinterleave | src/core/audio_buffer.cpp:90-92 | One sample per frame. |
| Reverberation.DeinterleaveAt | src/core/audio_buffer.cpp:91 | Frame `n` of channel `ch` is interleaved slot `n * c + ch`, inside the buffer. |
| Reverberation.DeinterleaveSnoc | src/core/audio_buffer.cpp:90-92 | One more iteration of the copy loop appends slot `n * c + ch`. |
| Reverberation.DeinterleaveSlot | src/core/audio_buffer.cpp:91 | Slot `k` of the whole frames is frame `k / c` of channel `k % c`. |
| Reverberation.ChannelOut | src/core/audio_buffer.cpp:88-152 | One output sample per whole frame. |
| Reverberation.ReverbSpec | src/core/audio_buffer.cpp:53-65 | Refused input gives no samples. Otherwise the output has the input's length and a partial last frame stays 0. The sample rate and channel count are always kept. |
| Reverberation.Refused | src/core/audio_buffer.cpp:57 | `reverb` refuses exactly a non-positive sample rate, a non-positive channel count or an empty sample vector. |
| Reverberation.ReverbAt | src/core/audio_buffer.cpp:154-156 | Output slot `k` of a whole frame is frame `k / c` of output channel `k % c`; a slot of the partial last frame stays at the 0 that `resize` (line 65) put there. |
| Reverberation.Reverb | src/core/audio_buffer.cpp:52-160 | The reverb's loops return exactly `ReverbSpec(b, p)`. |
| Reverberation.NewChannelLines | src/core/audio_buffer.cpp:94-112 | Each channel gets fresh, disjoint comb and all-pass banks in the state `FreshBank(sr)`. |
| Reverberation.ReverbChannel | src/core/audio_buffer.cpp:88-156 | One channel iteration fills output channel `ch` and keeps the channels written before it. |
| Reverberation.ExtractChannel | src/core/audio_buffer.cpp:90-92 | The copy loop fills `in_ch` with channel `ch` of the whole frames. |
| Reverberation.FeedCombs | src/core/audio_buffer.cpp:117-130 | The comb loop returns the sum of the old taps and leaves every comb stepped with `x`. |
| Reverberation.FeedAllPasses | src/core/audio_buffer.cpp:132-146 | The all-pass loop threads the signal through the lines in order, as `AllPassPass`. |
| Reverberation.NewBank | src/core/audio_buffer.cpp:94-112 | A fresh bank whose lines are `FreshLines(delays, sr)`. |
| Reverberation.ProcessSample | src/core/audio_buffer.cpp:115-151 | One frame-loop body leaves the banks in `FrameStep`'s new state and returns its output. |
| Reverberation.StepFrame | src/core/audio_buffer.cpp:114-152 | Storing frame `n`'s output advances the run by one frame and changes no other output slot. |
| Reverberation.ProcessFrames | src/core/audio_buffer.cpp:114-152 | `out_ch` holds `RunChannel(in_ch, initial lines)`. |
| Reverberation.WriteChannel | src/core/audio_buffer.cpp:154-156 | The write-back loop puts `out_ch[n]` at slot `n * c + ch` and changes no other slot. |
| Reverberation.Placed | src/core/audio_buffer.cpp:154-156 | After the write-back of channel `ch`, slot `k` holds `ys[k / c]` when it is channel `ch` of a written frame, and its old value otherwise. |
| Reverberation.InWholeFrames | src/core/audio_buffer.cpp:154-156 | A slot lies in the whole frames exactly when its frame index is below the frame count. |
| Reverberation.AllChannelsWritten | src/core/audio_buffer.cpp:88-159 | Once every channel is written, the output is `ReverbSpec`. |
| Reverberation.RunFromStep | src/core/audio_buffer.cpp:114-152 | One frame of the loop takes the run one frame further. |
| Reverberation.RunDry | src/core/audio_buffer.cpp:151 | With dry gain 1 and wet gain 0 the frame loop passes its input through unchanged, whatever the lines hold. |
| Reverberation.DryChannel | src/core/audio_buffer.cpp:88-152 | With dry gain 1 and wet gain 0, an output channel equals its input channel. |
| Reverberation.DryWhenMixZero | src/core/audio_buffer.cpp:67-72 | With `mix` clamped to 0, every sample of the whole frames equals the input sample. |
| Reverberation.ChannelIndependence | src/core/audio_buffer.cpp:88-157 | Output channel `ch` depends only on input channel `ch`: inputs that agree on it give outputs that agree on it. |
| Reverberation.QuietTapSum | src/core/audio_buffer.cpp:117-130 | Combs whose store has not yet wrapped round to their cursor all read 0, so the comb sum is 0. |
| Reverberation.CombStaysUnreached | src/core/audio_buffer.cpp:122-127 | A comb step at cursor `n` that does not reach the end of the line stores at slot `n` only and leaves slots `n + 1 ..` zero, with the cursor at `n + 1`. |
| Reverberation.QuietAllPasses | src/core/audio_buffer.cpp:132-146 | A zero signal through zero-filled all-passes comes out as 0 and leaves every all-pass zero-filled. |
| Reverberation.QuietFrame | src/core/audio_buffer.cpp:114-151 | A frame whose combs have not echoed and whose all-passes are zero-filled outputs `dry * x` alone, and the lines stay that way one frame further while every comb is longer. |
| Reverberation.RunKeepsDone | src/core/audio_buffer.cpp:114-151 | Each frame writes only its own output sample: samples already produced are never changed by later frames. |
| Reverberation.QuietStep | src/core/audio_buffer.cpp:114-151 | One frame of a run from lines that have not echoed produces the dry sample and continues from lines quiet one frame further, with unchanged comb lengths. |
| Reverberation.QuietNext | src/core/audio_buffer.cpp:114-151 | The next output of a run from lines that have not echoed is the dry part of its input sample. |
| Reverberation.QuietRun | src/core/audio_buffer.cpp:114-151 | Every frame earlier than the shortest comb length, counting from silent lines, outputs the dry part of its input alone. |
| Reverberation.FreshBankQuiet | src/core/audio_buffer.cpp:94-112 | The lines each channel starts from have not echoed: combs zero-filled with the cursor at 0, all-passes zero-filled, and each comb as long as its delay. |
| Reverberation.QuietChannel | src/core/audio_buffer.cpp:88-152 | Output channel `ch`, frame `m` earlier than every comb length, equals the dry part of input frame `m` of channel `ch`. |
| Reverberation.QuietSlot | src/core/audio_buffer.cpp:150-155 | Output slot `k`, whose frame is earlier than every comb length, equals the dry part of input slot `k`. |
| Reverberation.DryBeforeFirstEcho | src/core/audio_buffer.cpp:88-157 | Until the shortest comb delay (29.7 ms of frames) has elapsed the reverb adds nothing: output sample `k` is `dry * input[k]`, the wet path being exactly 0. |
| Reverberation.RunSnoc | src/core/audio_buffer.cpp:114-152 | One more input frame continues the run from the lines and outputs the shorter run left. |
| Reverberation.RunCombsSnoc | src/core/audio_buffer.cpp:117-130 | One more input frame steps every comb of the run with that frame's sample, as the comb loop does. |
| Reverberation.CombsAfter | src/core/audio_buffer.cpp:117-130 | After `n` frames every comb of a channel is its own line run over the channel's first `n` samples: the frame loop steps each comb independently of the other lines. |
| Reverberation.CombInReverb | src/core/audio_buffer.cpp:117-130 | What comb `i` adds to `comb_sum` at frame `n` is 0 before its delay has elapsed and then `x[n - L] + feedback * (1 - damp) * y[n - L]`. |

## Left out

- Floating point is not modelled. Samples, gains, `n / speed_factor` and `ms * 0.001f * sr` are exact reals, so float rounding, NaN and infinities are not captured.
- Integer widths are not modelled. `in_frames * channels` and the other `size_t` products cannot wrap, and `static_cast<int>` of a huge delay cannot overflow.
- Counts and positions are unbounded naturals.
- The header's declarations `Slow` and `Reverb` (src/core/audio_buffer.hpp:9-10) have no definitions. The model follows the `.cpp` definitions `change_speed` and `reverb`.
- `ReverbParams` is not declared in any file of the core. It is modelled as the record `{mix, roomSize, damp}` its uses imply.
- The delay length is the truncated `ms * 0.001 * sr`: `static_cast<int>` truncates, and the length is not rounded.
- An effect chain from reverb to time-stretch is not modelled. The application code only logs and never composes the two effects.
- The FFmpeg encoder and decoder, the Qt user interface and logging are not part of this model. They are foreign calls or I/O.
- The scratch vectors `in_ch` and `out_ch` are allocated once in `reverb` and reused across channels, and the model does the same. Whether a vector is reused or reallocated is not part of any contract.
- The three products `y * feedback * (1 - damp)`, `buf_y * allpass_gain` and `dry * x + wet * ap` are named functions (`Damped`, `Scaled`, `Blend`), shared by the methods and the specification.
