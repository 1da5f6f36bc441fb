/** `reverb`: a Schroeder reverb. Every channel runs on its own through
    four feedback comb filters in parallel, whose taps are summed, then
    through two all-pass filters in series; the result is blended with the
    dry input. */
module Reverberation {
  import opened Buffers
  import opened DelayLines

  /** Comb delays in milliseconds. */
  const CombDelaysMs: seq<real> := [29.7, 37.1, 41.1, 43.7]
  /** All-pass delays in milliseconds. */
  const AllPassDelaysMs: seq<real> := [5.0, 1.7]
  /** Comb feedback at room size 0, and what a room size of 1 adds to it. */
  const BaseFeedback: real := 0.75
  const RoomFeedback: real := 0.2
  const AllPassGain: real := 0.5

  // ---------------------------------------------------------------------
  // Parameters

  /** `std::clamp(v, 0, 1)`. */
  function Clamp01(v: real): (r: real)
    ensures 0.0 <= r <= 1.0
    ensures 0.0 <= v <= 1.0 ==> r == v
    ensures v < 0.0 ==> r == 0.0
    ensures v > 1.0 ==> r == 1.0
  {
    if v < 0.0 then 0.0 else if 1.0 < v then 1.0 else v
  }

  /** The gains one run of the reverb uses. */
  datatype Settings = Settings(dry: real, wet: real, feedback: real, damp: real)

  /** The knobs clamped to [0, 1]; the wet gain is the mix and the dry gain
      its complement; the comb feedback grows with the room size. */
  function SettingsOf(p: ReverbParams): (s: Settings)
    ensures s.wet == Clamp01(p.mix) && s.dry + s.wet == 1.0
    ensures 0.0 <= s.dry <= 1.0 && 0.0 <= s.wet <= 1.0
    ensures BaseFeedback <= s.feedback <= BaseFeedback + RoomFeedback
    ensures p.roomSize <= 0.0 ==> s.feedback == BaseFeedback
    ensures p.roomSize >= 1.0 ==> s.feedback == BaseFeedback + RoomFeedback
    ensures s.damp == Clamp01(p.damp)
  {
    var mix := Clamp01(p.mix);
    var roomSize := Clamp01(p.roomSize);
    var damp := Clamp01(p.damp);
    Settings(1.0 - mix, mix, BaseFeedback + roomSize * RoomFeedback, damp)
  }

  /** The gain of a comb's feedback loop stays in [0, 0.95], below 1, so
      every comb decays. */
  lemma CombLoopStable(p: ReverbParams)
    ensures var s := SettingsOf(p);
            0.0 <= Damped(1.0, s.feedback, s.damp) <= BaseFeedback + RoomFeedback
  {
    var s := SettingsOf(p);
    var keep := 1.0 - s.damp;
    assert 0.0 <= keep <= 1.0;
    assert s.feedback * keep == s.feedback - s.feedback * s.damp;
    MulNonneg(s.feedback, s.damp);
    MulNonneg(s.feedback, keep);
  }

  /** A delay in samples before truncation. */
  function DelaySamples(ms: real, sr: int): (v: real)
    requires ms > 0.0 && sr > 0
    ensures v > 0.0
  {
    MulNonneg(ms * 0.001, sr as real);
    ms * 0.001 * sr as real
  }

  /** A delay line's length: the delay in samples, truncated, and at least 1. */
  function DelayLength(ms: real, sr: int): (len: nat)
    requires ms > 0.0 && sr > 0
    ensures len >= 1
    ensures len == 1 || len as real <= DelaySamples(ms, sr)
    ensures DelaySamples(ms, sr) < len as real + 1.0
  {
    var v := DelaySamples(ms, sr);
    TruncBounds(v);
    var n := Trunc(v);
    if n < 1 then 1 else n
  }

  // ---------------------------------------------------------------------
  // The filter network, as values

  predicate AllWellFormed(lines: seq<LineState>) {
    forall i :: 0 <= i < |lines| ==> WellFormed(lines[i])
  }

  /** The zero-filled lines the reverb creates, one per delay. */
  function FreshLines(delaysMs: seq<real>, sr: int): (lines: seq<LineState>)
    requires sr > 0 && forall i :: 0 <= i < |delaysMs| ==> delaysMs[i] > 0.0
    ensures |lines| == |delaysMs| && AllWellFormed(lines)
    ensures forall i :: 0 <= i < |lines| ==> lines[i] == Silent(DelayLength(delaysMs[i], sr))
  {
    seq(|delaysMs|, i requires 0 <= i < |delaysMs| => Silent(DelayLength(delaysMs[i], sr)))
  }

  /** The sum of the lines' taps, accumulated from the first line on. */
  function TapSum(lines: seq<LineState>): real
    requires AllWellFormed(lines)
    decreases |lines|
  {
    if lines == [] then 0.0
    else TapSum(lines[..|lines| - 1]) + Tap(lines[|lines| - 1])
  }

  /** Every comb stepped with the same input sample. */
  function CombsNext(lines: seq<LineState>, x: real, feedback: real, damp: real): (next: seq<LineState>)
    requires AllWellFormed(lines)
    ensures |next| == |lines| && AllWellFormed(next)
    ensures forall i :: 0 <= i < |lines| ==> next[i] == CombNext(lines[i], x, feedback, damp)
    decreases |lines|
  {
    if lines == [] then []
    else CombsNext(lines[..|lines| - 1], x, feedback, damp) + [CombNext(lines[|lines| - 1], x, feedback, damp)]
  }

  lemma EveryCombStepped(lines: seq<LineState>, next: seq<LineState>, x: real, feedback: real, damp: real)
    requires AllWellFormed(lines) && |next| == |lines|
    requires forall j :: 0 <= j < |lines| ==> next[j] == CombNext(lines[j], x, feedback, damp)
    ensures next == CombsNext(lines, x, feedback, damp)
  {
  }

  lemma TapSumStep(lines: seq<LineState>, i: nat)
    requires AllWellFormed(lines) && i < |lines|
    ensures TapSum(lines[..i + 1]) == TapSum(lines[..i]) + Tap(lines[i])
  {
    assert lines[..i + 1][..i] == lines[..i];
  }

  /** A value carried along a bank of lines, and the lines it leaves. */
  datatype Pass = Pass(out: real, lines: seq<LineState>)

  /** The all-pass loop from line `i` on, as the source runs it: each
      all-pass's output is the next one's input. */
  function AllPassPass(lines: seq<LineState>, i: nat, ap: real): (r: Pass)
    requires AllWellFormed(lines) && i <= |lines|
    ensures |r.lines| == |lines| && AllWellFormed(r.lines)
    decreases |lines| - i
  {
    if i == |lines| then Pass(ap, lines)
    else AllPassPass(lines[i := AllPassNext(lines[i], ap, AllPassGain)], i + 1, AllPassOut(lines[i], ap))
  }

  /** The delay lines of one channel. */
  datatype Bank = Bank(combs: seq<LineState>, allpasses: seq<LineState>)

  predicate BankOk(bank: Bank) {
    AllWellFormed(bank.combs) && AllWellFormed(bank.allpasses)
  }

  /** The lines as the reverb creates them for every channel. */
  function FreshBank(sr: int): (bank: Bank)
    requires sr > 0
    ensures BankOk(bank)
    ensures |bank.combs| == |CombDelaysMs| && |bank.allpasses| == |AllPassDelaysMs|
    ensures forall i :: 0 <= i < |CombDelaysMs| ==> bank.combs[i] == Silent(DelayLength(CombDelaysMs[i], sr))
    ensures forall i :: 0 <= i < |AllPassDelaysMs| ==> bank.allpasses[i] == Silent(DelayLength(AllPassDelaysMs[i], sr))
  {
    Bank(FreshLines(CombDelaysMs, sr), FreshLines(AllPassDelaysMs, sr))
  }

  /** The blend of the dry input and the wet signal. */
  function Blend(s: Settings, dry: real, wet: real): real {
    s.dry * dry + s.wet * wet
  }

  /** The lines after one frame and the frame's output sample. */
  datatype Step = Step(bank: Bank, out: real)

  /** One frame of one channel: the combs read the input, their tap sum
      runs through the all-pass chain, and the chain's output is the wet
      signal. */
  function FrameStep(bank: Bank, x: real, s: Settings): (st: Step)
    requires BankOk(bank)
    ensures BankOk(st.bank)
  {
    var chain := AllPassPass(bank.allpasses, 0, TapSum(bank.combs));
    Step(Bank(CombsNext(bank.combs, x, s.feedback, s.damp), chain.lines), Blend(s, x, chain.out))
  }

  /** The lines after a run and the output samples, one per input sample. */
  datatype Run = Run(bank: Bank, outs: seq<real>)

  /** One channel's frames from frame `n` on, in order, their outputs
      appended to `done`. */
  function RunFrom(xs: seq<real>, n: nat, bank: Bank, s: Settings, done: seq<real>): (r: Run)
    requires BankOk(bank) && n <= |xs|
    ensures BankOk(r.bank) && |r.outs| == |done| + |xs| - n
    decreases |xs| - n
  {
    if n == |xs| then Run(bank, done)
    else
      var st := FrameStep(bank, xs[n], s);
      RunFrom(xs, n + 1, st.bank, s, done + [st.out])
  }

  /** One channel's frames, in order, from the given lines. */
  function RunChannel(xs: seq<real>, bank: Bank, s: Settings): (r: Run)
    requires BankOk(bank)
    ensures BankOk(r.bank) && |r.outs| == |xs|
  {
    RunFrom(xs, 0, bank, s, [])
  }

  lemma AllPassPassStep(lines: seq<LineState>, i: nat, ap: real)
    requires AllWellFormed(lines) && i < |lines|
    ensures AllPassPass(lines, i, ap)
         == AllPassPass(lines[i := AllPassNext(lines[i], ap, AllPassGain)], i + 1, AllPassOut(lines[i], ap))
  {
  }

  lemma RunFromStep(xs: seq<real>, n: nat, bank: Bank, s: Settings, done: seq<real>)
    requires BankOk(bank) && n < |xs|
    ensures var st := FrameStep(bank, xs[n], s);
            RunFrom(xs, n, bank, s, done) == RunFrom(xs, n + 1, st.bank, s, done + [st.out])
  {
  }

  // ---------------------------------------------------------------------
  // The whole buffer

  /** True when `reverb` refuses the input and returns an empty buffer. */
  predicate Refused(b: AudioBuffer) {
    b.sampleRate <= 0 || b.channels <= 0 || |b.samples| == 0
  }

  /** Channel `ch` of the first `frames` frames. */
  function Deinterleave(samples: seq<real>, c: nat, frames: nat, ch: nat): (xs: seq<real>)
    requires ch < c && frames * c <= |samples|
    ensures |xs| == frames
  {
    if frames == 0 then []
    else
      SlotInBounds(frames - 1, ch, c, frames);
      Deinterleave(samples, c, frames - 1, ch) + [samples[(frames - 1) * c + ch]]
  }

  /** Slot `k` of whole frames is frame `k / c` of channel `k % c`. */
  lemma DeinterleaveSlot(samples: seq<real>, c: nat, frames: nat, k: nat)
    requires c > 0 && frames * c <= |samples| && k < frames * c
    ensures k / c < frames && k % c < c
    ensures Deinterleave(samples, c, frames, k % c)[k / c] == samples[k]
  {
    SlotFrame(k, c, frames);
    DeinterleaveAt(samples, c, frames, k % c, k / c);
  }

  /** One more frame of channel `ch` appends slot `n * c + ch`. */
  lemma DeinterleaveSnoc(samples: seq<real>, c: nat, n: nat, ch: nat)
    requires ch < c && (n + 1) * c <= |samples|
    ensures n * c + ch < |samples|
    ensures Deinterleave(samples, c, n + 1, ch) == Deinterleave(samples, c, n, ch) + [samples[n * c + ch]]
  {
    SlotInBounds(n, ch, c, n + 1);
  }

  /** Frame `n` of channel `ch` is slot `n * c + ch` of the interleaved samples. */
  lemma {:induction false} DeinterleaveAt(samples: seq<real>, c: nat, frames: nat, ch: nat, n: nat)
    requires ch < c && frames * c <= |samples| && n < frames
    ensures n * c + ch < |samples|
    ensures Deinterleave(samples, c, frames, ch)[n] == samples[n * c + ch]
    decreases frames
  {
    SlotInBounds(n, ch, c, frames);
    if n < frames - 1 {
      SlotInBounds(frames - 1, ch, c, frames);
      DeinterleaveAt(samples, c, frames - 1, ch, n);
    }
  }

  /** Output channel `ch`: input channel `ch` run through the lines `bank`
      (the reverb starts every channel from `FreshBank`). */
  function ChannelOut(b: AudioBuffer, s: Settings, bank: Bank, ch: nat): (ys: seq<real>)
    requires !Refused(b) && ch < b.channels && BankOk(bank)
    ensures |ys| == FrameCount(|b.samples|, b.channels)
  {
    var c := b.channels;
    var frames := FrameCount(|b.samples|, c);
    RunChannel(Deinterleave(b.samples, c, frames, ch), bank, s).outs
  }

  /** Output slot `k`: channel `k % c` of frame `k / c`, or 0 in a partial
      last frame. */
  function ReverbAt(b: AudioBuffer, s: Settings, bank: Bank, k: nat): real
    requires !Refused(b) && BankOk(bank)
  {
    var c := b.channels;
    var frames := FrameCount(|b.samples|, c);
    if k < frames * c then
      SlotFrame(k, c, frames);
      ChannelOut(b, s, bank, k % c)[k / c]
    else 0.0
  }

  /** What `reverb` returns, as a value. */
  function ReverbSpec(b: AudioBuffer, p: ReverbParams): (r: AudioBuffer)
    ensures r.sampleRate == b.sampleRate && r.channels == b.channels
    ensures Refused(b) ==> r.samples == []
    ensures !Refused(b) ==> |r.samples| == |b.samples|
    // A partial last frame is left at zero.
    ensures !Refused(b) ==>
              forall k :: FrameCount(|b.samples|, b.channels) * b.channels <= k < |b.samples| ==>
                r.samples[k] == 0.0
  {
    if Refused(b) then EmptyLike(b)
    else
      var s, bank := SettingsOf(p), FreshBank(b.sampleRate);
      AudioBuffer(b.sampleRate, b.channels, seq(|b.samples|, k requires 0 <= k => ReverbAt(b, s, bank, k)))
  }

  // ---------------------------------------------------------------------
  // The reverb as the source runs it, on the lines' buffers in place

  /** The inner comb loop: step every comb with `x`, summing their taps. */
  method FeedCombs(combs: LineBank, x: real, feedback: real, damp: real) returns (sum: real)
    requires combs.Valid()
    modifies combs.Repr
    ensures combs.Valid()
    ensures sum == TapSum(old(combs.states))
    ensures combs.states == CombsNext(old(combs.states), x, feedback, damp)
  {
    ghost var before := combs.states;
    ghost var cur := before;
    sum := 0.0;
    for i := 0 to |combs.lines|
      invariant combs.Valid()
      invariant combs.states == cur && |cur| == |before|
      invariant sum == TapSum(before[..i])
      invariant forall j :: 0 <= j < i ==> cur[j] == CombNext(before[j], x, feedback, damp)
      invariant forall j :: i <= j < |cur| ==> cur[j] == before[j]
    {
      TapSumStep(before, i);
      var y := combs.CombAt(i, x, feedback, damp);
      cur := cur[i := CombNext(cur[i], x, feedback, damp)];
      sum := sum + y;
    }
    assert before[..|before|] == before;
    EveryCombStepped(before, cur, x, feedback, damp);
  }

  /** The inner all-pass loop: thread the signal through the all-passes
      in order. */
  method FeedAllPasses(allpasses: LineBank, input: real) returns (ap: real)
    requires allpasses.Valid()
    modifies allpasses.Repr
    ensures allpasses.Valid()
    ensures AllPassPass(old(allpasses.states), 0, input) == Pass(ap, allpasses.states)
  {
    ghost var cur := allpasses.states;
    ghost var want := AllPassPass(cur, 0, input);
    ap := input;
    for i := 0 to |allpasses.lines|
      invariant allpasses.Valid()
      invariant allpasses.states == cur && |cur| == |allpasses.lines| && AllWellFormed(cur)
      invariant AllPassPass(cur, i, ap) == want
    {
      AllPassPassStep(cur, i, ap);
      cur := cur[i := AllPassNext(cur[i], ap, AllPassGain)];
      ap := allpasses.AllPassAt(i, ap, AllPassGain);
    }
  }

  /** Fresh, zero-filled lines, one per delay, each `max(ms * 0.001 * sr, 1)`
      samples long. */
  method NewBank(delaysMs: seq<real>, sr: int) returns (bank: LineBank)
    requires sr > 0 && forall i :: 0 <= i < |delaysMs| ==> delaysMs[i] > 0.0
    ensures bank.Valid() && fresh(bank.Repr)
    ensures bank.states == FreshLines(delaysMs, sr)
  {
    bank := new LineBank(seq(|delaysMs|, i requires 0 <= i < |delaysMs| => DelayLength(delaysMs[i], sr)));
  }

  /** One input sample through the combs and the all-passes: the body of
      the frame loop. */
  method ProcessSample(combs: LineBank, allpasses: LineBank, x: real, s: Settings) returns (y: real)
    requires combs.Valid() && allpasses.Valid() && combs.Repr !! allpasses.Repr
    modifies combs.Repr, allpasses.Repr
    ensures combs.Valid() && allpasses.Valid()
    ensures FrameStep(Bank(old(combs.states), old(allpasses.states)), x, s)
         == Step(Bank(combs.states, allpasses.states), y)
  {
    ghost var st := FrameStep(Bank(combs.states, allpasses.states), x, s);
    var sum := FeedCombs(combs, x, s.feedback, s.damp);
    assert combs.states == st.bank.combs;
    label fed:
    var wet := FeedAllPasses(allpasses, sum);
    BankUnchanged@fed(combs);
    y := Blend(s, x, wet);
  }

  /** Frame `n` of the frame loop: the sample goes through the lines and
      its output is stored, which takes the run one frame further. */
  method StepFrame(outCh: array<real>, n: nat, combs: LineBank, allpasses: LineBank, x: real, s: Settings,
                   ghost xs: seq<real>, ghost done: seq<real>, ghost want: Run)
    requires n < outCh.Length && n < |xs| && x == xs[n] && |done| == n
    requires combs.Valid() && allpasses.Valid() && combs.Repr !! allpasses.Repr
    requires outCh !in combs.Repr && outCh !in allpasses.Repr
    requires BankOk(Bank(combs.states, allpasses.states))
    requires RunFrom(xs, n, Bank(combs.states, allpasses.states), s, done) == want
    modifies outCh, combs.Repr, allpasses.Repr
    ensures combs.Valid() && allpasses.Valid()
    ensures BankOk(Bank(combs.states, allpasses.states))
    ensures RunFrom(xs, n + 1, Bank(combs.states, allpasses.states), s, done + [outCh[n]]) == want
    ensures forall m :: 0 <= m < outCh.Length && m != n ==> outCh[m] == old(outCh[m])
  {
    RunFromStep(xs, n, Bank(combs.states, allpasses.states), s, done);
    var y := ProcessSample(combs, allpasses, x, s);
    label stepped:
    outCh[n] := y;
    BankUnchanged@stepped(combs);
    BankUnchanged@stepped(allpasses);
  }

  /** The frame loop of one channel: every input sample goes through the
      combs and the all-passes, and the blend is stored. */
  method ProcessFrames(inCh: array<real>, outCh: array<real>, combs: LineBank,
                       allpasses: LineBank, s: Settings)
    requires inCh.Length == outCh.Length && inCh != outCh
    requires inCh !in combs.Repr && inCh !in allpasses.Repr
    requires combs.Valid() && allpasses.Valid() && combs.Repr !! allpasses.Repr
    requires outCh !in combs.Repr && outCh !in allpasses.Repr
    modifies outCh, combs.Repr, allpasses.Repr
    ensures outCh[..] == RunChannel(inCh[..], Bank(old(combs.states), old(allpasses.states)), s).outs
  {
    ghost var xs := inCh[..];
    ghost var want := RunChannel(xs, Bank(combs.states, allpasses.states), s);
    ghost var outs := [];
    for n := 0 to outCh.Length
      invariant inCh[..] == xs
      invariant combs.Valid() && allpasses.Valid()
      invariant BankOk(Bank(combs.states, allpasses.states))
      invariant |outs| == n && forall m :: 0 <= m < n ==> outCh[m] == outs[m]
      invariant RunFrom(xs, n, Bank(combs.states, allpasses.states), s, outs) == want
    {
      StepFrame(outCh, n, combs, allpasses, inCh[n], s, xs, outs, want);
      outs := outs + [outCh[n]];
    }
    assert outCh[..] == outs;
  }

  /** The copy of channel `ch` of the first `inCh.Length` frames into the
      per-channel input buffer. */
  method ExtractChannel(samples: seq<real>, c: nat, ch: nat, inCh: array<real>)
    requires ch < c && inCh.Length * c <= |samples|
    modifies inCh
    ensures inCh[..] == Deinterleave(samples, c, inCh.Length, ch)
  {
    for n := 0 to inCh.Length
      invariant n * c <= |samples|
      invariant inCh[..n] == Deinterleave(samples, c, n, ch)
    {
      MulLeq(n + 1, inCh.Length, c);
      DeinterleaveSnoc(samples, c, n, ch);
      inCh[n] := samples[n * c + ch];
      assert inCh[..n + 1] == inCh[..n] + [inCh[n]];
    }
    assert inCh[..] == inCh[..inCh.Length];
  }

  /** Slot `k` after channel `ch` of `prev` is overwritten with `ys`, one
      sample per frame. */
  function Placed(prev: seq<real>, ys: seq<real>, c: nat, ch: nat, k: nat): real
    requires c > 0 && k < |prev|
  {
    if k % c == ch && k / c < |ys| then ys[k / c] else prev[k]
  }

  /** The copy of the per-channel output buffer back into channel `ch` of
      the interleaved output; every other slot keeps its value. */
  method WriteChannel(outCh: array<real>, out: array<real>, c: nat, ch: nat)
    requires ch < c && outCh.Length * c <= out.Length && outCh != out
    modifies out
    ensures forall k :: 0 <= k < out.Length ==> out[k] == Placed(old(out[..]), outCh[..], c, ch, k)
  {
    ghost var prev := out[..];
    for n := 0 to outCh.Length
      invariant forall k :: 0 <= k < out.Length ==> out[k] == Placed(prev, outCh[..n], c, ch, k)
    {
      SlotInBounds(n, ch, c, outCh.Length);
      SlotDecompose(n, ch, c);
      out[n * c + ch] := outCh[n];
      forall k | 0 <= k < out.Length
        ensures out[k] == Placed(prev, outCh[..n + 1], c, ch, k)
      {
        SlotOf(k, c);
      }
    }
    assert outCh[..outCh.Length] == outCh[..];
  }

  /** A slot lies in the whole frames exactly when its frame does. */
  lemma InWholeFrames(k: nat, c: nat, frames: nat)
    requires c > 0
    ensures k < frames * c <==> k / c < frames
  {
    if k / c < frames {
      SlotOf(k, c);
      SlotInBounds(k / c, k % c, c, frames);
    } else if k < frames * c {
      SlotFrame(k, c, frames);
    }
  }

  /** Slot `k` of the output once channels `0 .. chs - 1` are written. */
  function Filled(b: AudioBuffer, s: Settings, bank: Bank, chs: nat, k: nat): real
    requires !Refused(b) && BankOk(bank)
  {
    var c := b.channels;
    SlotOf(k, c);
    if k % c < chs && k / c < FrameCount(|b.samples|, c) then ChannelOut(b, s, bank, k % c)[k / c] else 0.0
  }

  /** The combs and all-passes one channel starts from, zero-filled. */
  method NewChannelLines(sr: int) returns (combs: LineBank, allpasses: LineBank)
    requires sr > 0
    ensures combs.Valid() && allpasses.Valid() && combs.Repr !! allpasses.Repr
    ensures fresh(combs.Repr) && fresh(allpasses.Repr)
    ensures Bank(combs.states, allpasses.states) == FreshBank(sr)
  {
    combs := NewBank(CombDelaysMs, sr);
    allpasses := NewBank(AllPassDelaysMs, sr);
  }

  /** One iteration of the channel loop, given the channel's combs and
      all-passes holding the lines `bank`: deinterleave channel `ch`, run
      it through the lines, and interleave the result back into `out`. */
  method ReverbChannel(b: AudioBuffer, s: Settings, ghost bank: Bank, ch: nat,
                       combs: LineBank, allpasses: LineBank,
                       inCh: array<real>, outCh: array<real>, out: array<real>)
    requires !Refused(b) && ch < b.channels && BankOk(bank)
    requires combs.Valid() && allpasses.Valid() && combs.Repr !! allpasses.Repr
    requires Bank(combs.states, allpasses.states) == bank
    requires inCh.Length == outCh.Length == FrameCount(|b.samples|, b.channels)
    requires out.Length == |b.samples|
    requires inCh != outCh && inCh != out && outCh != out
    requires inCh !in combs.Repr && inCh !in allpasses.Repr
    requires outCh !in combs.Repr && outCh !in allpasses.Repr
    requires out !in combs.Repr && out !in allpasses.Repr
    requires forall k :: 0 <= k < out.Length ==> out[k] == Filled(b, s, bank, ch, k)
    modifies inCh, outCh, out, combs.Repr, allpasses.Repr
    ensures forall k :: 0 <= k < out.Length ==> out[k] == Filled(b, s, bank, ch + 1, k)
  {
    ExtractChannel(b.samples, b.channels, ch, inCh);
    ProcessFrames(inCh, outCh, combs, allpasses, s);
    assert outCh[..] == ChannelOut(b, s, bank, ch);
    ghost var prev := out[..];
    WriteChannel(outCh, out, b.channels, ch);
    forall k | 0 <= k < out.Length
      ensures out[k] == Filled(b, s, bank, ch + 1, k)
    {
      ChannelPlaced(b, s, bank, ch, prev, k);
    }
  }

  /** Writing channel `ch` extends the filled channels by one. */
  lemma ChannelPlaced(b: AudioBuffer, s: Settings, bank: Bank, ch: nat, prev: seq<real>, k: nat)
    requires !Refused(b) && ch < b.channels && BankOk(bank)
    requires k < |prev| && prev[k] == Filled(b, s, bank, ch, k)
    ensures Placed(prev, ChannelOut(b, s, bank, ch), b.channels, ch, k) == Filled(b, s, bank, ch + 1, k)
  {
  }

  /** The interleaved output, once every channel has been written. */
  lemma AllChannelsWritten(b: AudioBuffer, p: ReverbParams, outs: seq<real>)
    requires !Refused(b) && |outs| == |b.samples|
    requires forall k :: 0 <= k < |outs| ==>
               outs[k] == Filled(b, SettingsOf(p), FreshBank(b.sampleRate), b.channels, k)
    ensures outs == ReverbSpec(b, p).samples
  {
    var c := b.channels;
    forall k | 0 <= k < |outs|
      ensures outs[k] == ReverbAt(b, SettingsOf(p), FreshBank(b.sampleRate), k)
    {
      InWholeFrames(k, c, FrameCount(|b.samples|, c));
    }
  }

  /** `reverb`: refuse a buffer without a positive sample rate, a positive
      channel count or samples; otherwise run every channel through its own
      fresh combs and all-passes and interleave the results into a
      zero-filled buffer of the input's length. */
  method Reverb(b: AudioBuffer, p: ReverbParams) returns (r: AudioBuffer)
    ensures r == ReverbSpec(b, p)
  {
    if b.sampleRate <= 0 || b.channels <= 0 || |b.samples| == 0 {
      return EmptyLike(b);
    }
    var c: nat := b.channels;
    var frames := |b.samples| / c;
    assert frames == FrameCount(|b.samples|, c);
    var out := new real[|b.samples|](_ => 0.0);
    var s := SettingsOf(p);
    ghost var bank := FreshBank(b.sampleRate);
    var inCh := new real[frames];
    var outCh := new real[frames];
    for ch := 0 to c
      invariant forall k :: 0 <= k < out.Length ==> out[k] == Filled(b, s, bank, ch, k)
    {
      var combs, allpasses := NewChannelLines(b.sampleRate);
      ReverbChannel(b, s, bank, ch, combs, allpasses, inCh, outCh, out);
    }
    AllChannelsWritten(b, p, out[..]);
    r := AudioBuffer(b.sampleRate, c, out[..]);
  }

  // ---------------------------------------------------------------------
  // Properties of the reverb

  /** With a dry gain of 1 and a wet gain of 0 the frame loop passes its
      input through unchanged, whatever the lines hold. */
  lemma {:induction false} RunDry(xs: seq<real>, n: nat, bank: Bank, s: Settings, done: seq<real>)
    requires BankOk(bank) && n <= |xs| && s.dry == 1.0 && s.wet == 0.0
    ensures RunFrom(xs, n, bank, s, done).outs == done + xs[n..]
    decreases |xs| - n
  {
    if n < |xs| {
      var next := DryStep(xs, n, bank, s, done);
      RunDry(xs, n + 1, next, s, done + [xs[n]]);
      SliceStep(done, xs, n);
    } else {
      assert xs[n..] == [];
    }
  }

  lemma SliceStep(done: seq<real>, xs: seq<real>, n: nat)
    requires n < |xs|
    ensures done + [xs[n]] + xs[n + 1..] == done + xs[n..]
  {
    assert [xs[n]] + xs[n + 1..] == xs[n..];
  }

  /** One frame of a fully dry run: the sample passes through and the
      run goes on from the updated lines. */
  lemma DryStep(xs: seq<real>, n: nat, bank: Bank, s: Settings, done: seq<real>) returns (next: Bank)
    requires BankOk(bank) && n < |xs| && s.dry == 1.0 && s.wet == 0.0
    ensures BankOk(next)
    ensures RunFrom(xs, n, bank, s, done) == RunFrom(xs, n + 1, next, s, done + [xs[n]])
  {
    var st := FrameStep(bank, xs[n], s);
    RunFromStep(xs, n, bank, s, done);
    DryFrame(bank, xs[n], s);
    next := st.bank;
  }

  /** With a dry gain of 1 and a wet gain of 0 a frame's output is its
      input sample. */
  lemma DryFrame(bank: Bank, x: real, s: Settings)
    requires BankOk(bank) && s.dry == 1.0 && s.wet == 0.0
    ensures FrameStep(bank, x, s).out == x
  {
  }

  /** A mix clamped to 0 leaves every sample of the whole frames as it was
      in the input. */
  lemma DryWhenMixZero(b: AudioBuffer, p: ReverbParams)
    requires !Refused(b) && p.mix <= 0.0
    ensures forall k :: 0 <= k < FrameCount(|b.samples|, b.channels) * b.channels ==>
              ReverbSpec(b, p).samples[k] == b.samples[k]
  {
    var c := b.channels;
    var frames := FrameCount(|b.samples|, c);
    forall k | 0 <= k < frames * c
      ensures ReverbSpec(b, p).samples[k] == b.samples[k]
    {
      DrySlot(b, SettingsOf(p), FreshBank(b.sampleRate), k);
    }
  }

  /** One slot of a whole frame with a dry gain of 1 and a wet gain of 0. */
  lemma DrySlot(b: AudioBuffer, s: Settings, bank: Bank, k: nat)
    requires !Refused(b) && BankOk(bank) && s.dry == 1.0 && s.wet == 0.0
    requires k < FrameCount(|b.samples|, b.channels) * b.channels
    ensures ReverbAt(b, s, bank, k) == b.samples[k]
  {
    var c := b.channels;
    var frames := FrameCount(|b.samples|, c);
    SlotFrame(k, c, frames);
    DryChannel(b, s, bank, k % c);
    DeinterleaveSlot(b.samples, c, frames, k);
  }

  /** With a dry gain of 1 and a wet gain of 0 an output channel is its
      input channel. */
  lemma DryChannel(b: AudioBuffer, s: Settings, bank: Bank, ch: nat)
    requires !Refused(b) && BankOk(bank) && s.dry == 1.0 && s.wet == 0.0 && ch < b.channels
    ensures ChannelOut(b, s, bank, ch) == Deinterleave(b.samples, b.channels, FrameCount(|b.samples|, b.channels), ch)
  {
    var xs := Deinterleave(b.samples, b.channels, FrameCount(|b.samples|, b.channels), ch);
    RunDry(xs, 0, bank, s, []);
    assert [] + xs[0..] == xs;
  }

  /** Output channel `ch` depends on input channel `ch` alone: two inputs
      of the same shape that agree on channel `ch` give outputs that agree
      on channel `ch`. */
  lemma ChannelIndependence(b1: AudioBuffer, b2: AudioBuffer, p: ReverbParams, ch: nat)
    requires !Refused(b1) && ch < b1.channels
    requires b2.sampleRate == b1.sampleRate && b2.channels == b1.channels && |b2.samples| == |b1.samples|
    requires forall m :: 0 <= m < |b1.samples| && m % b1.channels == ch ==> b1.samples[m] == b2.samples[m]
    ensures forall k :: 0 <= k < |b1.samples| && k % b1.channels == ch ==>
              ReverbSpec(b1, p).samples[k] == ReverbSpec(b2, p).samples[k]
  {
    var c := b1.channels;
    var frames := FrameCount(|b1.samples|, c);
    forall n | 0 <= n < frames
      ensures Deinterleave(b1.samples, c, frames, ch)[n] == Deinterleave(b2.samples, c, frames, ch)[n]
    {
      DeinterleaveAt(b1.samples, c, frames, ch, n);
      DeinterleaveAt(b2.samples, c, frames, ch, n);
      SlotDecompose(n, ch, c);
    }
    assert Deinterleave(b1.samples, c, frames, ch) == Deinterleave(b2.samples, c, frames, ch);
    var s, bank := SettingsOf(p), FreshBank(b1.sampleRate);
    assert ChannelOut(b1, s, bank, ch) == ChannelOut(b2, s, bank, ch);
  }

  // ---------------------------------------------------------------------
  // Before the first echo

  /** A comb after `n < |buf|` steps from silence: the cursor is at `n`
      and no store has reached slots `n ..` yet. */
  predicate Unreached(l: LineState, n: nat) {
    WellFormed(l) && n < |l.buf| && l.cursor == n &&
    forall j :: n <= j < |l.buf| ==> l.buf[j] == 0.0
  }

  /** A line holding only zeros. */
  predicate Zeroed(l: LineState) {
    WellFormed(l) && forall j :: 0 <= j < |l.buf| ==> l.buf[j] == 0.0
  }

  /** Lines of a channel `n` frames in, before any comb has echoed: every
      comb is unreached at `n` and every all-pass holds only zeros. */
  predicate Quiet(bank: Bank, n: nat) {
    BankOk(bank) &&
    (forall i :: 0 <= i < |bank.combs| ==> Unreached(bank.combs[i], n)) &&
    (forall i :: 0 <= i < |bank.allpasses| ==> Zeroed(bank.allpasses[i]))
  }

  /** Unreached combs all tap 0. */
  lemma {:induction false} QuietTapSum(lines: seq<LineState>, n: nat)
    requires forall i :: 0 <= i < |lines| ==> Unreached(lines[i], n)
    ensures AllWellFormed(lines) && TapSum(lines) == 0.0
    decreases |lines|
  {
    if lines != [] {
      QuietTapSum(lines[..|lines| - 1], n);
    }
  }

  /** A comb step before the store reaches the end of the line leaves the
      comb unreached one step further. */
  lemma CombStaysUnreached(l: LineState, x: real, feedback: real, damp: real, n: nat)
    requires Unreached(l, n) && n + 1 < |l.buf|
    ensures Unreached(CombNext(l, x, feedback, damp), n + 1)
  {
    SlotDecompose(0, n + 1, |l.buf|);
  }

  /** A zero signal through zero-filled all-passes comes out as 0 and
      leaves them zero-filled. */
  lemma {:induction false} QuietAllPasses(lines: seq<LineState>, i: nat)
    requires i <= |lines| && forall j :: 0 <= j < |lines| ==> Zeroed(lines[j])
    ensures AllWellFormed(lines)
    ensures AllPassPass(lines, i, 0.0).out == 0.0
    ensures forall j :: 0 <= j < |lines| ==> Zeroed(AllPassPass(lines, i, 0.0).lines[j])
    decreases |lines| - i
  {
    if i < |lines| {
      var next := lines[i := AllPassNext(lines[i], 0.0, AllPassGain)];
      assert Scaled(Tap(lines[i]), AllPassGain) == 0.0;
      assert Zeroed(next[i]);
      QuietAllPasses(next, i + 1);
      AllPassPassStep(lines, i, 0.0);
    }
  }

  /** A frame of a quiet bank outputs the dry part of its sample alone,
      and the bank is quiet one frame further while every comb is longer. */
  lemma QuietFrame(bank: Bank, x: real, s: Settings, n: nat)
    requires Quiet(bank, n)
    ensures FrameStep(bank, x, s).out == Blend(s, x, 0.0)
    ensures (forall i :: 0 <= i < |bank.combs| ==> n + 1 < |bank.combs[i].buf|) ==>
              Quiet(FrameStep(bank, x, s).bank, n + 1)
  {
    QuietTapSum(bank.combs, n);
    QuietAllPasses(bank.allpasses, 0);
    if forall i :: 0 <= i < |bank.combs| ==> n + 1 < |bank.combs[i].buf| {
      var next := CombsNext(bank.combs, x, s.feedback, s.damp);
      forall i | 0 <= i < |bank.combs|
        ensures Unreached(next[i], n + 1)
      {
        CombStaysUnreached(bank.combs[i], x, s.feedback, s.damp, n);
      }
    }
  }

  /** The outputs already produced stay in place as the run goes on. */
  lemma {:induction false} RunKeepsDone(xs: seq<real>, n: nat, bank: Bank, s: Settings, done: seq<real>, k: nat)
    requires BankOk(bank) && n <= |xs| && k < |done|
    ensures RunFrom(xs, n, bank, s, done).outs[k] == done[k]
    decreases |xs| - n
  {
    if n < |xs| {
      var st := FrameStep(bank, xs[n], s);
      RunFromStep(xs, n, bank, s, done);
      RunKeepsDone(xs, n + 1, st.bank, s, done + [st.out], k);
    }
  }

  /** One frame of a quiet run: the output is the dry part of the sample
      and the run goes on from a bank quiet one frame further, whose combs
      keep their lengths. */
  lemma QuietStep(xs: seq<real>, n: nat, bank: Bank, s: Settings, done: seq<real>) returns (next: Bank)
    requires Quiet(bank, n) && n < |xs|
    requires forall i :: 0 <= i < |bank.combs| ==> n + 1 < |bank.combs[i].buf|
    ensures Quiet(next, n + 1) && |next.combs| == |bank.combs|
    ensures forall i :: 0 <= i < |bank.combs| ==> |next.combs[i].buf| == |bank.combs[i].buf|
    ensures RunFrom(xs, n, bank, s, done) == RunFrom(xs, n + 1, next, s, done + [Blend(s, xs[n], 0.0)])
  {
    var st := FrameStep(bank, xs[n], s);
    RunFromStep(xs, n, bank, s, done);
    QuietFrame(bank, xs[n], s, n);
    next := st.bank;
  }

  /** The next frame of a run from a quiet bank is the dry part of its
      sample. */
  lemma QuietNext(xs: seq<real>, n: nat, bank: Bank, s: Settings, done: seq<real>)
    requires Quiet(bank, n) && |done| == n && n < |xs|
    ensures RunFrom(xs, n, bank, s, done).outs[n] == Blend(s, xs[n], 0.0)
  {
    var st := FrameStep(bank, xs[n], s);
    RunFromStep(xs, n, bank, s, done);
    QuietFrame(bank, xs[n], s, n);
    RunKeepsDone(xs, n + 1, st.bank, s, done + [st.out], n);
  }

  /** Frame `m` of a run from a bank quiet at `n`, while every comb is
      longer than `m`, is the dry part of its sample alone. */
  lemma {:induction false} QuietRun(xs: seq<real>, n: nat, bank: Bank, s: Settings, done: seq<real>, m: nat)
    requires Quiet(bank, n) && |done| == n && n <= m < |xs|
    requires forall i :: 0 <= i < |bank.combs| ==> m < |bank.combs[i].buf|
    ensures RunFrom(xs, n, bank, s, done).outs[m] == Blend(s, xs[m], 0.0)
    decreases m - n
  {
    if n == m {
      QuietNext(xs, n, bank, s, done);
    } else {
      var next := QuietStep(xs, n, bank, s, done);
      QuietRun(xs, n + 1, next, s, done + [Blend(s, xs[n], 0.0)], m);
    }
  }

  /** The lines every channel starts from are quiet at frame 0, and each
      comb is as long as its delay. */
  lemma FreshBankQuiet(sr: int)
    requires sr > 0
    ensures Quiet(FreshBank(sr), 0)
    ensures forall i :: 0 <= i < |CombDelaysMs| ==>
              |FreshBank(sr).combs[i].buf| == DelayLength(CombDelaysMs[i], sr)
  {
  }

  /** Output channel `ch` from a quiet bank: frame `m`, while every comb
      is longer than `m`, is the dry part of input frame `m`. */
  lemma QuietChannel(b: AudioBuffer, s: Settings, bank: Bank, ch: nat, m: nat)
    requires !Refused(b) && ch < b.channels && Quiet(bank, 0)
    requires m < FrameCount(|b.samples|, b.channels)
    requires forall i :: 0 <= i < |bank.combs| ==> m < |bank.combs[i].buf|
    ensures ChannelOut(b, s, bank, ch)[m]
         == Blend(s, Deinterleave(b.samples, b.channels, FrameCount(|b.samples|, b.channels), ch)[m], 0.0)
  {
    var xs := Deinterleave(b.samples, b.channels, FrameCount(|b.samples|, b.channels), ch);
    QuietRun(xs, 0, bank, s, [], m);
  }

  /** Output slot `k` from a quiet bank, while every comb is longer than
      its frame index, is the dry part of input slot `k`. */
  lemma QuietSlot(b: AudioBuffer, s: Settings, bank: Bank, k: nat)
    requires !Refused(b) && Quiet(bank, 0)
    requires k < FrameCount(|b.samples|, b.channels) * b.channels
    requires forall i :: 0 <= i < |bank.combs| ==> k / b.channels < |bank.combs[i].buf|
    ensures ReverbAt(b, s, bank, k) == Blend(s, b.samples[k], 0.0)
  {
    var c := b.channels;
    var frames := FrameCount(|b.samples|, c);
    SlotFrame(k, c, frames);
    QuietChannel(b, s, bank, k % c, k / c);
    DeinterleaveSlot(b.samples, c, frames, k);
  }

  /** Before the shortest comb delay has elapsed nothing has echoed yet:
      output sample `k` of a whole frame is its input sample times the dry
      gain. */
  lemma DryBeforeFirstEcho(b: AudioBuffer, p: ReverbParams, k: nat)
    requires !Refused(b) && k < FrameCount(|b.samples|, b.channels) * b.channels
    requires forall i :: 0 <= i < |CombDelaysMs| ==> k / b.channels < DelayLength(CombDelaysMs[i], b.sampleRate)
    ensures ReverbSpec(b, p).samples[k] == SettingsOf(p).dry * b.samples[k]
  {
    var s, bank := SettingsOf(p), FreshBank(b.sampleRate);
    FreshBankQuiet(b.sampleRate);
    QuietSlot(b, s, bank, k);
  }

  // ---------------------------------------------------------------------
  // The combs inside the reverb

  /** One more input frame: the run goes one frame further from where the
      shorter run stopped. */
  lemma {:induction false} RunSnoc(xs: seq<real>, x: real, n: nat, bank: Bank, s: Settings, done: seq<real>)
    requires BankOk(bank) && n <= |xs|
    ensures var r := RunFrom(xs, n, bank, s, done);
            var st := FrameStep(r.bank, x, s);
            RunFrom(xs + [x], n, bank, s, done) == Run(st.bank, r.outs + [st.out])
    decreases |xs| - n
  {
    RunFromStep(xs + [x], n, bank, s, done);
    if n < |xs| {
      var st := FrameStep(bank, xs[n], s);
      assert (xs + [x])[n] == xs[n];
      RunFromStep(xs, n, bank, s, done);
      RunSnoc(xs, x, n + 1, st.bank, s, done + [st.out]);
    }
  }

  /** One more input frame steps every comb of the run with that sample. */
  lemma RunCombsSnoc(xs: seq<real>, x: real, bank: Bank, s: Settings)
    requires BankOk(bank)
    ensures RunChannel(xs + [x], bank, s).bank.combs
         == CombsNext(RunChannel(xs, bank, s).bank.combs, x, s.feedback, s.damp)
  {
    RunSnoc(xs, x, 0, bank, s, []);
  }

  /** Every comb of a channel, after the channel's first `n` frames, is its
      line after those `n` samples: the frame loop steps each comb as a
      filter of its own, whatever the other lines do. */
  lemma {:induction false} CombsAfter(xs: seq<real>, bank: Bank, s: Settings, n: nat)
    requires BankOk(bank) && n <= |xs|
    ensures var combs := RunChannel(xs[..n], bank, s).bank.combs;
            |combs| == |bank.combs| &&
            forall i :: 0 <= i < |bank.combs| ==>
              combs[i] == LineAfter(bank.combs[i], xs[..n], CombFilter(s.feedback, s.damp))
  {
    if n > 0 {
      var m := n - 1;
      CombsAfter(xs, bank, s, m);
      assert xs[..n] == xs[..m] + [xs[m]];
      RunCombsSnoc(xs[..m], xs[m], bank, s);
      assert xs[..n][..m] == xs[..m];
    }
  }

  /** What comb `i` feeds into the comb sum at frame `n` of a channel is
      tap `n` of that comb run alone over the channel; from a silent comb
      of length `L` that tap is 0 for `n < L` and
      `x[n - L] + feedback * (1 - damp) * y[n - L]` afterwards. */
  lemma CombInReverb(xs: seq<real>, bank: Bank, s: Settings, i: nat, n: nat)
    requires BankOk(bank) && i < |bank.combs| && n < |xs|
    requires bank.combs[i].cursor == 0
    requires forall j :: 0 <= j < |bank.combs[i].buf| ==> bank.combs[i].buf[j] == 0.0
    ensures var combs := RunChannel(xs[..n], bank, s).bank.combs;
            var ys := LineTaps(bank.combs[i], xs, CombFilter(s.feedback, s.damp));
            var L := |bank.combs[i].buf|;
            && i < |combs| && WellFormed(combs[i])
            && Tap(combs[i]) == ys[n]
            && ys[n] == if n >= L then xs[n - L] + Damped(ys[n - L], s.feedback, s.damp) else 0.0
  {
    CombsAfter(xs, bank, s, n);
    CombEcho(bank.combs[i], xs, s.feedback, s.damp, n);
  }
}
