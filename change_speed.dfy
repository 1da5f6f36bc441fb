/** `change_speed`: the linear-interpolation time-stretch resampler.
    A speed factor above 1 stretches the signal (slower, lower pitch),
    below 1 compresses it (faster, higher pitch). */
module TimeStretch {
  import opened Buffers

  /** True when `change_speed` refuses the input and returns an empty buffer. */
  predicate Refused(b: AudioBuffer, speed: real) {
    speed <= 0.0 || b.channels <= 0 || |b.samples| == 0
  }

  /** Output length in frames: the truncated product of the input frame
      count and the speed factor. */
  function OutFrames(inFrames: nat, speed: real): (frames: nat)
    requires speed > 0.0
    ensures frames as real <= inFrames as real * speed < frames as real + 1.0
  {
    MulNonneg(inFrames as real, speed);
    TruncBounds(inFrames as real * speed);
    Trunc(inFrames as real * speed)
  }

  /** Where an output frame reads the input: the two neighbouring frames
      and the interpolation weight of the second. */
  datatype ReadPos = ReadPos(i0: nat, i1: nat, frac: real)

  /** The read position for the fractional input position `inPos`
      (`n / speed` for output frame `n`): truncate it, and hold the last
      frame once the position reaches it. */
  function ReadPosition(inPos: real, inFrames: nat): (p: ReadPos)
    requires inPos >= 0.0 && inFrames > 0
    ensures p.i0 < inFrames && p.i1 < inFrames
    ensures 0.0 <= p.frac < 1.0
    // Before the last frame: interpolate between a frame and its successor,
    // at exactly the position asked for.
    ensures inPos < (inFrames - 1) as real ==>
              p.i1 == p.i0 + 1 && p.i0 as real + p.frac == inPos
    // At or past the last frame: hold it.
    ensures inPos >= (inFrames - 1) as real ==>
              p.i0 == p.i1 == inFrames - 1 && p.frac == 0.0
  {
    var i0 := Trunc(inPos);
    var frac := inPos - i0 as real;
    var clamped := i0 >= inFrames - 1;
    var i0 := if clamped then inFrames - 1 else i0;
    var frac := if clamped then 0.0 else frac;
    var i1 := if i0 + 1 < inFrames then i0 + 1 else i0;
    ReadPos(i0, i1, frac)
  }

  /** Linear interpolation from `s0` (weight 0) to `s1` (weight 1). */
  function Lerp(s0: real, s1: real, frac: real): (v: real)
    ensures frac == 0.0 ==> v == s0
    ensures frac == 1.0 ==> v == s1
  {
    s0 + (s1 - s0) * frac
  }

  /** Channel `ch` of the output frame at input position `inPos`,
      interpolated from `samples`, which holds at least `inFrames` whole
      frames of `c` channels. */
  function StretchedSample(samples: seq<real>, c: nat, inFrames: nat, inPos: real, ch: nat): real
    requires inPos >= 0.0 && inFrames > 0 && ch < c && inFrames * c <= |samples|
  {
    var p := ReadPosition(inPos, inFrames);
    SlotInBounds(p.i0, ch, c, inFrames);
    SlotInBounds(p.i1, ch, c, inFrames);
    Lerp(samples[p.i0 * c + ch], samples[p.i1 * c + ch], p.frac)
  }

  /** Output slot `k`: channel `k % c` of output frame `k / c`, which reads
      the input at position `(k / c) / speed`. */
  function StretchedAt(samples: seq<real>, c: nat, inFrames: nat, speed: real, k: nat): real
    requires speed > 0.0 && inFrames > 0 && c > 0 && inFrames * c <= |samples|
  {
    SlotOf(k, c);
    StretchedSample(samples, c, inFrames, (k / c) as real / speed, k % c)
  }

  /** What `change_speed` returns, as a value. */
  function ChangeSpeedSpec(b: AudioBuffer, speed: real): (r: AudioBuffer)
    ensures r.sampleRate == b.sampleRate && r.channels == b.channels
    ensures Refused(b, speed) ==> r.samples == []
    ensures !Refused(b, speed) ==>
              |r.samples| == OutFrames(FrameCount(|b.samples|, b.channels), speed) * b.channels
  {
    if Refused(b, speed) then EmptyLike(b)
    else
      var c := b.channels;
      var inFrames := FrameCount(|b.samples|, c);
      var outFrames := OutFrames(inFrames, speed);
      assert inFrames == 0 ==> outFrames == 0;
      AudioBuffer(b.sampleRate, c,
        seq(outFrames * c, k requires 0 <= k < outFrames * c =>
          StretchedAt(b.samples, c, inFrames, speed, k)))
  }

  /** The source's nested loops: for each output frame compute the read
      position, clamp it, then interpolate every channel into a fresh
      buffer of `OutFrames * channels` samples. */
  method ChangeSpeed(b: AudioBuffer, speed: real) returns (r: AudioBuffer)
    ensures r == ChangeSpeedSpec(b, speed)
  {
    if speed <= 0.0 || b.channels <= 0 || |b.samples| == 0 {
      return EmptyLike(b);
    }
    var c: nat := b.channels;
    var inFrames := |b.samples| / c;
    var outFrames := Trunc(inFrames as real * speed);
    assert inFrames == FrameCount(|b.samples|, c);
    assert outFrames == OutFrames(inFrames, speed);
    assert inFrames == 0 ==> outFrames == 0;
    var out := new real[outFrames * c];
    var n := 0;
    while n < outFrames
      invariant 0 <= n <= outFrames
      invariant forall k :: 0 <= k < n * c ==> out[k] == StretchedAt(b.samples, c, inFrames, speed, k)
    {
      MulLeq(n + 1, outFrames, c);
      StretchFrame(out, b.samples, c, inFrames, speed, n);
      n := n + 1;
    }
    AllFramesStretched(b, speed, out[..]);
    r := AudioBuffer(b.sampleRate, b.channels, out[..]);
  }

  /** Every output frame written is the whole stretched signal. */
  lemma AllFramesStretched(b: AudioBuffer, speed: real, outs: seq<real>)
    requires !Refused(b, speed)
    requires |outs| == OutFrames(FrameCount(|b.samples|, b.channels), speed) * b.channels
    requires forall k :: 0 <= k < |outs| ==>
               FrameCount(|b.samples|, b.channels) > 0 &&
               outs[k] == StretchedAt(b.samples, b.channels, FrameCount(|b.samples|, b.channels), speed, k)
    ensures outs == ChangeSpeedSpec(b, speed).samples
  {
  }

  /** The read-position computation at the head of the outer loop:
      truncate, clamp to the last frame, pick the successor. */
  method LocateFrame(inPos: real, inFrames: nat) returns (i0: nat, i1: nat, frac: real)
    requires inPos >= 0.0 && inFrames > 0
    ensures ReadPos(i0, i1, frac) == ReadPosition(inPos, inFrames)
  {
    i0 := Trunc(inPos);
    frac := inPos - i0 as real;
    if i0 >= inFrames - 1 {
      i0 := inFrames - 1;
      frac := 0.0;
    }
    i1 := if i0 + 1 < inFrames then i0 + 1 else i0;
  }

  /** One iteration of the outer loop: output frame `n` into `out`. */
  method StretchFrame(out: array<real>, samples: seq<real>, c: nat, inFrames: nat, speed: real, n: nat)
    requires speed > 0.0 && inFrames > 0 && c > 0 && inFrames * c <= |samples|
    requires (n + 1) * c <= out.Length
    modifies out
    ensures forall k :: 0 <= k < out.Length && !(n * c <= k < (n + 1) * c) ==> out[k] == old(out[k])
    ensures forall k :: n * c <= k < (n + 1) * c ==> out[k] == StretchedAt(samples, c, inFrames, speed, k)
  {
    var i0, i1, frac := LocateFrame(n as real / speed, inFrames);
    SlotInBounds(i0, c - 1, c, inFrames);
    SlotInBounds(i1, c - 1, c, inFrames);
    assert (n + 1) * c == n * c + c;
    InterpolateFrame(out, samples, c, n * c, i0 * c, i1 * c, frac);
    forall k | n * c <= k < n * c + c
      ensures out[k] == StretchedAt(samples, c, inFrames, speed, k)
    {
      FrameSlot(samples, c, inFrames, speed, n, k - n * c, ReadPos(i0, i1, frac));
    }
  }

  /** Slot `n * c + ch` of the specified output is the interpolation at
      read position `p` of output frame `n`. */
  lemma FrameSlot(samples: seq<real>, c: nat, inFrames: nat, speed: real, n: nat, ch: nat, p: ReadPos)
    requires speed > 0.0 && inFrames > 0 && ch < c && inFrames * c <= |samples|
    requires p == ReadPosition(n as real / speed, inFrames)
    ensures p.i0 * c + ch < |samples| && p.i1 * c + ch < |samples|
    ensures StretchedAt(samples, c, inFrames, speed, n * c + ch)
            == Lerp(samples[p.i0 * c + ch], samples[p.i1 * c + ch], p.frac)
  {
    SlotDecompose(n, ch, c);
    SlotInBounds(p.i0, ch, c, inFrames);
    SlotInBounds(p.i1, ch, c, inFrames);
  }

  /** The inner loop: every channel of the output frame starting at `w`,
      interpolated between the input frames starting at `r0` and `r1`. */
  method InterpolateFrame(out: array<real>, samples: seq<real>, c: nat, w: nat, r0: nat, r1: nat, frac: real)
    requires r0 + c <= |samples| && r1 + c <= |samples| && w + c <= out.Length
    modifies out
    ensures forall k :: 0 <= k < out.Length && !(w <= k < w + c) ==> out[k] == old(out[k])
    ensures forall k :: w <= k < w + c ==>
              out[k] == Lerp(samples[r0 + (k - w)], samples[r1 + (k - w)], frac)
  {
    var ch := 0;
    while ch < c
      invariant 0 <= ch <= c
      invariant forall k :: 0 <= k < out.Length && !(w <= k < w + ch) ==> out[k] == old(out[k])
      invariant forall k :: w <= k < w + ch ==>
                  out[k] == Lerp(samples[r0 + (k - w)], samples[r1 + (k - w)], frac)
    {
      var s0 := samples[r0 + ch];
      var s1 := samples[r1 + ch];
      var s := s0 + (s1 - s0) * frac;
      out[w + ch] := s;
      ch := ch + 1;
    }
  }

  // ---------------------------------------------------------------------
  // Properties of the resampler

  /** With fewer samples than channels there is no whole input frame, and
      no output frame is produced, so the clamp to `inFrames - 1` is never
      evaluated. */
  lemma NoFramesNoOutput(b: AudioBuffer, speed: real)
    requires !Refused(b, speed) && |b.samples| < b.channels
    ensures ChangeSpeedSpec(b, speed).samples == []
  {
    assert FrameCount(|b.samples|, b.channels) == 0;
  }

  /** Both read indices for channel `ch` at any position lie inside the input. */
  lemma ReadsInBounds(inPos: real, ch: nat, c: nat, inFrames: nat, len: nat)
    requires inPos >= 0.0 && inFrames > 0 && ch < c && inFrames * c <= len
    ensures ReadPosition(inPos, inFrames).i0 * c + ch < len
    ensures ReadPosition(inPos, inFrames).i1 * c + ch < len
  {
    var p := ReadPosition(inPos, inFrames);
    SlotInBounds(p.i0, ch, c, inFrames);
    SlotInBounds(p.i1, ch, c, inFrames);
  }

  /** Output frames whose position falls at or past the last input frame
      repeat that frame. */
  lemma HoldsLastFrame(b: AudioBuffer, speed: real, n: nat, ch: nat)
    requires !Refused(b, speed) && ch < b.channels
    requires n < OutFrames(FrameCount(|b.samples|, b.channels), speed)
    requires n as real / speed >= (FrameCount(|b.samples|, b.channels) - 1) as real
    ensures var c := b.channels;
            var last := FrameCount(|b.samples|, c) - 1;
            0 <= last * c + ch < |b.samples| && n * c + ch < |ChangeSpeedSpec(b, speed).samples| &&
            ChangeSpeedSpec(b, speed).samples[n * c + ch] == b.samples[last * c + ch]
  {
    var c := b.channels;
    var inFrames := FrameCount(|b.samples|, c);
    assert inFrames > 0;
    SlotInBounds(n, ch, c, OutFrames(inFrames, speed));
    var p := ReadPosition(n as real / speed, inFrames);
    FrameSlot(b.samples, c, inFrames, speed, n, ch, p);
  }

  /** Each output sample lies between the two input samples it interpolates. */
  lemma LerpBetween(s0: real, s1: real, frac: real)
    requires 0.0 <= frac <= 1.0
    ensures s0 <= s1 ==> s0 <= Lerp(s0, s1, frac) <= s1
    ensures s1 <= s0 ==> s1 <= Lerp(s0, s1, frac) <= s0
  {
    var d := s1 - s0;
    assert Lerp(s0, s1, frac) == s0 + d * frac;
    assert s1 - Lerp(s0, s1, frac) == d * (1.0 - frac);
    if s0 <= s1 {
      MulNonneg(d, frac);
      MulNonneg(d, 1.0 - frac);
    } else {
      MulNonneg(-d, frac);
      MulNonneg(-d, 1.0 - frac);
    }
  }

  /** Resampling never leaves the input's amplitude range: if every input
      sample lies in [lo, hi], so does every output sample. */
  lemma StaysInRange(b: AudioBuffer, speed: real, lo: real, hi: real)
    requires forall k :: 0 <= k < |b.samples| ==> lo <= b.samples[k] <= hi
    ensures forall k :: 0 <= k < |ChangeSpeedSpec(b, speed).samples| ==>
              lo <= ChangeSpeedSpec(b, speed).samples[k] <= hi
  {
    if !Refused(b, speed) {
      var c := b.channels;
      var inFrames := FrameCount(|b.samples|, c);
      var out := ChangeSpeedSpec(b, speed).samples;
      forall k | 0 <= k < |out| ensures lo <= out[k] <= hi {
        assert inFrames > 0;
        assert out[k] == StretchedAt(b.samples, c, inFrames, speed, k);
        SlotInRange(b.samples, c, inFrames, speed, k, lo, hi);
      }
    }
  }

  /** One output slot of `StaysInRange`. */
  lemma SlotInRange(samples: seq<real>, c: nat, inFrames: nat, speed: real, k: nat, lo: real, hi: real)
    requires speed > 0.0 && inFrames > 0 && c > 0 && inFrames * c <= |samples|
    requires forall j :: 0 <= j < |samples| ==> lo <= samples[j] <= hi
    ensures lo <= StretchedAt(samples, c, inFrames, speed, k) <= hi
  {
    SlotOf(k, c);
    var p := ReadPosition((k / c) as real / speed, inFrames);
    ReadsInBounds((k / c) as real / speed, k % c, c, inFrames, |samples|);
    LerpBetween(samples[p.i0 * c + k % c], samples[p.i1 * c + k % c], p.frac);
  }

  /** At speed 1 the resampler is the identity on whole frames: every
      output frame is the input frame at the same index (a trailing partial
      frame is dropped). */
  lemma UnitSpeedIsIdentity(b: AudioBuffer)
    requires !Refused(b, 1.0)
    ensures ChangeSpeedSpec(b, 1.0).samples ==
            b.samples[..FrameCount(|b.samples|, b.channels) * b.channels]
  {
    var c := b.channels;
    var inFrames := FrameCount(|b.samples|, c);
    var out := ChangeSpeedSpec(b, 1.0).samples;
    assert OutFrames(inFrames, 1.0) == inFrames;
    forall k | 0 <= k < |out| ensures out[k] == b.samples[k] {
      SlotFrame(k, c, inFrames);
      var n, ch := k / c, k % c;
      var p := ReadPosition(n as real / 1.0, inFrames);
      assert p.i0 == n && p.frac == 0.0;
      FrameSlot(b.samples, c, inFrames, 1.0, n, ch, p);
      assert out[k] == StretchedAt(b.samples, c, inFrames, 1.0, n * c + ch);
    }
  }
}
