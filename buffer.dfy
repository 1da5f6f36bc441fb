/** The interleaved multi-channel sample buffer shared by both effects, the
    reverb parameters, and the index arithmetic of the interleaved layout
    (sample `n * channels + ch` is channel `ch` of frame `n`). */
module Buffers {

  /** An interleaved buffer: `sampleRate` and `channels` are the source's
      plain `int`s, so they may be zero or negative; samples are modelled
      as reals. */
  datatype AudioBuffer = AudioBuffer(sampleRate: int, channels: int, samples: seq<real>)

  /** The reverb knobs as the caller passes them, before clamping. */
  datatype ReverbParams = ReverbParams(mix: real, roomSize: real, damp: real)

  /** The empty buffer an effect returns for input it refuses: no samples,
      but the input's sample rate and channel count. */
  function EmptyLike(b: AudioBuffer): (r: AudioBuffer)
    ensures r.samples == []
    ensures r.sampleRate == b.sampleRate && r.channels == b.channels
  {
    AudioBuffer(b.sampleRate, b.channels, [])
  }

  /** A cast of a non-negative real to an integer type: truncation, which
      for non-negative values is the floor. */
  function Trunc(x: real): nat
    requires x >= 0.0
  {
    x.Floor
  }

  /** The truncated value is the largest integer not above `x`. */
  lemma TruncBounds(x: real)
    requires x >= 0.0
    ensures Trunc(x) as real <= x < Trunc(x) as real + 1.0
  {
  }

  /** The product of two non-negative reals is non-negative. */
  lemma MulNonneg(x: real, y: real)
    requires x >= 0.0 && y >= 0.0
    ensures x * y >= 0.0
  {
  }

  /** Number of whole frames in `len` samples of `c` channels. */
  function FrameCount(len: nat, c: nat): (frames: nat)
    requires c > 0
    ensures frames * c <= len < frames * c + c
  {
    SlotOf(len, c);
    len / c
  }

  lemma MulLeq(a: nat, b: nat, c: nat)
    requires a <= b
    ensures a * c <= b * c
  {
    assert b * c == a * c + (b - a) * c;
  }

  /** Sample `n * c + ch` of frame `n < frames` lies inside `frames` whole frames. */
  lemma SlotInBounds(n: nat, ch: nat, c: nat, frames: nat)
    requires ch < c && n < frames
    ensures n * c + ch < frames * c
  {
    MulLeq(n + 1, frames, c);
  }

  /** Euclidean division of a sample index by the channel count. */
  lemma SlotOf(k: nat, c: nat)
    requires c > 0
    ensures k == (k / c) * c + k % c && 0 <= k % c < c
  {
  }

  /** The frame and channel of slot `n * c + ch` are `n` and `ch`. */
  lemma SlotDecompose(n: nat, ch: nat, c: nat)
    requires ch < c
    ensures (n * c + ch) / c == n && (n * c + ch) % c == ch
  {
    var k := n * c + ch;
    var q, r := k / c, k % c;
    SlotOf(k, c);
    if q < n {
      MulLeq(q + 1, n, c);
      assert false;
    } else if q > n {
      MulLeq(n + 1, q, c);
      assert false;
    }
  }

  /** A slot below `frames * c` belongs to one of the first `frames` frames. */
  lemma SlotFrame(k: nat, c: nat, frames: nat)
    requires c > 0 && k < frames * c
    ensures k / c < frames && k % c < c
    ensures (k / c) * c + k % c == k
  {
    SlotOf(k, c);
    if k / c >= frames {
      MulLeq(frames, k / c, c);
      assert false;
    }
  }
}
