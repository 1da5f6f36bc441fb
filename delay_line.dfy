/** The delay lines inside `reverb`: a fixed-length ring buffer with one
    read/write cursor that advances by one sample per step and wraps to 0
    at the end of the buffer. Each comb and all-pass filter owns one. */
module DelayLines {
  import opened Buffers

  /** A delay line as a value: its buffer and its cursor. */
  datatype LineState = LineState(buf: seq<real>, cursor: nat)

  predicate WellFormed(s: LineState) {
    0 < |s.buf| && s.cursor < |s.buf|
  }

  /** A delay line of `len` samples as the reverb creates it for every
      channel: zero-filled, cursor at 0. */
  function Silent(len: nat): (s: LineState)
    requires len >= 1
    ensures WellFormed(s) && |s.buf| == len && s.cursor == 0
    ensures forall i :: 0 <= i < len ==> s.buf[i] == 0.0
  {
    LineState(seq(len, _ => 0.0), 0)
  }

  /** The sample under the cursor: what the filter reads this step. */
  function Tap(s: LineState): real
    requires WellFormed(s)
  {
    s.buf[s.cursor]
  }

  /** Store `v` under the cursor, then advance the cursor, wrapping to 0. */
  function Push(s: LineState, v: real): (t: LineState)
    requires WellFormed(s)
    ensures WellFormed(t) && |t.buf| == |s.buf|
    ensures t.cursor == (s.cursor + 1) % |s.buf|
    ensures t.buf[s.cursor] == v
    ensures forall i :: 0 <= i < |s.buf| && i != s.cursor ==> t.buf[i] == s.buf[i]
  {
    var next := s.cursor + 1;
    LineState(s.buf[s.cursor := v], if next >= |s.buf| then 0 else next)
  }

  /** One step of a feedback comb filter: feed back the tap, attenuated by
      the feedback gain and by the damping. */
  function CombNext(s: LineState, x: real, feedback: real, damp: real): (t: LineState)
    requires WellFormed(s)
    ensures WellFormed(t) && |t.buf| == |s.buf|
    ensures t.cursor == (s.cursor + 1) % |s.buf|
    ensures t.buf[s.cursor] == x + Damped(Tap(s), feedback, damp)
    ensures forall i :: 0 <= i < |s.buf| && i != s.cursor ==> t.buf[i] == s.buf[i]
  {
    Push(s, x + Damped(Tap(s), feedback, damp))
  }

  /** The tap as the comb feeds it back: scaled by the feedback gain and by
      what the damping leaves of it. */
  function Damped(y: real, feedback: real, damp: real): real {
    y * feedback * (1.0 - damp)
  }

  /** The tap as the all-pass feeds it back. */
  function Scaled(y: real, gain: real): real {
    y * gain
  }

  /** One step of an all-pass filter: store the input plus the scaled tap. */
  function AllPassNext(s: LineState, input: real, gain: real): (t: LineState)
    requires WellFormed(s)
    ensures WellFormed(t) && |t.buf| == |s.buf|
    ensures t.cursor == (s.cursor + 1) % |s.buf|
    ensures t.buf[s.cursor] == input + Scaled(Tap(s), gain)
    ensures forall i :: 0 <= i < |s.buf| && i != s.cursor ==> t.buf[i] == s.buf[i]
  {
    Push(s, input + Scaled(Tap(s), gain))
  }

  /** What an all-pass filter passes on: the input minus the tap. */
  function AllPassOut(s: LineState, input: real): real
    requires WellFormed(s)
  {
    input - Tap(s)
  }

  // ---------------------------------------------------------------------
  // Ring-buffer behaviour

  /** The line after storing every value of `vs`, in order. */
  function PushAll(s: LineState, vs: seq<real>): (t: LineState)
    requires WellFormed(s)
    ensures WellFormed(t) && |t.buf| == |s.buf|
    decreases |vs|
  {
    if vs == [] then s else Push(PushAll(s, vs[..|vs| - 1]), vs[|vs| - 1])
  }

  lemma ModSucc(x: nat, len: nat)
    requires len > 0
    ensures (x + 1) % len == if x % len == len - 1 then 0 else x % len + 1
  {
    var q, r := x / len, x % len;
    SlotOf(x, len);
    if r == len - 1 {
      assert x + 1 == (q + 1) * len + 0;
      SlotDecompose(q + 1, 0, len);
    } else {
      SlotDecompose(q, r + 1, len);
    }
  }

  /** The cursor has advanced by the number of values stored, modulo the length. */
  lemma {:induction false} CursorAfter(s: LineState, vs: seq<real>)
    requires WellFormed(s)
    ensures PushAll(s, vs).cursor == (s.cursor + |vs|) % |s.buf|
    decreases |vs|
  {
    if vs != [] {
      var m := |vs| - 1;
      CursorAfter(s, vs[..m]);
      ModSucc(s.cursor + m, |s.buf|);
    }
  }

  /** How many steps ago slot `i` was last written, counted from 0 for the
      latest write, after `m` writes starting at `cursor` (the count is
      taken modulo the length, so it is at least `m` when the slot has not
      been written yet). */
  function Age(cursor: nat, m: nat, len: nat, i: nat): nat
    requires len > 0 && i < len
  {
    (cursor + m + len - 1 - i) % len
  }

  /** Slot `i` holds the value stored `Age` steps ago, or its initial
      value if no store has reached it yet. */
  lemma {:induction false} ContentsAfter(s: LineState, vs: seq<real>, i: nat)
    requires WellFormed(s) && i < |s.buf|
    ensures var d := Age(s.cursor, |vs|, |s.buf|, i);
            PushAll(s, vs).buf[i] == if d < |vs| then vs[|vs| - 1 - d] else s.buf[i]
    decreases |vs|
  {
    if vs != [] {
      var m := |vs| - 1;
      CursorAfter(s, vs[..m]);
      ContentsAfter(s, vs[..m], i);
      AgeStep(s.cursor, m, |s.buf|, i);
    }
  }

  /** One more store makes the slot under the cursor the newest (age 0)
      and every other slot one step older. */
  lemma AgeStep(c0: nat, m: nat, len: nat, i: nat)
    requires len > 0 && i < len
    ensures i == (c0 + m) % len ==> Age(c0, m + 1, len, i) == 0
    ensures i != (c0 + m) % len ==> Age(c0, m + 1, len, i) == Age(c0, m, len, i) + 1
  {
    var a := c0 + m + len - 1 - i;
    ModSucc(a, len);
    ModShift(c0 + m, len - i, len);
    var r := (c0 + m) % len;
    ModWindow(r + len - i, len);
  }

  /** A value strictly between 0 and `2 * len`, reduced modulo `len`. */
  lemma ModWindow(y: nat, len: nat)
    requires 0 < y < 2 * len
    ensures y % len == if y < len then y else y - len
  {
    if y < len {
      SlotDecompose(0, y, len);
    } else {
      SlotDecompose(1, y - len, len);
    }
  }

  lemma ModShift(a: nat, b: nat, len: nat)
    requires len > 0
    ensures (a + b) % len == (a % len + b) % len
  {
    var q := a / len;
    SlotOf(a, len);
    ModMultiple(q, a % len + b, len);
  }

  lemma ModMultiple(q: nat, r: nat, len: nat)
    requires len > 0
    ensures (q * len + r) % len == r % len
  {
    var k := r / len;
    SlotOf(r, len);
    assert q * len + r == (q + k) * len + r % len;
    SlotDecompose(q + k, r % len, len);
  }

  /** The delay-line property: a line that starts silent (all zeros,
      cursor 0, as the reverb creates it) gives back, at each step, exactly
      the value stored `|s.buf|` steps earlier, and 0 during the first
      `|s.buf|` steps. */
  lemma Echo(s: LineState, vs: seq<real>)
    requires WellFormed(s) && s.cursor == 0
    requires forall i :: 0 <= i < |s.buf| ==> s.buf[i] == 0.0
    ensures Tap(PushAll(s, vs)) == if |vs| >= |s.buf| then vs[|vs| - |s.buf|] else 0.0
  {
    CursorAfter(s, vs);
    ContentsAfter(s, vs, PushAll(s, vs).cursor);
    OldestAtCursor(|vs|, |s.buf|);
  }

  /** After `m` stores from cursor 0, the slot under the cursor is the
      oldest one: it was written `len - 1` stores before the latest. */
  lemma OldestAtCursor(m: nat, len: nat)
    requires len >= 1
    ensures Age(0, m, len, m % len) == len - 1
  {
    var c := m % len;
    ModShift(m, len - 1 - c, len);
    SlotDecompose(0, len - 1, len);
  }

  // ---------------------------------------------------------------------
  // One filter line over a whole signal

  /** The two filters a line serves: a comb feeds its tap back damped, an
      all-pass feeds it back scaled by its gain. */
  datatype Filter = CombFilter(feedback: real, damp: real) | AllPassFilter(gain: real)

  /** What a filter stores under the cursor for input `x` and tap `y`. */
  function Stored(f: Filter, x: real, y: real): real {
    match f
    case CombFilter(feedback, damp) => x + Damped(y, feedback, damp)
    case AllPassFilter(gain) => x + Scaled(y, gain)
  }

  /** One step of a filter's line. */
  function FilterNext(s: LineState, x: real, f: Filter): (t: LineState)
    requires WellFormed(s)
    ensures t == Push(s, Stored(f, x, Tap(s)))
  {
    match f
    case CombFilter(feedback, damp) => CombNext(s, x, feedback, damp)
    case AllPassFilter(gain) => AllPassNext(s, x, gain)
  }

  /** The line after the filter has taken every sample of `xs`, in order. */
  function LineAfter(s: LineState, xs: seq<real>, f: Filter): (t: LineState)
    requires WellFormed(s)
    ensures WellFormed(t) && |t.buf| == |s.buf|
    decreases |xs|
  {
    if xs == [] then s else FilterNext(LineAfter(s, xs[..|xs| - 1], f), xs[|xs| - 1], f)
  }

  /** The taps the filter reads, one per input sample: tap `n` is read
      together with sample `n`. */
  function LineTaps(s: LineState, xs: seq<real>, f: Filter): (ys: seq<real>)
    requires WellFormed(s)
    ensures |ys| == |xs|
  {
    seq(|xs|, n requires 0 <= n < |xs| => Tap(LineAfter(s, xs[..n], f)))
  }

  /** The values the filter stores, one per input sample. */
  function LineStores(s: LineState, xs: seq<real>, f: Filter): (ws: seq<real>)
    requires WellFormed(s)
    ensures |ws| == |xs|
  {
    var ys := LineTaps(s, xs, f);
    seq(|xs|, n requires 0 <= n < |xs| => Stored(f, xs[n], ys[n]))
  }

  /** Later samples do not change what was stored for earlier ones. */
  lemma LineStoresPrefix(s: LineState, xs: seq<real>, f: Filter, m: nat)
    requires WellFormed(s) && m <= |xs|
    ensures LineStores(s, xs[..m], f) == LineStores(s, xs, f)[..m]
  {
    forall n | 0 <= n < m
      ensures LineStores(s, xs[..m], f)[n] == LineStores(s, xs, f)[n]
    {
      assert xs[..m][..n] == xs[..n];
    }
  }

  /** A filter's line is a ring buffer: after the signal `xs` it is the
      line into which the stored values have been pushed, in order. */
  lemma {:induction false} LineAfterPushes(s: LineState, xs: seq<real>, f: Filter)
    requires WellFormed(s)
    ensures LineAfter(s, xs, f) == PushAll(s, LineStores(s, xs, f))
    decreases |xs|
  {
    if xs != [] {
      var m := |xs| - 1;
      var ws := LineStores(s, xs, f);
      LineAfterPushes(s, xs[..m], f);
      LineStoresPrefix(s, xs, f, m);
      assert ws[..|ws| - 1] == LineStores(s, xs[..m], f);
    }
  }

  /** From a silent line of length `L`, tap `n` is the value stored at
      step `n - L`, and 0 for the first `L` steps. */
  lemma LineEcho(s: LineState, xs: seq<real>, f: Filter, n: nat)
    requires WellFormed(s) && s.cursor == 0
    requires forall i :: 0 <= i < |s.buf| ==> s.buf[i] == 0.0
    requires n < |xs|
    ensures LineTaps(s, xs, f)[n]
         == if n >= |s.buf| then LineStores(s, xs, f)[n - |s.buf|] else 0.0
  {
    LineAfterPushes(s, xs[..n], f);
    Echo(s, LineStores(s, xs[..n], f));
    LineStoresPrefix(s, xs, f, n);
  }

  /** The comb recurrence: from a silent line of length `L`, the comb's
      output `y` is 0 for the first `L` samples and afterwards
      `y[n] = x[n - L] + feedback * (1 - damp) * y[n - L]`. */
  lemma CombEcho(s: LineState, xs: seq<real>, feedback: real, damp: real, n: nat)
    requires WellFormed(s) && s.cursor == 0
    requires forall i :: 0 <= i < |s.buf| ==> s.buf[i] == 0.0
    requires n < |xs|
    ensures var ys := LineTaps(s, xs, CombFilter(feedback, damp));
            ys[n] == if n >= |s.buf| then xs[n - |s.buf|] + Damped(ys[n - |s.buf|], feedback, damp) else 0.0
  {
    LineEcho(s, xs, CombFilter(feedback, damp), n);
  }

  /** The all-pass recurrence: from a silent line of length `L`, with `w`
      the values stored, the output at sample `n` is `x[n] - w[n - L]`
      (just `x[n]` for the first `L` samples) and
      `w[n] = x[n] + gain * w[n - L]` (just `x[n]` at first). */
  lemma AllPassEcho(s: LineState, xs: seq<real>, gain: real, n: nat)
    requires WellFormed(s) && s.cursor == 0
    requires forall i :: 0 <= i < |s.buf| ==> s.buf[i] == 0.0
    requires n < |xs|
    ensures var f, L := AllPassFilter(gain), |s.buf|;
            var ws := LineStores(s, xs, f);
            var delayed := if n >= L then ws[n - L] else 0.0;
            && AllPassOut(LineAfter(s, xs[..n], f), xs[n]) == xs[n] - delayed
            && ws[n] == xs[n] + Scaled(delayed, gain)
  {
    LineEcho(s, xs, AllPassFilter(gain), n);
  }

  // ---------------------------------------------------------------------
  // The delay line as the source keeps it: a buffer updated in place and
  // a cursor.

  class DelayLine {
    const buf: array<real>
    var cursor: nat

    ghost predicate Valid()
      reads this
    {
      0 < buf.Length && cursor < buf.Length
    }

    ghost function State(): (s: LineState)
      reads this, buf
      ensures Valid() ==> WellFormed(s)
    {
      LineState(buf[..], cursor)
    }

    /** `assign(len, 0.0)` and a cursor reset to 0. */
    constructor (len: nat)
      requires len >= 1
      ensures Valid() && fresh(buf)
      ensures State() == Silent(len)
    {
      buf := new real[len](_ => 0.0);
      cursor := 0;
    }

    /** The comb filter's step: read the tap, write the input plus the
        attenuated tap back under the cursor, advance and wrap the cursor. */
    method Comb(x: real, feedback: real, damp: real) returns (y: real)
      requires Valid()
      modifies this, buf
      ensures Valid()
      ensures y == Tap(old(State()))
      ensures State() == CombNext(old(State()), x, feedback, damp)
    {
      ghost var s := State();
      y := buf[cursor];
      buf[cursor] := x + Damped(y, feedback, damp);
      assert buf[..] == s.buf[s.cursor := x + Damped(y, feedback, damp)];
      cursor := cursor + 1;
      if cursor >= buf.Length {
        cursor := 0;
      }
    }

    /** The all-pass filter's step: read the tap, pass on the input minus
        the tap, write the input plus the scaled tap back, advance and wrap. */
    method AllPass(input: real, gain: real) returns (v: real)
      requires Valid()
      modifies this, buf
      ensures Valid()
      ensures v == AllPassOut(old(State()), input)
      ensures State() == AllPassNext(old(State()), input, gain)
    {
      ghost var s := State();
      var bufY := buf[cursor];
      v := input - bufY;
      buf[cursor] := input + Scaled(bufY, gain);
      assert buf[..] == s.buf[s.cursor := input + Scaled(bufY, gain)];
      cursor := cursor + 1;
      if cursor >= buf.Length {
        cursor := 0;
      }
    }
  }

  // ---------------------------------------------------------------------
  // A bank of delay lines, as the source's fixed-size arrays of buffers
  // and cursors.

  /** Every line is valid, and no two lines share an object or a buffer. */
  ghost predicate Separate(lines: seq<DelayLine>)
    reads lines
  {
    (forall i :: 0 <= i < |lines| ==> lines[i].Valid()) &&
    (forall i, j :: 0 <= i < j < |lines| ==> lines[i] != lines[j] && lines[i].buf != lines[j].buf)
  }

  /** A valid line that shares neither object nor buffer with a separate
      bank can join it. */
  lemma SeparateAppend(lines: seq<DelayLine>, l: DelayLine)
    requires Separate(lines) && l.Valid()
    requires forall j :: 0 <= j < |lines| ==> lines[j] != l && lines[j].buf != l.buf
    ensures Separate(lines + [l])
  {
  }

  /** A bank none of whose objects changed keeps its state. */
  twostate lemma BankUnchanged(bank: LineBank)
    requires old(bank.Valid()) && unchanged(bank.Repr)
    ensures bank.Valid() && bank.states == old(bank.states)
  {
  }

  /** The allocation loop: one fresh zero-filled line per length. */
  method NewLines(lens: seq<nat>) returns (ls: seq<DelayLine>, ghost objs: set<object>)
    requires forall i :: 0 <= i < |lens| ==> lens[i] >= 1
    ensures |ls| == |lens| && Separate(ls) && fresh(objs)
    ensures forall j :: 0 <= j < |ls| ==> ls[j] in objs && ls[j].buf in objs
    ensures forall j :: 0 <= j < |ls| ==> ls[j].State() == Silent(lens[j])
  {
    ls, objs := [], {};
    for i := 0 to |lens|
      invariant |ls| == i && Separate(ls) && fresh(objs)
      invariant forall j :: 0 <= j < i ==> ls[j] in objs && ls[j].buf in objs
      invariant forall j :: 0 <= j < i ==> ls[j].State() == Silent(lens[j])
    {
      var line := new DelayLine(lens[i]);
      SeparateAppend(ls, line);
      ls, objs := ls + [line], objs + {line, line.buf};
    }
  }

  class LineBank {
    const lines: seq<DelayLine>
    /** The lines' values, in order. */
    ghost var states: seq<LineState>
    /** The bank, its lines and their buffers: everything stepping the
        bank changes. */
    ghost const Repr: set<object>

    ghost predicate Valid()
      reads this, Repr
    {
      this in Repr &&
      (forall i :: 0 <= i < |lines| ==> lines[i] in Repr && lines[i].buf in Repr) &&
      Separate(lines) &&
      |states| == |lines| &&
      forall i :: 0 <= i < |lines| ==> states[i] == lines[i].State()
    }

    /** One zero-filled line per length, every cursor at 0. */
    constructor (lens: seq<nat>)
      requires forall i :: 0 <= i < |lens| ==> lens[i] >= 1
      ensures Valid() && fresh(Repr - {this})
      ensures states == seq(|lens|, i requires 0 <= i < |lens| => Silent(lens[i]))
    {
      var ls, objs := NewLines(lens);
      lines := ls;
      states := seq(|lens|, i requires 0 <= i < |lens| => Silent(lens[i]));
      Repr := {this} + objs;
    }

    /** Step line `i` as a comb filter; the other lines keep their state. */
    method CombAt(i: nat, x: real, feedback: real, damp: real) returns (y: real)
      requires Valid() && i < |lines|
      modifies Repr
      ensures Valid()
      ensures y == Tap(old(states)[i])
      ensures states == old(states)[i := CombNext(old(states)[i], x, feedback, damp)]
    {
      y := lines[i].Comb(x, feedback, damp);
      states := states[i := lines[i].State()];
    }

    /** Step line `i` as an all-pass filter; the other lines keep their
        state. */
    method AllPassAt(i: nat, input: real, gain: real) returns (v: real)
      requires Valid() && i < |lines|
      modifies Repr
      ensures Valid()
      ensures v == AllPassOut(old(states)[i], input)
      ensures states == old(states)[i := AllPassNext(old(states)[i], input, gain)]
    {
      v := lines[i].AllPass(input, gain);
      states := states[i := lines[i].State()];
    }
  }
}
