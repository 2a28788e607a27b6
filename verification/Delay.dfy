/** The delay line: a circular buffer that reads as an unbounded history. */
module Delay {
  import opened Positions

  /** A single-precision value as its bit pattern; zero is all zero bits. */
  type F32 = bv32

  const ZERO: F32 := 0

  /** Single-precision arithmetic, rounding and all; nothing here depends on how it rounds. */
  datatype Fpu = Fpu(add: (F32, F32) -> F32, sub: (F32, F32) -> F32, mul: (F32, F32) -> F32)

  /** What one block's parameters come to; `q` is the filter's constant damping. */
  datatype Knobs = Knobs(fpu: Fpu, delay: nat, feedback: F32, wet: F32, dry: F32, f: F32, q: F32)

  /** One channel: the filter on the feedback path, and every value ever written to the line. */
  datatype Channel = Channel(low: F32, band: F32, history: seq<F32>)

  const SILENT: Channel := Channel(ZERO, ZERO, [])

  /** The value written `d` samples ago; before the first write the line is silent. */
  function Echo(history: seq<F32>, d: nat): F32 {
    if 1 <= d <= |history| then history[|history| - d] else ZERO
  }

  function LowAfter(low: F32, band: F32, k: Knobs): F32 {
    k.fpu.add(low, k.fpu.mul(k.f, band))
  }

  /** `low` has been advanced already. */
  function BandAfter(low: F32, band: F32, delayed: F32, k: Knobs): F32 {
    k.fpu.add(band, k.fpu.mul(k.f, k.fpu.sub(k.fpu.sub(delayed, low), k.fpu.mul(k.q, band))))
  }

  function Fed(x: F32, low: F32, k: Knobs): F32 {
    k.fpu.add(x, k.fpu.mul(low, k.feedback))
  }

  function Mixed(x: F32, delayed: F32, k: Knobs): F32 {
    k.fpu.add(k.fpu.mul(x, k.dry), k.fpu.mul(delayed, k.wet))
  }

  function Step(c: Channel, x: F32, k: Knobs): Channel {
    var low := LowAfter(c.low, c.band, k);
    Channel(low, BandAfter(low, c.band, Echo(c.history, k.delay), k), c.history + [Fed(x, low, k)])
  }

  function Heard(c: Channel, x: F32, k: Knobs): F32 {
    Mixed(x, Echo(c.history, k.delay), k)
  }

  function After(c: Channel, xs: seq<F32>, k: Knobs): Channel
    decreases |xs|
  {
    if xs == [] then c else Step(After(c, xs[..|xs| - 1], k), xs[|xs| - 1], k)
  }

  function Output(c: Channel, xs: seq<F32>, k: Knobs): (ys: seq<F32>)
    ensures |ys| == |xs|
    decreases |xs|
  {
    if xs == [] then []
    else Output(c, xs[..|xs| - 1], k) + [Heard(After(c, xs[..|xs| - 1], k), xs[|xs| - 1], k)]
  }

  lemma Snoc(c: Channel, xs: seq<F32>, x: F32, k: Knobs)
    ensures After(c, xs + [x], k) == Step(After(c, xs, k), x, k)
    ensures Output(c, xs + [x], k) == Output(c, xs, k) + [Heard(After(c, xs, k), x, k)]
  {
    assert (xs + [x])[..|xs|] == xs;
  }

  lemma Extended(c: Channel, xs: seq<F32>, ys: seq<F32>, i: nat, k: Knobs)
    requires i < |xs| == |ys|
    ensures After(c, xs[..i + 1], k) == Step(After(c, xs[..i], k), xs[i], k)
    ensures ys[..i] == Output(c, xs[..i], k) ==>
      ys[i := Heard(After(c, xs[..i], k), xs[i], k)][..i + 1] == Output(c, xs[..i + 1], k)
  {
    assert xs[..i + 1] == xs[..i] + [xs[i]];
    Snoc(c, xs[..i], xs[i], k);
  }

  // ── The buffer ─────────────────────────────────────────────────────────────

  /** The cell written `b` samples before the one at `pos`. */
  function Back(pos: nat, b: nat, len: nat): (c: nat)
    requires pos < len && b <= len
    ensures b > 0 ==> c < len
  {
    if b <= pos then pos - b else pos + len - b
  }

  /** Every delay the buffer is long enough for reads as the history does. */
  ghost predicate Holds(cells: seq<F32>, pos: nat, history: seq<F32>) {
    pos < |cells| && forall b | 1 <= b <= |cells| :: cells[Back(pos, b, |cells|)] == Echo(history, b)
  }

  function Following(pos: nat, len: nat): (next: nat)
    requires pos < len
  {
    if pos + 1 < len then pos + 1 else 0
  }

  lemma WriteHolds(cells: seq<F32>, pos: nat, history: seq<F32>, y: F32)
    requires Holds(cells, pos, history)
    ensures Holds(cells[pos := y], Following(pos, |cells|), history + [y])
  {
    var next := Following(pos, |cells|);
    forall b | 1 <= b <= |cells| ensures cells[pos := y][Back(next, b, |cells|)] == Echo(history + [y], b) {
      if b > 1 {
        assert Back(next, b, |cells|) == Back(pos, b - 1, |cells|) != pos;
        assert cells[Back(pos, b - 1, |cells|)] == Echo(history, b - 1);
      }
    }
  }

  /** The knobs with the delay kept inside the buffer. */
  function Settled(k: Knobs, maxLen: nat): (settled: Knobs)
    requires maxLen >= 2
    ensures 1 <= settled.delay < maxLen
    ensures 1 <= k.delay < maxLen ==> settled == k
  {
    k.(delay := if k.delay < 1 then 1 else if k.delay > maxLen - 1 then maxLen - 1 else k.delay)
  }

  function LeftIn(audioIn: seq<seq<F32>>, frames: nat): (xs: seq<F32>)
    requires forall c | 0 <= c < |audioIn| :: |audioIn[c]| == frames
    ensures |xs| == frames
  {
    if |audioIn| >= 1 then audioIn[0] else seq(frames, _ => ZERO)
  }

  function RightIn(audioIn: seq<seq<F32>>, frames: nat): (xs: seq<F32>)
    requires forall c | 0 <= c < |audioIn| :: |audioIn[c]| == frames
    ensures |xs| == frames
  {
    if |audioIn| >= 2 then audioIn[1] else LeftIn(audioIn, frames)
  }

  class DelayNode {
    const maxLen: nat
    const bufL: array<F32>
    const bufR: array<F32>
    var writePos: nat
    var lowL: F32
    var bandL: F32
    var lowR: F32
    var bandR: F32
    /** Every value ever written to either line. */
    ghost var writtenL: seq<F32>
    ghost var writtenR: seq<F32>

    /** Activation: two seconds of silence. */
    constructor (len: nat)
      requires len >= 2
      ensures Valid() && fresh(bufL) && fresh(bufR) && maxLen == len
      ensures Left() == SILENT && Right() == SILENT
    {
      maxLen := len;
      bufL := new F32[len](_ => ZERO);
      bufR := new F32[len](_ => ZERO);
      writePos, lowL, bandL, lowR, bandR := 0, ZERO, ZERO, ZERO, ZERO;
      writtenL, writtenR := [], [];
    }

    ghost predicate Valid()
      reads this, bufL, bufR
    {
      && maxLen >= 2 && bufL.Length == maxLen && bufR.Length == maxLen && bufL != bufR
      && Holds(bufL[..], writePos, writtenL)
      && Holds(bufR[..], writePos, writtenR)
    }

    ghost function Left(): Channel
      reads this
    {
      Channel(lowL, bandL, writtenL)
    }

    ghost function Right(): Channel
      reads this
    {
      Channel(lowR, bandR, writtenR)
    }

    method ReadBack(d: nat) returns (delayedL: F32, delayedR: F32)
      requires Valid() && 1 <= d < maxLen
      ensures delayedL == Echo(writtenL, d) && delayedR == Echo(writtenR, d)
    {
      Wrapped(writePos + maxLen - d, maxLen);
      var readPos := (writePos + maxLen - d) % maxLen;
      assert readPos == Back(writePos, d, maxLen);
      assert bufL[..][readPos] == Echo(writtenL, d) && bufR[..][readPos] == Echo(writtenR, d);
      return bufL[readPos], bufR[readPos];
    }

    method WriteAndAdvance(l: F32, r: F32)
      requires Valid()
      modifies this`writePos, this`writtenL, this`writtenR, bufL, bufR
      ensures Valid() && writtenL == old(writtenL) + [l] && writtenR == old(writtenR) + [r]
    {
      WriteHolds(bufL[..], writePos, writtenL, l);
      WriteHolds(bufR[..], writePos, writtenR, r);
      bufL[writePos] := l;
      bufR[writePos] := r;
      writtenL, writtenR := writtenL + [l], writtenR + [r];
      Wrapped(writePos + 1, maxLen);
      assert (writePos + 1) % maxLen == Following(writePos, maxLen);
      assert bufL[..] == old(bufL[..])[writePos := l] && bufR[..] == old(bufR[..])[writePos := r];
      writePos := (writePos + 1) % maxLen;
    }

    /** One sample through both lines; returns what they read. */
    method Sample(inL: F32, inR: F32, k: Knobs) returns (delayedL: F32, delayedR: F32)
      requires Valid() && 1 <= k.delay < maxLen
      modifies this, bufL, bufR
      ensures Valid()
      ensures delayedL == Echo(old(writtenL), k.delay) && delayedR == Echo(old(writtenR), k.delay)
      ensures Left() == Step(old(Left()), inL, k) && Right() == Step(old(Right()), inR, k)
    {
      delayedL, delayedR := ReadBack(k.delay);
      lowL := LowAfter(lowL, bandL, k);
      bandL := BandAfter(lowL, bandL, delayedL, k);
      lowR := LowAfter(lowR, bandR, k);
      bandR := BandAfter(lowR, bandR, delayedR, k);
      WriteAndAdvance(Fed(inL, lowL, k), Fed(inR, lowR, k));
    }

    /** Frame `i` of a block. A missing left input is silence, and a missing right input is the left one. */
    method Frame(audioIn: seq<seq<F32>>, out: seq<array<F32>>, frames: nat, i: nat, k: Knobs)
      requires Valid() && 1 <= k.delay < maxLen && i < frames
      requires forall c | 0 <= c < |audioIn| :: |audioIn[c]| == frames
      requires Outputs(out, frames)
      modifies this, bufL, bufR, out[..if |out| < 2 then |out| else 2]
      ensures Valid()
      ensures Left() == Step(old(Left()), LeftIn(audioIn, frames)[i], k)
      ensures Right() == Step(old(Right()), RightIn(audioIn, frames)[i], k)
      ensures |out| >= 1 ==> out[0][..] == old(out[0][..])[i := Heard(old(Left()), LeftIn(audioIn, frames)[i], k)]
      ensures |out| >= 2 ==> out[1][..] == old(out[1][..])[i := Heard(old(Right()), RightIn(audioIn, frames)[i], k)]
    {
      var inL := if |audioIn| >= 1 then audioIn[0][i] else ZERO;
      var inR := if |audioIn| >= 2 then audioIn[1][i] else inL;
      var delayedL, delayedR := Sample(inL, inR, k);
      var l, r := Mixed(inL, delayedL, k), Mixed(inR, delayedR, k);
      if |out| >= 1 { out[0][i] := l; }
      if |out| >= 2 { out[1][i] := r; }
      assert Holds(bufL[..], writePos, writtenL) && Holds(bufR[..], writePos, writtenR);
    }

    ghost predicate Outputs(out: seq<array<F32>>, frames: nat)
      reads this
    {
      && (forall c | 0 <= c < |out| :: out[c].Length == frames && out[c] != bufL && out[c] != bufR)
      && (|out| >= 2 ==> out[0] != out[1])
    }

    /** The first `i` frames have been through; `left` and `right` are where the block began. */
    ghost predicate Through(audioIn: seq<seq<F32>>, out: seq<array<F32>>, frames: nat, i: nat, k: Knobs, left: Channel,
        right: Channel)
      requires forall c | 0 <= c < |audioIn| :: |audioIn[c]| == frames
      requires i <= frames && Outputs(out, frames)
      reads this, out[..if |out| < 2 then |out| else 2]
    {
      var ls, rs := LeftIn(audioIn, frames)[..i], RightIn(audioIn, frames)[..i];
      && Left() == After(left, ls, k) && Right() == After(right, rs, k)
      && (|out| >= 1 ==> out[0][..i] == Output(left, ls, k))
      && (|out| >= 2 ==> out[1][..i] == Output(right, rs, k))
    }

    method NextFrame(audioIn: seq<seq<F32>>, out: seq<array<F32>>, frames: nat, i: nat, k: Knobs, ghost left: Channel,
        ghost right: Channel)
      requires Valid() && 1 <= k.delay < maxLen && i < frames
      requires forall c | 0 <= c < |audioIn| :: |audioIn[c]| == frames
      requires Outputs(out, frames) && Through(audioIn, out, frames, i, k, left, right)
      modifies this, bufL, bufR, out[..if |out| < 2 then |out| else 2]
      ensures Valid() && Through(audioIn, out, frames, i + 1, k, left, right)
    {
      ghost var ls, rs := LeftIn(audioIn, frames), RightIn(audioIn, frames);
      ghost var out0 := if |out| >= 1 then out[0][..] else Output(left, ls, k);
      ghost var out1 := if |out| >= 2 then out[1][..] else Output(right, rs, k);
      Frame(audioIn, out, frames, i, k);
      Extended(left, ls, out0, i, k);
      Extended(right, rs, out1, i, k);
    }

    /** One block, the delay clamped into the buffer first. Channels past the second are left as they are. */
    method Process(audioIn: seq<seq<F32>>, out: seq<array<F32>>, frames: nat, raw: Knobs)
      requires Valid()
      requires forall c | 0 <= c < |audioIn| :: |audioIn[c]| == frames
      requires Outputs(out, frames)
      modifies this, bufL, bufR, out[..if |out| < 2 then |out| else 2]
      ensures Valid()
      ensures Left() == After(old(Left()), LeftIn(audioIn, frames), Settled(raw, maxLen))
      ensures Right() == After(old(Right()), RightIn(audioIn, frames), Settled(raw, maxLen))
      ensures |out| >= 1 ==> out[0][..] == Output(old(Left()), LeftIn(audioIn, frames), Settled(raw, maxLen))
      ensures |out| >= 2 ==> out[1][..] == Output(old(Right()), RightIn(audioIn, frames), Settled(raw, maxLen))
    {
      var k := Settled(raw, maxLen);
      ghost var left, right := Left(), Right();
      ghost var ls, rs := LeftIn(audioIn, frames), RightIn(audioIn, frames);
      for i := 0 to frames
        invariant Valid()
        invariant Through(audioIn, out, frames, i, k, left, right)
      {
        NextFrame(audioIn, out, frames, i, k, left, right);
      }
      assert ls[..frames] == ls && rs[..frames] == rs;
    }
  }

  // ── Whole runs ─────────────────────────────────────────────────────────────

  datatype Block = Block(xs: seq<F32>, knobs: Knobs)

  function AfterAll(c: Channel, blocks: seq<Block>): Channel
    decreases |blocks|
  {
    if blocks == [] then c else AfterAll(After(c, blocks[0].xs, blocks[0].knobs), blocks[1..])
  }

  /** What sample `t` of the run is told by the knobs of its block and the values on the line. */
  ghost predicate ReadsBack(line: seq<F32>, t: nat, x: F32, y: F32, k: Knobs) {
    t < |line| && y == Mixed(x, if 1 <= k.delay <= t then line[t - k.delay] else ZERO, k)
  }

  /** Each output sample is the input mixed with exactly what was written `delay` samples before. */
  lemma {:induction false} BlockReads(c: Channel, xs: seq<F32>, k: Knobs)
    ensures |After(c, xs, k).history| == |c.history| + |xs| && c.history <= After(c, xs, k).history
    ensures forall i | 0 <= i < |xs| ::
      ReadsBack(After(c, xs, k).history, |c.history| + i, xs[i], Output(c, xs, k)[i], k)
    decreases |xs|
  {
    if xs == [] {
    } else {
      var front := xs[..|xs| - 1];
      BlockReads(c, front, k);
      forall i | 0 <= i < |xs| ensures ReadsBack(After(c, xs, k).history, |c.history| + i, xs[i], Output(c, xs, k)[i],
        k) {
        if i < |front| {
          assert ReadsBack(After(c, front, k).history, |c.history| + i, front[i], Output(c, front, k)[i], k);
        }
      }
    }
  }

  lemma {:induction false} RunGrows(c: Channel, blocks: seq<Block>)
    ensures c.history <= AfterAll(c, blocks).history
    decreases |blocks|
  {
    if blocks == [] {
    } else {
      BlockReads(c, blocks[0].xs, blocks[0].knobs);
      RunGrows(After(c, blocks[0].xs, blocks[0].knobs), blocks[1..]);
    }
  }

  lemma AfterSplit(c: Channel, blocks: seq<Block>, n: nat)
    requires 0 < n <= |blocks|
    ensures AfterAll(c, blocks[..n]) == AfterAll(After(c, blocks[0].xs, blocks[0].knobs), blocks[1..][..n - 1])
  {
    assert blocks[..n][1..] == blocks[1..][..n - 1];
  }

  /** The output of block `n`, sample by sample, against the line the whole run writes. */
  ghost predicate BlockReadsBack(c: Channel, line: seq<F32>, b: Block) {
    forall i | 0 <= i < |b.xs| :: ReadsBack(line, |c.history| + i, b.xs[i], Output(c, b.xs, b.knobs)[i], b.knobs)
  }

  lemma FirstBlockReads(c: Channel, b: Block, line: seq<F32>)
    requires After(c, b.xs, b.knobs).history <= line
    ensures BlockReadsBack(c, line, b)
  {
    BlockReads(c, b.xs, b.knobs);
    var written := After(c, b.xs, b.knobs).history;
    forall i | 0 <= i < |b.xs| ensures ReadsBack(line, |c.history| + i, b.xs[i], Output(c, b.xs, b.knobs)[i], b.knobs) {
      assert ReadsBack(written, |c.history| + i, b.xs[i], Output(c, b.xs, b.knobs)[i], b.knobs);
    }
  }

  /** However the delay changes between blocks, every block reads the one line the whole run writes. */
  lemma {:induction false} RunReads(c: Channel, blocks: seq<Block>, n: nat)
    requires n < |blocks|
    ensures BlockReadsBack(AfterAll(c, blocks[..n]), AfterAll(c, blocks).history, blocks[n])
    decreases n
  {
    var next := After(c, blocks[0].xs, blocks[0].knobs);
    if n > 0 {
      AfterSplit(c, blocks, n);
      RunReads(next, blocks[1..], n - 1);
    } else {
      RunGrows(next, blocks[1..]);
      FirstBlockReads(c, blocks[0], AfterAll(c, blocks).history);
    }
  }

  /**
    * One sample of a channel: the low-pass takes in what was written `delay` samples before, and the input
    * goes onto the line with the low-pass's output fed back.
    */
  lemma SampleFeedsBack(c: Channel, x: F32, k: Knobs)
    ensures var delayed := if 1 <= k.delay <= |c.history| then c.history[|c.history| - k.delay] else 0;
      var add, sub, mul := k.fpu.add, k.fpu.sub, k.fpu.mul;
      var low := add(c.low, mul(k.f, c.band));
      var band := add(c.band, mul(k.f, sub(sub(delayed, low), mul(k.q, c.band))));
      Step(c, x, k) == Channel(low, band, c.history + [add(x, mul(low, k.feedback))])
  {
  }

  /** A sample is heard dry and wet; before anything is written the wet part is of nothing. */
  lemma DryAndWet(c: Channel, x: F32, k: Knobs)
    ensures var delayed := if 1 <= k.delay <= |c.history| then c.history[|c.history| - k.delay] else 0;
      Heard(c, x, k) == k.fpu.add(k.fpu.mul(x, k.dry), k.fpu.mul(delayed, k.wet))
  {
  }

  /** No input is silence on both sides, one is on both, and of more the first two are left and right. */
  lemma InputsAre(audioIn: seq<seq<F32>>, frames: nat)
    requires forall c | 0 <= c < |audioIn| :: |audioIn[c]| == frames
    ensures |audioIn| == 0 ==>
      forall i | 0 <= i < frames :: LeftIn(audioIn, frames)[i] == 0 && RightIn(audioIn, frames)[i] == 0
    ensures |audioIn| == 1 ==> LeftIn(audioIn, frames) == audioIn[0] && RightIn(audioIn, frames) == audioIn[0]
    ensures |audioIn| >= 2 ==> LeftIn(audioIn, frames) == audioIn[0] && RightIn(audioIn, frames) == audioIn[1]
  {
  }

  /** Only the delay is changed, to the nearest one that the buffer is long enough for. */
  lemma NearestDelay(k: Knobs, maxLen: nat)
    requires maxLen >= 2
    ensures var d := if k.delay == 0 then 1 else if k.delay >= maxLen then maxLen - 1 else k.delay;
      Settled(k, maxLen) == Knobs(k.fpu, d, k.feedback, k.wet, k.dry, k.f, k.q)
  {
  }
}
