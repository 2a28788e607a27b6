/** Switching a drum voice's machine behind a gain ramp. Gains are numerators over the ramp length. */
module MachineSwitch {
  import opened Wrappers

  datatype Machine = Kick | Snare | HiHat

  function FromValue(v: nat): Machine {
    if v == 0 then Kick else if v == 1 then Snare else HiHat
  }

  /** The machine a `machine` value selects: by its whole part, the first below zero and the last above two. */
  function Selected(value: real): (m: Machine)
    ensures value < 1.0 ==> m == Kick
    ensures 1.0 <= value < 2.0 ==> m == Snare
    ensures 2.0 <= value ==> m == HiHat
  {
    FromValue(if value < 0.0 then 0 else value.Floor)
  }

  /** The ramp's length at a sample rate: the whole samples of five milliseconds, and never none. */
  function RampLength(sampleRate: real): (n: nat)
    ensures n >= 1
    ensures sampleRate >= 200.0 ==> n as real <= 0.005 * sampleRate < n as real + 1.0
    ensures sampleRate < 200.0 ==> n == 1
  {
    var samples := 0.005 * sampleRate;
    if samples < 1.0 then 1 else samples.Floor
  }

  lemma ProductPositive(a: real, b: real)
    requires a > 0.0 && b > 0.0
    ensures a * b > 0.0
  {
  }

  lemma ProductNotNegative(a: real, b: real)
    requires a >= 0.0 && b >= 0.0
    ensures a * b >= 0.0
  {
  }

  lemma Quotients(a: real, b: real, c: real)
    requires c > 0.0 && a <= 0.005 * c < b
    ensures a / c <= 0.005 < b / c
  {
    var q, r := a / c, b / c;
    assert q * c == a && r * c == b;
    if q > 0.005 { ProductPositive(q - 0.005, c); }
    if r <= 0.005 { ProductNotNegative(0.005 - r, c); }
  }

  /** The ramp lasts at most five milliseconds, and a sample more would last longer. */
  lemma RampLasts(sampleRate: real)
    requires sampleRate >= 200.0
    ensures RampLength(sampleRate) as real / sampleRate <= 0.005 < (RampLength(sampleRate) + 1) as real / sampleRate
  {
    var n := RampLength(sampleRate);
    Quotients(n as real, (n + 1) as real, sampleRate);
  }

  /** `target` is where a fade-out leads; a ramp without one is a cancelled switch on its way back up. */
  datatype Fade = Fade(remaining: nat, target: Option<Machine>)

  datatype Voice = Voice(machine: Machine, fade: Option<Fade>, active: bool)

  function AtLeastOne(n: int): nat { if n < 1 then 1 else n }

  function Monus(a: nat, b: nat): nat { if a >= b then a - b else 0 }

  function Min(a: nat, b: nat): nat { if a <= b then a else b }

  function Switched(v: Voice, target: Machine): Voice {
    Voice(target, None, false)
  }

  /** The block-boundary look at the `machine` param. */
  function Polled(v: Voice, target: Machine, total: nat): Voice {
    if target == v.machine then
      if v.fade.Some? && v.fade.value.target.Some?
      then v.(fade := Some(Fade(AtLeastOne(Monus(total, v.fade.value.remaining)), None)))
      else v
    else if v.fade.Some? && v.fade.value.target == Some(target) then v
    else if !v.active then Switched(v, target)
    else
      var remaining := match v.fade
        case Some(f) => if f.target.Some? then Min(f.remaining, total) else AtLeastOne(Monus(total, f.remaining))
        case None => total;
      v.(fade := Some(Fade(remaining, Some(target))))
  }

  /** The gain of the i-th sample of a block, over `total`. */
  function Gain(fade: Option<Fade>, total: nat, i: nat): int {
    match fade
    case None => total
    case Some(f) => if f.target.Some? then Monus(f.remaining, i) else total - Monus(f.remaining, i)
  }

  /** What the ramp makes of one sample with `left` samples of it to run. */
  function RampedSample(x: real, fadingOut: bool, left: nat, total: nat): real
    requires total >= 1
  {
    if left == 0 then (if fadingOut then 0.0 else x)
    else x * (if fadingOut then left as real / total as real else 1.0 - left as real / total as real)
  }

  /** A buffer with the ramp applied to its first n samples. */
  function Scaled(samples: seq<real>, fade: Fade, total: nat, n: nat): (r: seq<real>)
    requires total >= 1 && n <= |samples|
    ensures |r| == |samples|
  {
    seq(|samples|, i requires 0 <= i < |samples| =>
      if i < n then RampedSample(samples[i], fade.target.Some?, Monus(fade.remaining, i), total) else samples[i])
  }

  lemma ComplementOf(left: real, total: real)
    requires total > 0.0
    ensures (total - left) / total == 1.0 - left / total
  {
    var q, r := left / total, (total - left) / total;
    assert q * total == left && r * total == total - left;
    var d := r - (1.0 - q);
    assert d * total == 0.0;
    if d > 0.0 { ProductPositive(d, total); } else if d < 0.0 { ProductPositive(-d, total); }
  }

  /** The ramp multiplies each sample by its gain over the ramp's length. */
  lemma ScaledByGain(samples: seq<real>, f: Fade, total: nat, n: nat, i: nat)
    requires total >= 1 && i < n <= |samples|
    ensures Scaled(samples, f, total, n)[i] == samples[i] * (Gain(Some(f), total, i) as real / total as real)
  {
    ComplementOf(Monus(f.remaining, i) as real, total as real);
    assert samples[i] * 0.0 == 0.0;
  }

  /** The voice after n ramped samples. */
  function Ramped(v: Voice, n: nat): Voice {
    match v.fade
    case None => v
    case Some(f) =>
      if n < f.remaining then v.(fade := Some(f.(remaining := f.remaining - n)))
      else if f.target.Some? then Switched(v, f.target.value)
      else v.(fade := None)
  }

  class Engine {
    var machine: Machine
    var switchFade: Option<Fade>
    var active: bool
    var sampleRate: real
    var machineParam: real
    const renderL: array<real>
    const renderR: array<real>

    constructor (machine: Machine, sampleRate: real, blockSize: nat)
      ensures Value() == Voice(machine, None, false)
      ensures renderL != renderR && fresh(renderL) && fresh(renderR) && renderL.Length == renderR.Length == blockSize
    {
      this.machine, switchFade, active, this.sampleRate := machine, None, false, sampleRate;
      machineParam := match machine case Kick => 0.0 case Snare => 1.0 case HiHat => 2.0;
      renderL := new real[blockSize](_ => 0.0);
      renderR := new real[blockSize](_ => 0.0);
    }

    function Value(): Voice
      reads this
    {
      Voice(machine, switchFade, active)
    }

    function FadeLen(): (n: nat)
      reads this
      ensures n == RampLength(sampleRate)
    {
      RampLength(sampleRate)
    }

    function Target(): (m: Machine)
      reads this
      ensures m == Selected(machineParam)
    {
      Selected(machineParam)
    }

    method PollMachineParam()
      modifies this`machine, this`switchFade, this`active
      ensures Value() == Polled(old(Value()), old(Target()), old(FadeLen()))
    {
      var target := Target();
      var total := FadeLen();
      if target == machine {
        if switchFade.Some? && switchFade.value.target.Some? {
          switchFade := Some(Fade(AtLeastOne(Monus(total, switchFade.value.remaining)), None));
        }
        return;
      }
      if switchFade.Some? && switchFade.value.target == Some(target) {
        return;
      }
      if !active {
        ApplyMachineSwitch(target);
        switchFade := None;
        return;
      }
      var remaining := match switchFade
        case Some(f) => if f.target.Some? then Min(f.remaining, total) else AtLeastOne(Monus(total, f.remaining))
        case None => total;
      switchFade := Some(Fade(remaining, Some(target)));
    }

    /** Resets the voice; the bank is not touched. */
    method ApplyMachineSwitch(target: Machine)
      modifies this`machine, this`active
      ensures machine == target && !active
    {
      machine := target;
      active := false;
    }

    /** Scales the first n samples of both channels; returns the ramp samples left. */
    method RampBuffers(fade: Fade, total: nat, n: nat) returns (left: nat)
      requires renderL.Length == renderR.Length >= n && renderL != renderR && total >= 1
      modifies renderL, renderR
      ensures renderL[..] == Scaled(old(renderL[..]), fade, total, n)
      ensures renderR[..] == Scaled(old(renderR[..]), fade, total, n)
      ensures left == Monus(fade.remaining, n)
    {
      left := fade.remaining;
      ghost var l0, r0 := renderL[..], renderR[..];
      for i := 0 to n
        invariant left == Monus(fade.remaining, i)
        invariant renderL[..] == Scaled(l0, fade, total, i) && renderR[..] == Scaled(r0, fade, total, i)
      {
        renderL[i] := RampedSample(renderL[i], fade.target.Some?, left, total);
        renderR[i] := RampedSample(renderR[i], fade.target.Some?, left, total);
        if left > 0 {
          left := left - 1;
        }
      }
    }

    method ApplySwitchFade(blockSize: nat)
      requires renderL.Length == renderR.Length && renderL != renderR
      modifies this`machine, this`switchFade, this`active, renderL, renderR
      ensures var n := Min(blockSize, renderL.Length);
        && Value() == Ramped(old(Value()), n)
        && (old(switchFade).None? ==> renderL[..] == old(renderL[..]) && renderR[..] == old(renderR[..]))
        && (old(switchFade).Some? ==> renderL[..] == Scaled(old(renderL[..]), old(switchFade).value, old(FadeLen()), n))
        && (old(switchFade).Some? ==> renderR[..] == Scaled(old(renderR[..]), old(switchFade).value, old(FadeLen()), n))
    {
      if switchFade.None? {
        return;
      }
      var fade := switchFade.value;
      var left := RampBuffers(fade, FadeLen(), Min(blockSize, renderL.Length));
      if left == 0 {
        if fade.target.Some? {
          ApplyMachineSwitch(fade.target.value);
        }
        switchFade := None;
      } else {
        switchFade := Some(Fade(left, fade.target));
      }
    }
  }

  // ── Runs ───────────────────────────────────────────────────────────────────

  /** One block: the polled target, whether the voice sounds at the poll, and how many samples are ramped. */
  datatype Block = Block(target: Machine, sounding: bool, samples: nat)

  /** What a run leaves behind: each sample's gain, and where the machine was swapped. */
  datatype Mark = Applied(gain: int) | Swapped

  function AtPoll(v: Voice, b: Block): Voice { v.(active := b.sounding) }

  function AfterPoll(v: Voice, b: Block, total: nat): Voice { Polled(AtPoll(v, b), b.target, total) }

  function AfterBlock(v: Voice, b: Block, total: nat): Voice { Ramped(AfterPoll(v, b, total), b.samples) }

  function Gains(fade: Option<Fade>, total: nat, n: nat): seq<Mark> {
    seq(n, i requires 0 <= i < n => Applied(Gain(fade, total, i)))
  }

  function RampMarks(p: Voice, total: nat, n: nat): seq<Mark> {
    Gains(p.fade, total, n) + (if Ramped(p, n).machine != p.machine then [Swapped] else [])
  }

  function BlockMarks(v: Voice, b: Block, total: nat): seq<Mark> {
    var p := AfterPoll(v, b, total);
    (if p.machine != v.machine then [Swapped] else [])
      + RampMarks(p, total, b.samples)
  }

  function AfterRun(v: Voice, bs: seq<Block>, total: nat): Voice {
    if bs == [] then v else AfterBlock(AfterRun(v, bs[..|bs| - 1], total), bs[|bs| - 1], total)
  }

  function RunMarks(v: Voice, bs: seq<Block>, total: nat): seq<Mark> {
    if bs == [] then [Applied(total)]
    else
      var before := bs[..|bs| - 1];
      RunMarks(v, before, total) + BlockMarks(AfterRun(v, before, total), bs[|bs| - 1], total)
  }

  predicate Near(a: Mark, b: Mark) {
    a.Applied? && b.Applied? ==> -1 <= a.gain - b.gain <= 1
  }

  ghost predicate Smooth(marks: seq<Mark>) {
    forall i | 0 <= i < |marks| - 1 :: Near(marks[i], marks[i + 1])
  }

  /** The ramp is in range, and the next gain it will apply is one step at most from the last. */
  ghost predicate Ready(v: Voice, total: nat, last: Mark) {
    && (v.fade.Some? ==> 1 <= v.fade.value.remaining <= total)
    && (v.fade.Some? && v.fade.value.target.Some? ==> v.fade.value.target != Some(v.machine))
    && (last.Applied? ==> 0 <= last.gain <= total)
    && Near(last, Applied(Gain(v.fade, total, 0)))
  }

  lemma PollReady(v: Voice, b: Block, total: nat, last: Mark)
    requires total >= 1 && Ready(v, total, last)
    ensures var p := AfterPoll(v, b, total);
      Ready(p, total, if p.machine != v.machine then Swapped else last)
  {
  }

  lemma RampReady(p: Voice, total: nat, n: nat, last: Mark)
    requires total >= 1 && Ready(p, total, last)
    ensures Smooth([last] + Gains(p.fade, total, n))
    ensures var r := Ramped(p, n);
      Ready(r, total, if r.machine != p.machine then Swapped else ([last] + Gains(p.fade, total, n))[n])
  {
    var marks := [last] + Gains(p.fade, total, n);
    forall i | 0 <= i < n ensures Near(marks[i], marks[i + 1]) {
    }
  }

  lemma SmoothJoin(a: seq<Mark>, b: seq<Mark>)
    requires |a| > 0 && Smooth(a) && Smooth([a[|a| - 1]] + b)
    ensures Smooth(a + b)
  {
    var ab := a + b;
    forall i | 0 <= i < |ab| - 1 ensures Near(ab[i], ab[i + 1]) {
      if i >= |a| - 1 {
        var j := i - (|a| - 1);
        assert ab[i] == ([a[|a| - 1]] + b)[j] && ab[i + 1] == ([a[|a| - 1]] + b)[j + 1];
      }
    }
  }

  lemma SmoothSwap(a: seq<Mark>)
    requires Smooth(a)
    ensures Smooth(a + [Swapped])
  {
  }

  lemma RampSmooth(p: Voice, total: nat, n: nat, marks: seq<Mark>)
    requires total >= 1 && |marks| > 0 && Smooth(marks) && Ready(p, total, marks[|marks| - 1])
    ensures var r := marks + RampMarks(p, total, n);
      |r| > 0 && Smooth(r) && Ready(Ramped(p, n), total, r[|r| - 1])
  {
    var gains := Gains(p.fade, total, n);
    RampReady(p, total, n, marks[|marks| - 1]);
    SmoothJoin(marks, gains);
    var m := marks + gains;
    assert m[|m| - 1] == ([marks[|marks| - 1]] + gains)[n];
    SmoothSwap(m);
    if Ramped(p, n).machine != p.machine {
      assert marks + RampMarks(p, total, n) == m + [Swapped];
    } else {
      assert marks + RampMarks(p, total, n) == m;
    }
  }

  lemma MarksJoin(v: Voice, b: Block, total: nat, marks: seq<Mark>)
    ensures var p := AfterPoll(v, b, total);
      (if p.machine != v.machine then marks + [Swapped] else marks) + RampMarks(p, total, b.samples)
        == marks + BlockMarks(v, b, total)
  {
  }

  lemma BlockSmooth(v: Voice, b: Block, total: nat, marks: seq<Mark>)
    requires total >= 1 && |marks| > 0 && Smooth(marks) && Ready(v, total, marks[|marks| - 1])
    ensures var r := marks + BlockMarks(v, b, total);
      |r| > 0 && Smooth(r) && Ready(AfterBlock(v, b, total), total, r[|r| - 1])
  {
    var p := AfterPoll(v, b, total);
    var polled := if p.machine != v.machine then marks + [Swapped] else marks;
    assert Smooth(polled) && Ready(p, total, polled[|polled| - 1]) by {
      PollReady(v, b, total, marks[|marks| - 1]);
      SmoothSwap(marks);
    }
    assert polled + RampMarks(p, total, b.samples) == marks + BlockMarks(v, b, total) by {
      MarksJoin(v, b, total, marks);
    }
    RampSmooth(p, total, b.samples, polled);
  }

  /**
    * Over any run of polls and blocks of any size, two samples in a row with no swap between them differ
    * by at most one step of the ramp, however often the switch is retargeted, cancelled or taken up again.
    */
  lemma {:induction false} ClickFree(machine: Machine, active: bool, bs: seq<Block>, total: nat)
    requires total >= 1
    ensures var v := Voice(machine, None, active);
      var marks := RunMarks(v, bs, total);
      |marks| > 0 && Smooth(marks) && Ready(AfterRun(v, bs, total), total, marks[|marks| - 1])
    decreases |bs|
  {
    var v := Voice(machine, None, active);
    if bs == [] {
    } else {
      var before, last := bs[..|bs| - 1], bs[|bs| - 1];
      var now, marks := AfterRun(v, before, total), RunMarks(v, before, total);
      assert |marks| > 0 && Smooth(marks) && Ready(now, total, marks[|marks| - 1]) by {
        ClickFree(machine, active, before, total);
      }
      var all := marks + BlockMarks(now, last, total);
      assert |all| > 0 && Smooth(all) && Ready(AfterBlock(now, last, total), total, all[|all| - 1]) by {
        BlockSmooth(now, last, total, marks);
      }
    }
  }

  /** The ramp swaps at the end of a block whose last sample it took down to its last step or to nothing. */
  lemma RampSwaps(p: Voice, total: nat, n: nat)
    requires p.fade.Some? ==> 1 <= p.fade.value.remaining
    requires Ramped(p, n).machine != p.machine
    ensures n >= 1 && p.fade.Some? && p.fade.value.target == Some(Ramped(p, n).machine)
    ensures 0 <= Gain(p.fade, total, n - 1) <= 1 && Gain(p.fade, total, n) == 0
    ensures RampMarks(p, total, n) == Gains(p.fade, total, n - 1) + [Applied(Gain(p.fade, total, n - 1)), Swapped]
  {
    assert Gains(p.fade, total, n) == Gains(p.fade, total, n - 1) + [Applied(Gain(p.fade, total, n - 1))];
  }

  /** A swap right after a sample whose gain is nothing, or one step of the ramp. */
  predicate SwappedFromSilence(marks: seq<Mark>) {
    var n := |marks|;
    n >= 2 && marks[n - 1] == Swapped && marks[n - 2].Applied? && 0 <= marks[n - 2].gain <= 1
  }

  lemma PollTargets(v: Voice, b: Block, total: nat)
    ensures var p := AfterPoll(v, b, total);
      && (p.machine != v.machine ==> !b.sounding && p == Switched(v, b.target))
      && (p.fade.Some? && p.fade.value.target.Some? ==> p.fade.value.target == Some(b.target))
  {
  }

  /**
    * In every run a machine is swapped at a poll only when the voice is silent, and in a block only after
    * a last sample whose gain is at most one step of the ramp; always to the polled target, and the voice
    * is off then.
    */
  lemma SwapsInSilence(machine: Machine, active: bool, bs: seq<Block>, n: nat, total: nat)
    requires total >= 1 && n < |bs|
    ensures var v := AfterRun(Voice(machine, None, active), bs[..n], total);
      var p, r := AfterPoll(v, bs[n], total), AfterBlock(v, bs[n], total);
      var marks := RunMarks(Voice(machine, None, active), bs[..n + 1], total);
      && (p.machine != v.machine ==> !bs[n].sounding)
      && (r.machine != v.machine ==> r == Voice(bs[n].target, None, false))
      && (r.machine != p.machine ==> SwappedFromSilence(marks))
  {
    var start := Voice(machine, None, active);
    var v := AfterRun(start, bs[..n], total);
    var p, r := AfterPoll(v, bs[n], total), AfterBlock(v, bs[n], total);
    var before := RunMarks(start, bs[..n], total);
    assert bs[..n + 1][..n] == bs[..n];
    PollTargets(v, bs[n], total);
    assert Ready(p, total, if p.machine != v.machine then Swapped else before[|before| - 1]) by {
      ClickFree(machine, active, bs[..n], total);
      PollReady(v, bs[n], total, before[|before| - 1]);
    }
    if r.machine != p.machine {
      RampSwaps(p, total, bs[n].samples);
    }
  }

  // ── A target left alone ────────────────────────────────────────────────────

  function Samples(bs: seq<Block>): nat {
    if bs == [] then 0 else Samples(bs[..|bs| - 1]) + bs[|bs| - 1].samples
  }

  /** Once fading to a target that stays put, the swap comes exactly when the ramp's samples have been played. */
  lemma {:induction false} SteadyTarget(v: Voice, target: Machine, bs: seq<Block>, total: nat)
    requires v.fade.Some? && v.fade.value.target == Some(target) && target != v.machine && v.fade.value.remaining >= 1
    requires forall i | 0 <= i < |bs| :: bs[i].target == target
    ensures var r := AfterRun(v, bs, total);
      if Samples(bs) < v.fade.value.remaining
      then r.machine == v.machine && r.fade == Some(Fade(v.fade.value.remaining - Samples(bs), Some(target)))
      else r.machine == target && r.fade == None
    decreases |bs|
  {
    if bs == [] {
    } else {
      SteadyTarget(v, target, bs[..|bs| - 1], total);
    }
  }

  lemma FirstBlockPolledTwice(v: Voice, first: Block, total: nat)
    requires total >= 1 && first.sounding && first.target != v.machine
    ensures AfterRun(v, [first], total) == AfterRun(AfterPoll(v, first, total), [first], total)
  {
    assert [first][..0] == [];
    assert AfterPoll(AfterPoll(v, first, total), first, total) == AfterPoll(v, first, total);
  }

  /** Polling the same target again changes nothing, so the first block may as well start from its own poll. */
  lemma {:induction false} FirstPollTwice(v: Voice, first: Block, rest: seq<Block>, total: nat)
    requires total >= 1 && first.sounding && first.target != v.machine
    ensures AfterRun(v, [first] + rest, total) == AfterRun(AfterPoll(v, first, total), [first] + rest, total)
    decreases |rest|
  {
    if rest == [] {
      assert [first] + rest == [first];
      FirstBlockPolledTwice(v, first, total);
    } else {
      var front := rest[..|rest| - 1];
      FirstPollTwice(v, first, front, total);
      assert ([first] + rest)[..|rest|] == [first] + front;
    }
  }

  /** So a target written to a sounding voice and left alone is on within one ramp length, and not at once. */
  lemma SwappedWithinTheRamp(v: Voice, first: Block, rest: seq<Block>, total: nat)
    requires total >= 1 && first.sounding && first.target != v.machine
    requires v.fade.Some? ==> 1 <= v.fade.value.remaining <= total
    requires forall i | 0 <= i < |rest| :: rest[i].target == first.target
    ensures var r := AfterRun(v, [first] + rest, total);
      && (Samples([first] + rest) >= total ==> r.machine == first.target && r.fade == None)
      && (Samples([first] + rest) == 0 ==> r.machine == v.machine)
  {
    var p := AfterPoll(v, first, total);
    SteadyTarget(p, first.target, [first] + rest, total);
    FirstPollTwice(v, first, rest, total);
  }

  // ── The engine at its own rate ─────────────────────────────────────────────

  /** One block as the host gives it: the `machine` value, whether the voice sounds, and the samples. */
  datatype Turn = Turn(param: real, sounding: bool, samples: nat)

  function BlockOf(turn: Turn, room: nat): Block {
    Block(Selected(turn.param), turn.sounding, Min(turn.samples, room))
  }

  function Blocks(turns: seq<Turn>, room: nat): (bs: seq<Block>)
    ensures |bs| == |turns|
  {
    seq(|turns|, i requires 0 <= i < |turns| => BlockOf(turns[i], room))
  }

  /** Each sample of a block comes out multiplied by its gain over the ramp's length. */
  ghost predicate PlayedAt(before: seq<real>, after: seq<real>, fade: Option<Fade>, total: nat, n: nat)
    requires total >= 1
  {
    |after| == |before| >= n && forall i | 0 <= i < n ::
      after[i] == before[i] * (Gain(fade, total, i) as real / total as real)
  }

  lemma RampPlays(before: seq<real>, f: Fade, total: nat, n: nat)
    requires total >= 1 && n <= |before|
    ensures PlayedAt(before, Scaled(before, f, total, n), Some(f), total, n)
  {
    forall i | 0 <= i < n
      ensures Scaled(before, f, total, n)[i] == before[i] * (Gain(Some(f), total, i) as real / total as real)
    {
      ScaledByGain(before, f, total, n, i);
    }
  }

  lemma NoRampPlays(before: seq<real>, total: nat, n: nat)
    requires total >= 1 && n <= |before|
    ensures PlayedAt(before, before, None, total, n)
  {
    var t := total as real;
    assert t / t == 1.0;
  }

  method PlayTurn(engine: Engine, turn: Turn)
    requires engine.renderL.Length == engine.renderR.Length && engine.renderL != engine.renderR
    modifies engine, engine.renderL, engine.renderR
    ensures engine.sampleRate == old(engine.sampleRate)
    ensures var b, total := BlockOf(turn, engine.renderL.Length), RampLength(engine.sampleRate);
      var p := AfterPoll(old(engine.Value()), b, total);
      && engine.Value() == AfterBlock(old(engine.Value()), b, total)
      && PlayedAt(old(engine.renderL[..]), engine.renderL[..], p.fade, total, b.samples)
      && PlayedAt(old(engine.renderR[..]), engine.renderR[..], p.fade, total, b.samples)
  {
    ghost var l, r := engine.renderL[..], engine.renderR[..];
    ghost var total, n := RampLength(engine.sampleRate), Min(turn.samples, engine.renderL.Length);
    engine.machineParam, engine.active := turn.param, turn.sounding;
    engine.PollMachineParam();
    ghost var fade := engine.switchFade;
    engine.ApplySwitchFade(turn.samples);
    if fade.Some? {
      RampPlays(l, fade.value, total, n);
      RampPlays(r, fade.value, total, n);
    } else {
      NoRampPlays(l, total, n);
      NoRampPlays(r, total, n);
    }
  }

  method PlayTurns(engine: Engine, turns: seq<Turn>)
    requires engine.renderL.Length == engine.renderR.Length && engine.renderL != engine.renderR
    modifies engine, engine.renderL, engine.renderR
    ensures engine.sampleRate == old(engine.sampleRate)
    ensures engine.Value()
         == AfterRun(old(engine.Value()), Blocks(turns, engine.renderL.Length), RampLength(engine.sampleRate))
  {
    ghost var v, bs, total := engine.Value(), Blocks(turns, engine.renderL.Length), RampLength(engine.sampleRate);
    for n := 0 to |turns|
      invariant engine.sampleRate == old(engine.sampleRate)
      invariant engine.Value() == AfterRun(v, bs[..n], total)
    {
      assert bs[..n + 1][..n] == bs[..n];
      PlayTurn(engine, turns[n]);
    }
    assert bs[..|turns|] == bs;
  }

  /**
    * At the engine's own rate: every gain is a whole number of parts of the ramp, of which there are the
    * samples of five milliseconds, and two samples in a row with no swap between them are one part apart
    * at most.
    */
  lemma ClickFreeAtRate(sampleRate: real, machine: Machine, active: bool, turns: seq<Turn>, room: nat, i: nat)
    requires sampleRate >= 200.0
    requires var marks := RunMarks(Voice(machine, None, active), Blocks(turns, room), RampLength(sampleRate));
      i + 1 < |marks| && marks[i].Applied? && marks[i + 1].Applied?
    ensures var n := RampLength(sampleRate);
      var marks := RunMarks(Voice(machine, None, active), Blocks(turns, room), n);
      && n as real <= 0.005 * sampleRate < n as real + 1.0
      && -1 <= marks[i].gain - marks[i + 1].gain <= 1
  {
    ClickFree(machine, active, Blocks(turns, room), RampLength(sampleRate));
    assert Near(RunMarks(Voice(machine, None, active), Blocks(turns, room), RampLength(sampleRate))[i],
                RunMarks(Voice(machine, None, active), Blocks(turns, room), RampLength(sampleRate))[i + 1]);
  }

  /** A silent voice takes a machine at once, unless it is on its way there already. */
  lemma SilentVoiceSnaps(v: Voice, b: Block, total: nat)
    requires !b.sounding && b.target != v.machine
    requires !(v.fade.Some? && v.fade.value.target == Some(b.target))
    ensures AfterPoll(v, b, total) == Voice(b.target, None, false)
  {
  }

  lemma {:induction false} SteadyMachine(v: Voice, bs: seq<Block>, total: nat)
    requires v.fade.Some? && v.fade.value.target == None && v.fade.value.remaining >= 1
    requires forall i | 0 <= i < |bs| :: bs[i].target == v.machine
    ensures var r := AfterRun(v, bs, total);
      && r.machine == v.machine
      && r.fade == (if Samples(bs) < v.fade.value.remaining
                    then Some(Fade(v.fade.value.remaining - Samples(bs), None)) else None)
    decreases |bs|
  {
    if bs == [] {
    } else {
      SteadyMachine(v, bs[..|bs| - 1], total);
    }
  }

  /**
    * A switch called off: the gain climbs from where it was, and is full again, with the machine as it was,
    * within one ramp length.
    */
  lemma CancelRestores(v: Voice, first: Block, rest: seq<Block>, total: nat)
    requires total >= 1 && first.target == v.machine
    requires v.fade.Some? && v.fade.value.target.Some? && 1 <= v.fade.value.remaining <= total
    requires forall i | 0 <= i < |rest| :: rest[i].target == v.machine
    ensures var p, r := AfterPoll(v, first, total), AfterRun(AfterPoll(v, first, total), [first] + rest, total);
      && -1 <= Gain(p.fade, total, 0) - Gain(v.fade, total, 0) <= 1
      && r.machine == v.machine && (Samples([first] + rest) >= total ==> r.fade == None)
  {
    SteadyMachine(AfterPoll(v, first, total), [first] + rest, total);
  }
}
