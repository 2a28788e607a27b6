/** The host's transport, translated to bars, beats and ticks, and its start and stop edges. */
module Transport {
  import opened Wrappers

  const HAS_BEATS_TIMELINE: bv32 := 0x2
  const IS_PLAYING: bv32 := 0x10
  const IS_RECORDING: bv32 := 0x20
  const IS_LOOP_ACTIVE: bv32 := 0x40

  /** A host beat in fixed point. */
  const BEAT: int := 0x8000_0000
  /** Positions up to this convert to a double exactly. */
  const EXACT: int := 0x20_0000_0000_0000
  const I64: int := 0x8000_0000_0000_0000
  const TICKS_PER_BEAT: nat := 960

  datatype Flags = Flags(playing: bool, recording: bool, looping: bool, loopStart: bool, loopEnd: bool, stop: bool,
    rewind: bool)

  const NO_FLAGS: Flags := Flags(false, false, false, false, false, false, false)

  datatype Info = Info(bar: int, beat: nat, tick: nat, bpm: real, playing: bool, recording: bool, looping: bool)
  datatype TransportEvent = TransportEvent(bar: int, beat: nat, tick: nat, bpm: real, flags: Flags)

  const STOPPED: Info := Info(1, 0, 0, 120.0, false, false, false)

  function AtLeastZero(x: real): real { if x < 0.0 then 0.0 else x }

  /** A beat position as bar, beat and tick, in 4/4; before the start is the start. */
  function Position(beats: real): (p: (int, nat, nat))
  {
    var whole := AtLeastZero(beats).Floor;
    var part := AtLeastZero(beats - whole as real);
    (whole / 4 + 1, whole % 4, (part * 960.0).Floor)
  }

  /**
    * `toDouble` is the conversion of a 64-bit integer, which rounds to an integer a double can hold;
    * everything after it is exact.
    */
  function BeatsOf(songPos: int, toDouble: int -> int): real {
    toDouble(songPos) as real / 2147483648.0
  }

  function TranslateTransport(flags: bv32, tempo: real, songPos: int, prevPlaying: bool,
      toDouble: int -> int): (Info, Option<TransportEvent>) {
    var playing := flags & IS_PLAYING != 0;
    var recording := flags & IS_RECORDING != 0;
    var looping := flags & IS_LOOP_ACTIVE != 0;
    var (bar, beat, tick) := if flags & HAS_BEATS_TIMELINE != 0 then Position(BeatsOf(songPos, toDouble)) else (1, 0,
      0);
    var event :=
      if !prevPlaying && playing then
        Some(TransportEvent(bar, beat, tick, tempo, NO_FLAGS.(playing := playing, recording := recording,
          looping := looping, rewind := true)))
      else if prevPlaying && !playing then
        Some(TransportEvent(bar, beat, tick, tempo, NO_FLAGS.(stop := true)))
      else None;
    (Info(bar, beat, tick, tempo, playing, recording, looping), event)
  }

  function TransitionEvent(transport: Info, prevPlaying: bool): Option<TransportEvent> {
    if !prevPlaying && transport.playing then
      Some(TransportEvent(1, 0, 0, transport.bpm, NO_FLAGS.(rewind := true, playing := true)))
    else if prevPlaying && !transport.playing then
      Some(TransportEvent(1, 0, 0, transport.bpm, NO_FLAGS.(stop := true)))
    else None
  }

  // ── Arithmetic ─────────────────────────────────────────────────────────────

  /** The position in ticks from the start. */
  function Ticks(p: (int, nat, nat)): int { ((p.0 - 1) * 4 + p.1) * TICKS_PER_BEAT + p.2 }

  /** Exact in the middle, in order everywhere, and within the range. */
  ghost predicate Rounds(toDouble: int -> int) {
    && (forall n | -EXACT <= n <= EXACT :: toDouble(n) == n)
    && (forall a, b | -I64 <= a <= b < I64 :: -I64 <= toDouble(a) <= toDouble(b) <= I64)
  }

  /**
    * Of every converted position: the ticks rounded down, or the start for what comes before it, with no cast
    * cutting anything off.
    */
  lemma ConvertedInTicks(songPos: int, toDouble: int -> int)
    requires toDouble(songPos) <= I64
    ensures var p, r := Position(BeatsOf(songPos, toDouble)), toDouble(songPos);
            && Ticks(p) == (if r < 0 then 0 else r * TICKS_PER_BEAT / BEAT)
            && 1 <= p.0 <= 0x4000_0001 && p.1 < 4 && p.2 < TICKS_PER_BEAT
  {
  }

  /** Bar, beat and tick together are the position in ticks, rounded down; before the song is its start. */
  lemma PositionInTicks(songPos: int, toDouble: int -> int)
    requires Rounds(toDouble) && -EXACT <= songPos <= EXACT
    ensures var p := Position(BeatsOf(songPos, toDouble));
            && (songPos >= 0 ==> Ticks(p) == songPos * TICKS_PER_BEAT / BEAT && p.1 < 4 && p.2 < TICKS_PER_BEAT)
            && (songPos < 0 ==> p == (1, 0, 0))
  {
    ConvertedInTicks(songPos, toDouble);
  }

  predicate NotAfter(p: (int, nat, nat), q: (int, nat, nat)) {
    p.0 < q.0 || (p.0 == q.0 && (p.1 < q.1 || (p.1 == q.1 && p.2 <= q.2)))
  }

  lemma TicksOrder(p: (int, nat, nat), q: (int, nat, nat))
    requires p.1 < 4 && p.2 < TICKS_PER_BEAT && q.1 < 4 && q.2 < TICKS_PER_BEAT
    ensures Ticks(p) <= Ticks(q) <==> NotAfter(p, q)
  {
  }

  /** Over the whole 64-bit range, rounding included, a later position is never an earlier bar, beat and tick. */
  lemma PositionMonotone(a: int, b: int, toDouble: int -> int)
    requires Rounds(toDouble) && -I64 <= a <= b < I64
    ensures NotAfter(Position(BeatsOf(a, toDouble)), Position(BeatsOf(b, toDouble)))
  {
    ConvertedInTicks(a, toDouble);
    ConvertedInTicks(b, toDouble);
    TicksOrder(Position(BeatsOf(a, toDouble)), Position(BeatsOf(b, toDouble)));
  }

  // ── Blocks ─────────────────────────────────────────────────────────────────

  /** What the host says about its transport for one block; a host may say nothing. */
  datatype HostTransport = HostTransport(flags: bv32, tempo: real, songPos: int)

  predicate SaysPlaying(t: Option<HostTransport>) {
    t.Some? && t.value.flags & IS_PLAYING != 0
  }

  function Listed(e: Option<TransportEvent>): seq<TransportEvent> {
    if e.Some? then [e.value] else []
  }

  /** The events among what the executor was given. */
  function Emitted(given: seq<(Info, Option<TransportEvent>)>): seq<TransportEvent> {
    if given == [] then []
    else
      Emitted(given[..|given| - 1]) + Listed(given[|given| - 1].1)
  }

  lemma EmittedNext(given: seq<(Info, Option<TransportEvent>)>, block: (Info, Option<TransportEvent>))
    ensures Emitted(given + [block]) == Emitted(given) + Listed(block.1)
  {
    assert (given + [block])[..|given|] == given;
  }

  function PlayingAfter(step: HostStep): bool {
    step.Call? && SaysPlaying(step.transport)
  }

  /** What a block is given: a translated transport with its own edge, or a stopped one at the start. */
  function Block(prevPlaying: bool, t: Option<HostTransport>, toDouble: int -> int): (Info, Option<TransportEvent>) {
    if t.Some? then TranslateTransport(t.value.flags, t.value.tempo, t.value.songPos, prevPlaying, toDouble)
    else (STOPPED, TransitionEvent(STOPPED, prevPlaying))
  }

  function EventOf(playing: bool, step: HostStep, toDouble: int -> int): Option<TransportEvent> {
    match step
    case Call(t) => Block(playing, t, toDouble).1
    case Deactivate => None
  }

  /** The events of a run, in order, across all its activations. */
  function Events(playing: bool, steps: seq<HostStep>, toDouble: int -> int): seq<TransportEvent>
    decreases |steps|
  {
    if steps == [] then []
    else
      Listed(EventOf(playing, steps[0], toDouble)) + Events(PlayingAfter(steps[0]), steps[1..], toDouble)
  }

  lemma EventsUnfold(playing: bool, steps: seq<HostStep>, n: nat, toDouble: int -> int)
    requires n < |steps|
    ensures Events(playing, steps[n..], toDouble)
         == Listed(EventOf(playing, steps[n], toDouble)) + Events(PlayingAfter(steps[n]), steps[n + 1..], toDouble)
  {
    assert steps[n..][1..] == steps[n + 1..];
  }

  lemma EventsFrom(out: seq<TransportEvent>, playing: bool, steps: seq<HostStep>, n: nat, toDouble: int -> int)
    requires n < |steps|
    ensures out + Events(playing, steps[n..], toDouble)
         == (out + Listed(EventOf(playing, steps[n], toDouble)))
            + Events(PlayingAfter(steps[n]), steps[n + 1..], toDouble)
  {
    EventsUnfold(playing, steps, n, toDouble);
    var e, rest := Listed(EventOf(playing, steps[n], toDouble)), Events(PlayingAfter(steps[n]), steps[n + 1..],
      toDouble);
    assert out + (e + rest) == (out + e) + rest;
  }

  // ── Activations ────────────────────────────────────────────────────────────

  /** What a host does: one block, or the end of an activation. */
  datatype HostStep = Call(transport: Option<HostTransport>) | Deactivate

  predicate Rewinds(e: TransportEvent) { e.flags == e.flags.(rewind := true, playing := true, stop := false) }

  predicate Stops(e: TransportEvent) { e.flags == NO_FLAGS.(stop := true) }

  /** Rewinds and stops in turn, `rewindNext` saying which comes first. */
  predicate Alternates(es: seq<TransportEvent>, rewindNext: bool)
    decreases |es|
  {
    es == [] || ((if rewindNext then Rewinds(es[0]) else Stops(es[0])) && Alternates(es[1..], !rewindNext))
  }

  /** Whether it plays when step `i` comes. */
  function PlayingAt(playing: bool, steps: seq<HostStep>, i: nat): bool
    requires i <= |steps|
  {
    if i == 0 then playing else PlayingAfter(steps[i - 1])
  }

  class SubgraphPlugin {
    var prevPlaying: bool
    const toDouble: int -> int
    /** What the executor has been given, block by block. */
    ghost var given: seq<(Info, Option<TransportEvent>)>

    constructor (toDouble: int -> int)
      ensures !prevPlaying && given == [] && this.toDouble == toDouble
    {
      prevPlaying, given, this.toDouble := false, [], toDouble;
    }

    /** Ends an activation; no event goes out. */
    method Deactivate()
      modifies this`prevPlaying
      ensures !prevPlaying
    {
      prevPlaying := false;
    }

    method ProcessBlock(transport: Info, offered: Option<TransportEvent>)
      modifies this
      ensures prevPlaying == transport.playing
      ensures given == old(given) + [(transport, if offered.Some? then offered else TransitionEvent(transport,
        old(prevPlaying)))]
    {
      var event;
      match offered {
        case Some(_) =>
          prevPlaying := transport.playing;
          event := offered;
        case None =>
          event := TransitionEvent(transport, prevPlaying);
          prevPlaying := transport.playing;
      }
      given := given + [(transport, event)];
    }

    /** One host call. Computing the edge a second time never adds an event to a translated transport. */
    method Process(t: Option<HostTransport>)
      modifies this
      ensures prevPlaying == SaysPlaying(t)
      ensures given == old(given) + [Block(old(prevPlaying), t, toDouble)]
    {
      var info, event := STOPPED, None;
      if t.Some? {
        var (i, e) := TranslateTransport(t.value.flags, t.value.tempo, t.value.songPos, prevPlaying, toDouble);
        info, event := i, e;
      }
      ProcessBlock(info, event);
    }

    method Take(step: HostStep)
      modifies this
      ensures prevPlaying == PlayingAfter(step)
      ensures Emitted(given) == Emitted(old(given)) + Listed(EventOf(old(prevPlaying), step, toDouble))
    {
      match step {
        case Call(t) =>
          EmittedNext(given, Block(prevPlaying, t, toDouble));
          Process(t);
        case Deactivate =>
          Deactivate();
      }
    }

    /** A whole run of the host, across its activations. */
    method Drive(steps: seq<HostStep>)
      modifies this
      ensures prevPlaying == PlayingAt(old(prevPlaying), steps, |steps|)
      ensures Emitted(given) == Emitted(old(given)) + Events(old(prevPlaying), steps, toDouble)
    {
      ghost var start := Emitted(given);
      ghost var all := Events(prevPlaying, steps, toDouble);
      ghost var out: seq<TransportEvent> := [];
      for n := 0 to |steps|
        invariant prevPlaying == PlayingAt(old(prevPlaying), steps, n)
        invariant Emitted(given) == start + out
        invariant out + Events(prevPlaying, steps[n..], toDouble) == all
      {
        ghost var e := Listed(EventOf(prevPlaying, steps[n], toDouble));
        EventsFrom(out, prevPlaying, steps, n, toDouble);
        Take(steps[n]);
        out := out + e;
      }
    }
  }

  /** How often playing starts or stops, not counting deactivations. */
  function Edges(playing: bool, steps: seq<HostStep>): nat
    decreases |steps|
  {
    if steps == [] then 0
    else
      (if steps[0].Call? && PlayingAfter(steps[0]) != playing then 1 else 0) + Edges(PlayingAfter(steps[0]), steps[1..])
  }

  /** A block carries an event exactly when playing changes, and the one that says how. */
  lemma StepEdge(playing: bool, step: HostStep, toDouble: int -> int)
    ensures var e := EventOf(playing, step, toDouble);
            && (e.Some? <==> step.Call? && PlayingAfter(step) != playing)
            && (e.Some? ==> if playing then Stops(e.value) && !Rewinds(e.value)
                            else Rewinds(e.value) && !Stops(e.value))
  {
  }

  /** Whatever the host does, there is one event per start and stop it reports. */
  lemma {:induction false} EventPerEdge(playing: bool, steps: seq<HostStep>, toDouble: int -> int)
    ensures |Events(playing, steps, toDouble)| == Edges(playing, steps)
    decreases |steps|
  {
    if steps == [] {
    } else {
      StepEdge(playing, steps[0], toDouble);
      assert |Events(PlayingAfter(steps[0]), steps[1..], toDouble)| == Edges(PlayingAfter(steps[0]), steps[1..]) by {
        EventPerEdge(PlayingAfter(steps[0]), steps[1..], toDouble);
      }
    }
  }

  predicate PlaysFrom(steps: seq<HostStep>, from: nat) {
    exists j | from <= j < |steps| :: PlayingAfter(steps[j])
  }

  lemma LaterPlays(steps: seq<HostStep>, from: nat)
    requires steps != []
    ensures PlaysFrom(steps, from + 1) <==> PlaysFrom(steps[1..], from)
    ensures PlaysFrom(steps, 0) <==> PlayingAfter(steps[0]) || PlaysFrom(steps[1..], 0)
  {
    var rest := steps[1..];
    if j :| from + 1 <= j < |steps| && PlayingAfter(steps[j]) { assert PlayingAfter(rest[j - 1]); }
    if j :| from <= j < |rest| && PlayingAfter(rest[j]) { assert PlayingAfter(steps[j + 1]); }
    if j :| 0 <= j < |steps| && PlayingAfter(steps[j]) { assert j == 0 || PlayingAfter(rest[j - 1]); }
    if j :| 0 <= j < |rest| && PlayingAfter(rest[j]) { assert PlayingAfter(steps[j + 1]); }
  }

  /** From standing still the first event, if any, is a rewind, and there is one exactly if it ever plays. */
  lemma {:induction false} FirstEvent(steps: seq<HostStep>, toDouble: int -> int)
    ensures var es := Events(false, steps, toDouble);
            && (es != [] <==> PlaysFrom(steps, 0))
            && (es != [] ==> Rewinds(es[0]) && !Stops(es[0]))
    decreases |steps|
  {
    if steps == [] {
    } else {
      StepEdge(false, steps[0], toDouble);
      if PlayingAfter(steps[0]) {
      } else {
        var rest := Events(false, steps[1..], toDouble);
        assert Events(false, steps, toDouble) == [] + rest == rest;
        assert rest != [] <==> PlaysFrom(steps[1..], 0) by { FirstEvent(steps[1..], toDouble); }
        assert rest != [] ==> Rewinds(rest[0]) && !Stops(rest[0]) by { FirstEvent(steps[1..], toDouble); }
        assert PlaysFrom(steps, 0) <==> PlaysFrom(steps[1..], 0) by { LaterPlays(steps, 0); }
      }
    }
  }

  /** Whoever is deactivated while playing never plays again. */
  predicate CleanStops(playing: bool, steps: seq<HostStep>) {
    forall i | 0 <= i < |steps| && steps[i].Deactivate? && PlayingAt(playing, steps, i) :: !PlaysFrom(steps, i + 1)
  }

  lemma CleanAfterFirst(playing: bool, steps: seq<HostStep>)
    requires steps != []
    ensures CleanStops(playing, steps) <==>
      (steps[0].Deactivate? && playing ==> !PlaysFrom(steps[1..], 0)) && CleanStops(PlayingAfter(steps[0]), steps[1..])
  {
    var rest, next := steps[1..], PlayingAfter(steps[0]);
    LaterPlays(steps, 0);
    forall i | 0 <= i < |rest|
      ensures rest[i] == steps[i + 1] && PlayingAt(next, rest, i) == PlayingAt(playing, steps, i + 1)
      ensures PlaysFrom(steps, i + 2) <==> PlaysFrom(rest, i + 1)
    {
      LaterPlays(steps, i + 1);
    }
    if CleanStops(playing, steps) {
      forall i | 0 <= i < |rest| && rest[i].Deactivate? && PlayingAt(next, rest, i) ensures !PlaysFrom(rest, i + 1) {
        assert steps[i + 1].Deactivate? && PlayingAt(playing, steps, i + 1);
      }
      if steps[0].Deactivate? && playing { assert PlayingAt(playing, steps, 0); }
    } else {
      var i :| 0 <= i < |steps| && steps[i].Deactivate? && PlayingAt(playing, steps, i) && PlaysFrom(steps, i + 1);
      if i > 0 { assert rest[i - 1].Deactivate? && PlayingAt(next, rest, i - 1); }
    }
  }

  lemma AlternatesOn(e: Option<TransportEvent>, tail: seq<TransportEvent>, rewindNext: bool)
    requires e.Some? ==> if rewindNext then Rewinds(e.value) else Stops(e.value)
    ensures Alternates(Listed(e) + tail, rewindNext)
      <==> Alternates(tail, if e.Some? then !rewindNext else rewindNext)
  {
    if e.Some? {
      assert ([e.value] + tail)[1..] == tail;
    } else {
      assert [] + tail == tail;
    }
  }

  /** A run without a start has no event that could come out of turn. */
  lemma StandsStill(steps: seq<HostStep>, toDouble: int -> int)
    ensures Alternates(Events(false, steps, toDouble), false) <==> !PlaysFrom(steps, 0)
    ensures !PlaysFrom(steps, 0) ==> Events(false, steps, toDouble) == []
  {
    FirstEvent(steps, toDouble);
  }

  /** Over any activations, rewinds and stops alternate if and only if no one deactivated while playing plays again. */
  lemma {:induction false} AlternatesIffCleanStops(playing: bool, steps: seq<HostStep>, toDouble: int -> int)
    ensures Alternates(Events(playing, steps, toDouble), !playing) <==> CleanStops(playing, steps)
    decreases |steps|
  {
    if steps == [] {
    } else {
      var e, next, rest := EventOf(playing, steps[0], toDouble), PlayingAfter(steps[0]), steps[1..];
      StepEdge(playing, steps[0], toDouble);
      CleanAfterFirst(playing, steps);
      AlternatesOn(e, Events(next, rest, toDouble), !playing);
      assert Alternates(Events(next, rest, toDouble), !next) <==> CleanStops(next, rest) by {
        AlternatesIffCleanStops(next, rest, toDouble);
      }
      if steps[0].Deactivate? && playing {
        StandsStill(rest, toDouble);
      }
    }
  }

  /** In one activation they alternate whatever the host says, and the last event tells whether it plays. */
  lemma {:induction false} EventsAlternate(playing: bool, steps: seq<HostStep>, toDouble: int -> int)
    requires forall i | 0 <= i < |steps| :: steps[i].Call?
    ensures var es := Events(playing, steps, toDouble);
            && Alternates(es, !playing)
            && |es| == Edges(playing, steps)
            && PlayingAt(playing, steps, |steps|) == (if es == [] then playing else Rewinds(es[|es| - 1]))
    decreases |steps|
  {
    AlternatesIffCleanStops(playing, steps, toDouble);
    EventPerEdge(playing, steps, toDouble);
    if steps == [] {
    } else {
      var next, rest := PlayingAfter(steps[0]), steps[1..];
      var tail := Events(next, rest, toDouble);
      StepEdge(playing, steps[0], toDouble);
      assert PlayingAt(next, rest, |rest|) == (if tail == [] then next else Rewinds(tail[|tail| - 1])) by {
        EventsAlternate(next, rest, toDouble);
      }
    }
  }

  /** A host that deactivates while playing and then plays on gets a second rewind with no stop between. */
  lemma DeactivatingWhilePlayingRewindsTwice(playing: HostTransport, toDouble: int -> int)
    requires SaysPlaying(Some(playing))
    ensures var es := Events(false, [Call(Some(playing)), Deactivate, Call(Some(playing))], toDouble);
            |es| == 2 && Rewinds(es[0]) && Rewinds(es[1]) && !Alternates(es, true)
  {
    var play := Call(Some(playing));
    StepEdge(false, play, toDouble);
    assert [play][1..] == [] && [Deactivate, play][1..] == [play] && [play, Deactivate, play][1..] == [Deactivate,
      play];
    assert Events(false, [play], toDouble) == [EventOf(false, play, toDouble).value] + [];
  }

  // ── What a host's numbers come to ──────────────────────────────────────────

  /** Bit `n` of the flags. */
  predicate Bit(flags: bv32, n: nat)
    requires n < 32
  {
    (flags >> n) & 1 == 1
  }

  lemma Bits(flags: bv32)
    ensures flags & HAS_BEATS_TIMELINE != 0 <==> Bit(flags, 1)
    ensures flags & IS_PLAYING != 0 <==> Bit(flags, 4)
    ensures flags & IS_RECORDING != 0 <==> Bit(flags, 5)
    ensures flags & IS_LOOP_ACTIVE != 0 <==> Bit(flags, 6)
  {
  }

  /**
    * What the executor is given for a host's transport: the position in ticks when the host has one, the
    * start of the song when it has none or is before it, the tempo and the states, and an event only on a
    * change, at that position.
    */
  lemma GivenForHost(prevPlaying: bool, t: HostTransport, toDouble: int -> int)
    requires Rounds(toDouble) && -EXACT <= t.songPos <= EXACT
    ensures var (info, event) := Block(prevPlaying, Some(t), toDouble);
      && Ticks((info.bar, info.beat, info.tick))
         == (if Bit(t.flags, 1) && t.songPos >= 0 then t.songPos * 960 / 0x8000_0000 else 0)
      && info.beat < 4 && info.tick < 960 && info.bpm == t.tempo
      && info.playing == Bit(t.flags, 4) && info.recording == Bit(t.flags, 5) && info.looping == Bit(t.flags, 6)
      && (event.Some? <==> info.playing != prevPlaying)
      && (event.Some? ==>
           var e := event.value;
           && (e.bar, e.beat, e.tick, e.bpm) == (info.bar, info.beat, info.tick, info.bpm)
           && e.flags.rewind == info.playing && e.flags.stop == prevPlaying && e.flags.playing == info.playing
           && e.flags.recording == (info.playing && info.recording) && e.flags.looping == (info.playing && info.looping)
           && !e.flags.loopStart && !e.flags.loopEnd)
  {
    Bits(t.flags);
    PositionInTicks(t.songPos, toDouble);
  }

  /** A host that says nothing stands still at the start, at 120 beats a minute, and stops what was playing. */
  lemma GivenForSilence(prevPlaying: bool, toDouble: int -> int)
    ensures var (info, event) := Block(prevPlaying, None, toDouble);
      && info == Info(1, 0, 0, 120.0, false, false, false)
      && (event.Some? <==> prevPlaying)
      && (event.Some? ==> event.value == TransportEvent(1, 0, 0, 120.0, Flags(false, false, false, false, false, true, false)))
  {
  }
}
