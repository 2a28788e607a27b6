/** Runs of the kit ticks in which loads interrupt one another: what of each kit goes out. */
module KitRuns {
  import opened Wrappers
  import opened KitApply

  type Load = Option<seq<KitEntry>>

  // ── Ticks with loads between them ──────────────────────────────────────────

  /** A run of ticks; tick i sends its chunk and then loads what `loads[i]` says. */
  function Ticks(s: Applying, accepts: nat -> bool, loads: seq<Load>): Applying
    decreases |loads|
  {
    if loads == [] then s else Ticks(LoadedWith(TickOf(s, accepts), loads[0]), accepts, loads[1..])
  }

  /** A kit, and how many ticks it had before the next one took its place. */
  datatype Stage = Stage(entries: seq<KitEntry>, ticks: nat)

  function Longer(stages: seq<Stage>): (r: seq<Stage>)
    requires |stages| > 0
    ensures |r| > 0
  {
    [Stage(stages[0].entries, stages[0].ticks + 1)] + stages[1..]
  }

  /** What was pending, then every kit loaded, each with the ticks it was given. */
  function Stages(first: seq<KitEntry>, loads: seq<Load>): (r: seq<Stage>)
    ensures |r| > 0 && r[0].entries == first
    decreases |loads|
  {
    if loads == [] then [Stage(first, 0)]
    else if loads[0].Some? then [Stage(first, 1)] + Stages(loads[0].value, loads[1..])
    else Longer(Stages(first, loads[1..]))
  }

  /** One stage on its own, from the ring's call number `calls` on. */
  function Alone(stage: Stage, accepts: nat -> bool, calls: nat): Applying {
    After(Applying(stage.entries, [], calls), accepts, stage.ticks)
  }

  /** The stages one after the other: of each, what it sends in its own ticks. */
  function SentOf(stages: seq<Stage>, accepts: nat -> bool, calls: nat): seq<KitEntry>
    decreases |stages|
  {
    if stages == [] then []
    else Alone(stages[0], accepts, calls).sent + SentOf(stages[1..], accepts, Alone(stages[0], accepts, calls).calls)
  }

  /** Every stage in full. */
  function Whole(stages: seq<Stage>): seq<KitEntry>
    decreases |stages|
  {
    if stages == [] then [] else stages[0].entries + Whole(stages[1..])
  }

  lemma Regrouped<T>(a: seq<T>, b: seq<T>, c: seq<T>)
    ensures (a + b) + c == a + (b + c)
  {
  }

  lemma TickBefore(s: Applying, accepts: nat -> bool)
    ensures var bare := TickOf(s.(sent := []), accepts); TickOf(s, accepts) == bare.(sent := s.sent + bare.sent)
  {
  }

  /** What was sent before does not matter to what is sent next. */
  lemma {:induction false} SentBefore(s: Applying, accepts: nat -> bool, ticks: nat)
    ensures var alone := After(s.(sent := []), accepts, ticks);
            After(s, accepts, ticks) == alone.(sent := s.sent + alone.sent)
    decreases ticks
  {
    if ticks == 0 {
      assert s.sent + [] == s.sent;
    } else {
      var next, bare := TickOf(s, accepts), TickOf(s.(sent := []), accepts);
      var rest := After(bare.(sent := []), accepts, ticks - 1);
      assert next == bare.(sent := s.sent + bare.sent) by { TickBefore(s, accepts); }
      assert After(next, accepts, ticks - 1) == rest.(sent := next.sent + rest.sent) by {
        SentBefore(next, accepts, ticks - 1);
      }
      assert After(bare, accepts, ticks - 1) == rest.(sent := bare.sent + rest.sent) by {
        SentBefore(bare, accepts, ticks - 1);
      }
      Regrouped(s.sent, bare.sent, rest.sent);
    }
  }

  /** A stage given one tick more has sent what its first tick sends, and then what is left sends. */
  lemma OneTickMore(entries: seq<KitEntry>, ticks: nat, accepts: nat -> bool, calls: nat)
    ensures var first := TickOf(Applying(entries, [], calls), accepts);
            var rest := Alone(Stage(first.pending, ticks), accepts, first.calls);
            Alone(Stage(entries, ticks + 1), accepts, calls) == rest.(sent := first.sent + rest.sent)
  {
    SentBefore(TickOf(Applying(entries, [], calls), accepts), accepts, ticks);
  }

  /** When loads come does not depend on what is being sent. */
  lemma {:induction false} SameStages(a: seq<KitEntry>, b: seq<KitEntry>, loads: seq<Load>)
    ensures Stages(a, loads)[0].ticks == Stages(b, loads)[0].ticks && Stages(a, loads)[1..] == Stages(b, loads)[1..]
    decreases |loads|
  {
    if loads == [] || loads[0].Some? {
    } else {
      SameStages(a, b, loads[1..]);
    }
  }

  /** With a load after the first tick, the first stage is that tick. */
  lemma LoadStages(first: seq<KitEntry>, loads: seq<Load>, accepts: nat -> bool, calls: nat)
    requires loads != [] && loads[0].Some?
    ensures var tick := TickOf(Applying(first, [], calls), accepts);
            SentOf(Stages(first, loads), accepts, calls)
              == tick.sent + SentOf(Stages(loads[0].value, loads[1..]), accepts, tick.calls)
  {
    var stages, tick := Stages(first, loads), TickOf(Applying(first, [], calls), accepts);
    assert stages[1..] == Stages(loads[0].value, loads[1..]);
    assert Alone(stages[0], accepts, calls) == tick by {
      OneTickMore(first, 0, accepts, calls);
      assert tick.sent + [] == tick.sent;
    }
  }

  /** Without one, the first stage goes on. */
  lemma NoLoadStages(first: seq<KitEntry>, loads: seq<Load>, accepts: nat -> bool, calls: nat)
    requires loads != [] && loads[0].None?
    ensures var tick := TickOf(Applying(first, [], calls), accepts);
            SentOf(Stages(first, loads), accepts, calls)
              == tick.sent + SentOf(Stages(tick.pending, loads[1..]), accepts, tick.calls)
  {
    var tick := TickOf(Applying(first, [], calls), accepts);
    var was, now := Stages(first, loads[1..]), Stages(tick.pending, loads[1..]);
    var stages, rest := Stages(first, loads), Alone(now[0], accepts, tick.calls);
    var later := SentOf(now[1..], accepts, rest.calls);
    assert stages[0] == Stage(first, now[0].ticks + 1) && stages[1..] == now[1..] by {
      SameStages(first, tick.pending, loads[1..]);
      assert stages[1..] == was[1..];
    }
    assert Alone(stages[0], accepts, calls) == rest.(sent := tick.sent + rest.sent) by {
      OneTickMore(first, now[0].ticks, accepts, calls);
    }
    Regrouped(tick.sent, rest.sent, later);
  }

  lemma StagesSend(first: seq<KitEntry>, loads: seq<Load>, accepts: nat -> bool, calls: nat)
    requires loads != []
    ensures var tick := TickOf(Applying(first, [], calls), accepts);
            SentOf(Stages(first, loads), accepts, calls)
              == tick.sent + SentOf(Stages(loads[0].GetOr(tick.pending), loads[1..]), accepts, tick.calls)
  {
    if loads[0].Some? {
      LoadStages(first, loads, accepts, calls);
    } else {
      NoLoadStages(first, loads, accepts, calls);
    }
  }

  /** A run sends, stage by stage, exactly what each kit sends in the ticks it is given. */
  lemma {:induction false} RunSends(s: Applying, accepts: nat -> bool, loads: seq<Load>)
    ensures Ticks(s, accepts, loads).sent == s.sent + SentOf(Stages(s.pending, loads), accepts, s.calls)
    decreases |loads|
  {
    if loads == [] {
    } else {
      var next, bare := LoadedWith(TickOf(s, accepts), loads[0]), TickOf(s.(sent := []), accepts);
      var rest := SentOf(Stages(next.pending, loads[1..]), accepts, next.calls);
      assert next == bare.(sent := s.sent + bare.sent, pending := loads[0].GetOr(bare.pending)) by {
        TickBefore(s, accepts);
      }
      assert Ticks(next, accepts, loads[1..]).sent == next.sent + rest by { RunSends(next, accepts, loads[1..]); }
      assert SentOf(Stages(s.pending, loads), accepts, s.calls) == bare.sent + rest by {
        StagesSend(s.pending, loads, accepts, s.calls);
      }
      Regrouped(s.sent, bare.sent, rest);
    }
  }

  // ── Which kits go out whole ────────────────────────────────────────────────

  /** Of every kit a prefix goes out, and what is left of it is the rest. */
  lemma StagePrefix(stage: Stage, accepts: nat -> bool, calls: nat)
    ensures Alone(stage, accepts, calls).sent + Alone(stage, accepts, calls).pending == stage.entries
    ensures Alone(stage, accepts, calls).sent <= stage.entries
  {
    Conserved(Applying(stage.entries, [], calls), accepts, stage.ticks);
  }

  /** Nothing of any stage is left when its ticks are over. */
  predicate AllOut(stages: seq<Stage>, accepts: nat -> bool, calls: nat)
    decreases |stages|
  {
    stages == []
    || (Alone(stages[0], accepts, calls).pending == []
        && AllOut(stages[1..], accepts, Alone(stages[0], accepts, calls).calls))
  }

  lemma SameTail<T>(a: seq<T>, b: seq<T>, c: seq<T>)
    requires a + b == a + c
    ensures b == c
  {
    assert b == (a + b)[|a|..] && c == (a + c)[|a|..];
  }

  lemma {:induction false} OutIffWhole(stages: seq<Stage>, accepts: nat -> bool, calls: nat)
    ensures |SentOf(stages, accepts, calls)| <= |Whole(stages)|
    ensures SentOf(stages, accepts, calls) == Whole(stages) <==> AllOut(stages, accepts, calls)
    decreases |stages|
  {
    if stages == [] {
    } else {
      var a, whole := Alone(stages[0], accepts, calls), Whole(stages[1..]);
      var sent := SentOf(stages[1..], accepts, a.calls);
      StagePrefix(stages[0], accepts, calls);
      OutIffWhole(stages[1..], accepts, a.calls);
      if a.pending == [] {
        assert a.sent == stages[0].entries;
        if a.sent + sent == a.sent + whole { SameTail(a.sent, sent, whole); }
      } else {
        assert |a.sent + sent| < |stages[0].entries + whole|;
      }
    }
  }

  /** Sixteen entries fit into each tick of every stage. */
  predicate Fit(stages: seq<Stage>) {
    forall i | 0 <= i < |stages| :: |stages[i].entries| <= APPLY_CHUNK * stages[i].ticks
  }

  lemma {:induction false} FitIsOut(stages: seq<Stage>, accepts: nat -> bool, calls: nat)
    requires NeverRefuses(accepts)
    ensures AllOut(stages, accepts, calls) <==> Fit(stages)
    decreases |stages|
  {
    if stages == [] {
    } else {
      var rest, now := stages[1..], Alone(stages[0], accepts, calls);
      FitIsOut(rest, accepts, now.calls);
      ChunksGone(Applying(stages[0].entries, [], calls), accepts, stages[0].ticks);
      LeftIs(|stages[0].entries|, stages[0].ticks);
      assert Fit(stages) <==> |stages[0].entries| <= APPLY_CHUNK * stages[0].ticks && Fit(rest) by {
        assert stages == [stages[0]] + rest;
      }
    }
  }

  /**
    * Whatever the ring refuses and whatever is loaded when, every kit goes out whole if and only if
    * none of them has anything left when the next one takes its place.
    */
  lemma KitsWholeIffOut(s: Applying, accepts: nat -> bool, loads: seq<Load>)
    ensures Ticks(s, accepts, loads).sent == s.sent + Whole(Stages(s.pending, loads))
      <==> AllOut(Stages(s.pending, loads), accepts, s.calls)
  {
    var stages := Stages(s.pending, loads);
    RunSends(s, accepts, loads);
    OutIffWhole(stages, accepts, s.calls);
    if s.sent + SentOf(stages, accepts, s.calls) == s.sent + Whole(stages) {
      SameTail(s.sent, SentOf(stages, accepts, s.calls), Whole(stages));
    }
  }

  /**
    * With a ring that is never full that is so if and only if each kit has at most sixteen entries for each
    * of its ticks.
    */
  lemma KitsWholeIffFit(s: Applying, accepts: nat -> bool, loads: seq<Load>)
    requires NeverRefuses(accepts)
    ensures Ticks(s, accepts, loads).sent == s.sent + Whole(Stages(s.pending, loads))
      <==> Fit(Stages(s.pending, loads))
  {
    KitsWholeIffOut(s, accepts, loads);
    FitIsOut(Stages(s.pending, loads), accepts, s.calls);
  }

  /** The first sixteen entries for each tick. */
  function Portion(stage: Stage): seq<KitEntry> {
    if APPLY_CHUNK * stage.ticks < |stage.entries| then stage.entries[..APPLY_CHUNK * stage.ticks] else stage.entries
  }

  function Portions(stages: seq<Stage>): seq<KitEntry>
    decreases |stages|
  {
    if stages == [] then [] else Portion(stages[0]) + Portions(stages[1..])
  }

  lemma PortionSent(stage: Stage, accepts: nat -> bool, calls: nat)
    requires NeverRefuses(accepts)
    ensures Alone(stage, accepts, calls).sent == Portion(stage)
  {
    var a := Alone(stage, accepts, calls);
    StagePrefix(stage, accepts, calls);
    assert |a.pending| == Left(|stage.entries|, stage.ticks) by {
      ChunksGone(Applying(stage.entries, [], calls), accepts, stage.ticks);
    }
    LeftIs(|stage.entries|, stage.ticks);
    assert |a.sent| + |a.pending| == |stage.entries|;
    assert a.sent == stage.entries[..|a.sent|];
  }

  lemma {:induction false} PortionsSent(stages: seq<Stage>, accepts: nat -> bool, calls: nat)
    requires NeverRefuses(accepts)
    ensures SentOf(stages, accepts, calls) == Portions(stages)
    decreases |stages|
  {
    if stages == [] {
    } else {
      var now := Alone(stages[0], accepts, calls);
      assert now.sent == Portion(stages[0]) by { PortionSent(stages[0], accepts, calls); }
      assert SentOf(stages[1..], accepts, now.calls) == Portions(stages[1..]) by {
        PortionsSent(stages[1..], accepts, now.calls);
      }
    }
  }

  /** With a ring that is never full, of each kit exactly its first sixteen entries for each tick go out. */
  lemma OpenRunSends(s: Applying, accepts: nat -> bool, loads: seq<Load>)
    requires NeverRefuses(accepts)
    ensures Ticks(s, accepts, loads).sent == s.sent + Portions(Stages(s.pending, loads))
  {
    RunSends(s, accepts, loads);
    assert SentOf(Stages(s.pending, loads), accepts, s.calls) == Portions(Stages(s.pending, loads)) by {
      PortionsSent(Stages(s.pending, loads), accepts, s.calls);
    }
  }

  // ── Loads by pattern switches ──────────────────────────────────────────────

  datatype Perform = Perform(applying: Applying, cached: map<nat, nat>)

  /** What does not change while the ticks run. */
  datatype Setup = Setup(accepts: nat -> bool, kits: seq<Option<Kit>>, binding: Binding, ids: seq<nat>)

  /** A tick over one bus; in perform mode the bus counts as empty. */
  function Ticked(p: Perform, setup: Setup, bus: map<nat, int>): Perform {
    var scan := Scan(p.cached, bus, setup.binding, setup.ids);
    Perform(LoadedWith(TickOf(p.applying, setup.accepts), Entries(setup.kits, scan.1)), scan.0)
  }

  function Run(p: Perform, setup: Setup, buses: seq<map<nat, int>>): Perform
    decreases |buses|
  {
    if buses == [] then p else Run(Ticked(p, setup, buses[0]), setup, buses[1..])
  }

  function SwitchLoads(cached: map<nat, nat>, setup: Setup, buses: seq<map<nat, int>>): (loads: seq<Load>)
    ensures |loads| == |buses|
    decreases |buses|
  {
    if buses == [] then []
    else
      var scan := Scan(cached, buses[0], setup.binding, setup.ids);
      [Entries(setup.kits, scan.1)] + SwitchLoads(scan.0, setup, buses[1..])
  }

  lemma {:induction false} RunIsTicks(p: Perform, setup: Setup, buses: seq<map<nat, int>>)
    ensures Run(p, setup, buses).applying == Ticks(p.applying, setup.accepts, SwitchLoads(p.cached, setup, buses))
    decreases |buses|
  {
    if buses == [] {
    } else {
      var loads := SwitchLoads(p.cached, setup, buses);
      RunIsTicks(Ticked(p, setup, buses[0]), setup, buses[1..]);
      assert loads[1..] == SwitchLoads(Ticked(p, setup, buses[0]).cached, setup, buses[1..]);
    }
  }

  /**
    * Over any buses, and in and out of perform mode, with a ring never full: the exact condition for nothing
    * to be cut off.
    */
  lemma SwitchedKitsWholeIffFit(p: Perform, setup: Setup, buses: seq<map<nat, int>>)
    requires NeverRefuses(setup.accepts)
    ensures var stages := Stages(p.applying.pending, SwitchLoads(p.cached, setup, buses));
            Run(p, setup, buses).applying.sent == p.applying.sent + Whole(stages) <==> Fit(stages)
  {
    RunIsTicks(p, setup, buses);
    KitsWholeIffFit(p.applying, setup.accepts, SwitchLoads(p.cached, setup, buses));
  }

  // ── A bus that holds still ─────────────────────────────────────────────────

  function Still(bus: map<nat, int>, ticks: nat): seq<map<nat, int>> {
    seq(ticks, _ => bus)
  }

  predicate AllThere(kits: seq<Option<Kit>>, owed: seq<nat>) {
    forall i | 0 <= i < |owed| :: Entries(kits, Some(owed[i])).Some?
  }

  function KitsOf(kits: seq<Option<Kit>>, owed: seq<nat>): (r: seq<seq<KitEntry>>)
    requires AllThere(kits, owed)
    ensures |r| == |owed|
  {
    seq(|owed|, i requires 0 <= i < |owed| => Entries(kits, Some(owed[i])).value)
  }

  /** One load a tick, in order, and then none. */
  function InOrder(kits: seq<seq<KitEntry>>, idle: nat): (loads: seq<Load>)
    ensures |loads| == |kits| + idle
    decreases |kits|
  {
    if kits == [] then seq(idle, _ => None) else [Some(kits[0])] + InOrder(kits[1..], idle)
  }

  lemma {:induction false} NothingOwed(cached: map<nat, nat>, setup: Setup, bus: map<nat, int>, ticks: nat)
    requires Distinct(setup.ids) && Owed(cached, bus, setup.binding, setup.ids) == []
    ensures SwitchLoads(cached, setup, Still(bus, ticks)) == seq(ticks, _ => None)
    decreases ticks
  {
    if ticks == 0 {
    } else {
      ScanPaysFirst(cached, bus, setup.binding, setup.ids);
      assert Still(bus, ticks)[1..] == Still(bus, ticks - 1);
      NothingOwed(Scan(cached, bus, setup.binding, setup.ids).0, setup, bus, ticks - 1);
    }
  }

  /** The owed kits are loaded in order, one a tick. */
  lemma {:induction false} OwedLoads(cached: map<nat, nat>, setup: Setup, bus: map<nat, int>, idle: nat)
    requires Distinct(setup.ids) && AllThere(setup.kits, Owed(cached, bus, setup.binding, setup.ids))
    ensures var owed := Owed(cached, bus, setup.binding, setup.ids);
            SwitchLoads(cached, setup, Still(bus, |owed| + idle)) == InOrder(KitsOf(setup.kits, owed), idle)
    decreases |Owed(cached, bus, setup.binding, setup.ids)|
  {
    var owed := Owed(cached, bus, setup.binding, setup.ids);
    if owed == [] {
      NothingOwed(cached, setup, bus, idle);
    } else {
      ScanPaysFirst(cached, bus, setup.binding, setup.ids);
      var next := Scan(cached, bus, setup.binding, setup.ids).0;
      var buses := Still(bus, |owed| + idle);
      assert buses[1..] == Still(bus, |owed[1..]| + idle);
      assert AllThere(setup.kits, owed[1..]);
      OwedLoads(next, setup, bus, idle);
      assert KitsOf(setup.kits, owed)[1..] == KitsOf(setup.kits, owed[1..]);
    }
  }

  lemma {:induction false} IdleStages(first: seq<KitEntry>, idle: nat)
    ensures Stages(first, seq(idle, _ => None)) == [Stage(first, idle)]
    decreases idle
  {
    if idle == 0 {
    } else {
      var loads: seq<Load> := seq(idle, _ => None);
      assert loads[1..] == seq(idle - 1, _ => None);
      IdleStages(first, idle - 1);
    }
  }

  /** Every kit but the last is given one tick. */
  function OneTickEach(first: seq<KitEntry>, kits: seq<seq<KitEntry>>, idle: nat): seq<Stage>
    decreases |kits|
  {
    if kits == [] then [Stage(first, idle)] else [Stage(first, 1)] + OneTickEach(kits[0], kits[1..], idle)
  }

  lemma {:induction false} OrderedStages(first: seq<KitEntry>, kits: seq<seq<KitEntry>>, idle: nat)
    ensures Stages(first, InOrder(kits, idle)) == OneTickEach(first, kits, idle)
    decreases |kits|
  {
    if kits == [] {
      IdleStages(first, idle);
    } else {
      var loads := InOrder(kits, idle);
      assert loads[1..] == InOrder(kits[1..], idle);
      OrderedStages(kits[0], kits[1..], idle);
    }
  }

  function Joined(kits: seq<seq<KitEntry>>): seq<KitEntry>
    decreases |kits|
  {
    if kits == [] then [] else kits[0] + Joined(kits[1..])
  }

  /** Every kit but the last has at most one chunk. */
  predicate SmallButLast(kits: seq<seq<KitEntry>>) {
    forall i | 0 <= i < |kits| - 1 :: |kits[i]| <= APPLY_CHUNK
  }

  lemma SmallButLastFirst(first: seq<KitEntry>, kits: seq<seq<KitEntry>>)
    requires kits != []
    ensures SmallButLast([first] + kits) <==> |first| <= APPLY_CHUNK && SmallButLast(kits)
  {
    var all := [first] + kits;
    assert forall i | 0 <= i < |kits| - 1 :: kits[i] == all[i + 1];
    assert all[0] == first;
  }

  lemma FitFirst(first: Stage, rest: seq<Stage>)
    ensures Fit([first] + rest) <==> |first.entries| <= APPLY_CHUNK * first.ticks && Fit(rest)
  {
    var stages := [first] + rest;
    assert forall i | 0 <= i < |rest| :: rest[i] == stages[i + 1];
    assert stages[0] == first;
  }

  lemma {:induction false} OneTickEachFits(first: seq<KitEntry>, kits: seq<seq<KitEntry>>, idle: nat)
    requires (if kits == [] then |first| else |kits[|kits| - 1]|) <= APPLY_CHUNK * idle
    ensures Whole(OneTickEach(first, kits, idle)) == Joined([first] + kits)
    ensures Fit(OneTickEach(first, kits, idle)) <==> SmallButLast([first] + kits)
    decreases |kits|
  {
    assert ([first] + kits)[1..] == kits;
    if kits == [] {
      assert [Stage(first, idle)][1..] == [];
    } else {
      var rest := OneTickEach(kits[0], kits[1..], idle);
      assert [kits[0]] + kits[1..] == kits;
      OneTickEachFits(kits[0], kits[1..], idle);
      SmallButLastFirst(first, kits);
      FitFirst(Stage(first, 1), rest);
      assert ([Stage(first, 1)] + rest)[1..] == rest;
    }
  }

  lemma HeldStages(p: Perform, setup: Setup, bus: map<nat, int>, idle: nat)
    requires Distinct(setup.ids) && AllThere(setup.kits, Owed(p.cached, bus, setup.binding, setup.ids))
    ensures var owed := Owed(p.cached, bus, setup.binding, setup.ids);
            Stages(p.applying.pending, SwitchLoads(p.cached, setup, Still(bus, |owed| + idle)))
              == OneTickEach(p.applying.pending, KitsOf(setup.kits, owed), idle)
  {
    OwedLoads(p.cached, setup, bus, idle);
    OrderedStages(p.applying.pending, KitsOf(setup.kits, Owed(p.cached, bus, setup.binding, setup.ids)), idle);
  }

  /**
    * While the bus holds still and the ring is never full, with time enough for the last kit: what was
    * pending and the owed kits all go out whole, one after the other, if and only if each but the last
    * has at most sixteen entries.
    */
  lemma OwedKitsWholeIff(p: Perform, setup: Setup, bus: map<nat, int>, idle: nat)
    requires NeverRefuses(setup.accepts) && Distinct(setup.ids)
    requires AllThere(setup.kits, Owed(p.cached, bus, setup.binding, setup.ids))
    requires var kits := [p.applying.pending] + KitsOf(setup.kits, Owed(p.cached, bus, setup.binding, setup.ids));
             |kits[|kits| - 1]| <= APPLY_CHUNK * idle
    ensures var owed := Owed(p.cached, bus, setup.binding, setup.ids);
            var kits := [p.applying.pending] + KitsOf(setup.kits, owed);
            var sent := Run(p, setup, Still(bus, |owed| + idle)).applying.sent;
            sent == p.applying.sent + Joined(kits) <==> SmallButLast(kits)
  {
    var owed := Owed(p.cached, bus, setup.binding, setup.ids);
    var kits := KitsOf(setup.kits, owed);
    var stages, buses := OneTickEach(p.applying.pending, kits, idle), Still(bus, |owed| + idle);
    OneTickEachFits(p.applying.pending, kits, idle);
    assert Stages(p.applying.pending, SwitchLoads(p.cached, setup, buses)) == stages by {
      HeldStages(p, setup, bus, idle);
    }
    assert Run(p, setup, buses).applying.sent == p.applying.sent + Whole(stages) <==> Fit(stages) by {
      SwitchedKitsWholeIffFit(p, setup, buses);
    }
  }

  // ── Two sequencers in one tick ─────────────────────────────────────────────

  const TWO_SWITCH: map<nat, int> := map[10 := 1, 11 := 2]

  /** Two kits of n entries and one, bound to patterns 1 and 2. */
  function TwoKits(n: nat): Setup {
    var a := seq(n, i requires 0 <= i < n => KitEntry(20, i, 0.0));
    Setup(_ => true, [Some(Kit("A", a)), Some(Kit("B", [KitEntry(21, 0, 0.0)]))],
      [None, Some(0), Some(1), None, None, None, None, None], [10, 11])
  }

  lemma TwoOwed(n: nat)
    ensures Owed(map[10 := 0, 11 := 0], TWO_SWITCH, TwoKits(n).binding, TwoKits(n).ids) == [0, 1]
    ensures AllThere(TwoKits(n).kits, [0, 1])
    ensures KitsOf(TwoKits(n).kits, [0, 1]) == [TwoKits(n).kits[0].value.entries, TwoKits(n).kits[1].value.entries]
  {
    var setup := TwoKits(n);
    assert setup.ids[1..] == [11] && [11][1..] == [];
    assert Owed(map[10 := 0, 11 := 0], TWO_SWITCH, setup.binding, [11]) == [1];
  }

  lemma PairPortions(a: seq<KitEntry>, b: seq<KitEntry>, idle: nat)
    requires |b| <= APPLY_CHUNK * idle
    ensures Portions(OneTickEach([], [a, b], idle)) == a[..ChunkOf(|a|)] + b
  {
    var last := [Stage(b, idle)];
    assert [a, b][1..] == [b] && [b][1..] == [];
    assert last[1..] == [] && Portions(last) == b + [] == b;
    assert OneTickEach(a, [b], idle) == [Stage(a, 1)] + last;
    assert ([Stage(a, 1)] + last)[1..] == last;
    assert Portions([Stage(a, 1)] + last) == a[..ChunkOf(|a|)] + b;
    assert ([Stage([], 1)] + ([Stage(a, 1)] + last))[1..] == [Stage(a, 1)] + last;
  }

  /**
    * Both sequencers leave pattern 0 in one tick: of the first kit only the first chunk is ever sent, and the
    * second is sent whole.
    */
  lemma SecondSwitchCutsTheFirstKit(n: nat, idle: nat)
    requires idle >= 1
    ensures var setup := TwoKits(n);
            var p := Perform(Applying([], [], 0), map[10 := 0, 11 := 0]);
            var first, second := setup.kits[0].value.entries, setup.kits[1].value.entries;
            && Owed(p.cached, TWO_SWITCH, setup.binding, setup.ids) == [0, 1]
            && Run(p, setup, Still(TWO_SWITCH, 2 + idle)).applying.sent == first[..ChunkOf(n)] + second
  {
    var setup := TwoKits(n);
    var p := Perform(Applying([], [], 0), map[10 := 0, 11 := 0]);
    var a, b := setup.kits[0].value.entries, setup.kits[1].value.entries;
    var buses := Still(TWO_SWITCH, 2 + idle);
    var loads := SwitchLoads(p.cached, setup, buses);
    TwoOwed(n);
    assert Stages([], loads) == OneTickEach([], [a, b], idle) by { HeldStages(p, setup, TWO_SWITCH, idle); }
    assert Run(p, setup, buses).applying == Ticks(p.applying, setup.accepts, loads) by { RunIsTicks(p, setup, buses); }
    assert Ticks(p.applying, setup.accepts, loads).sent == [] + Portions(Stages([], loads)) by {
      OpenRunSends(p.applying, setup.accepts, loads);
    }
    PairPortions(a, b, idle);
  }

  // ── The same run, step by step ─────────────────────────────────────────────

  /** In perform mode nothing on the bus is heeded. */
  function Heeded(performMode: bool, buses: seq<map<nat, int>>): (heeded: seq<map<nat, int>>)
    ensures |heeded| == |buses|
  {
    if performMode then Still(map[], |buses|) else buses
  }

  /** The objects stand where the run does. */
  ghost predicate Stands(state: PerformState, conf: CommandRing, p: Perform, setup: Setup)
    reads state, conf
  {
    && state.Valid() && p == Perform(state.Value(conf), state.cachedPatterns)
    && setup == Setup(conf.accepts, state.kits, state.kitBinding, SEQUENCERS)
  }

  method TickOnce(state: PerformState, conf: CommandRing, bus: map<nat, int>, ghost p: Perform, ghost setup: Setup)
    requires Stands(state, conf, p, setup)
    modifies state`applyPending, state`accepted, state`loaded, state`loadedAt, state`cachedPatterns, conf
    ensures Stands(state, conf, Ticked(p, setup, if state.performMode then map[] else bus), setup)
  {
    state.Tick(conf, bus);
  }

  lemma RunStep(p: Perform, setup: Setup, buses: seq<map<nat, int>>, n: nat)
    requires n < |buses|
    ensures Run(p, setup, buses[n..]) == Run(Ticked(p, setup, buses[n]), setup, buses[n + 1..])
  {
    assert buses[n..][1..] == buses[n + 1..];
  }

  /** The main loop's ticks over successive states of the bus. */
  method RunTicks(state: PerformState, conf: CommandRing, buses: seq<map<nat, int>>, ghost p: Perform,
      ghost setup: Setup)
    requires Stands(state, conf, p, setup)
    modifies state`applyPending, state`accepted, state`loaded, state`loadedAt, state`cachedPatterns, conf
    ensures Stands(state, conf, Run(p, setup, Heeded(state.performMode, buses)), setup)
  {
    ghost var now, heeded := p, Heeded(state.performMode, buses);
    for n := 0 to |buses|
      invariant Stands(state, conf, now, setup)
      invariant Run(now, setup, heeded[n..]) == Run(p, setup, heeded)
    {
      RunStep(now, setup, heeded, n);
      TickOnce(state, conf, buses[n], now, setup);
      now := Ticked(now, setup, heeded[n]);
    }
  }
}
