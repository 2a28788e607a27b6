/**
  * Whole runs of the server: bus writes, connects and disconnects at any point, pumps, LED
  * broadcasts and LED replays, in any interleaving.
  */
module AntiphonRun {
  import opened Wrappers
  import opened StateBus
  import opened Clients
  import opened Mirror
  import opened Kerygma

  // ── Context, LEDs and replay counts, client by client ──────────────────────

  /**
    * Last context is current, or known to be stale; LEDs are current; every replay happened once.
    * `shown` and `latest` are the two snapshots that count as current.
    */
  ghost predicate Follows(c: Client, dirty: bool, shown: ContextSnapshot, latest: ContextSnapshot,
      leds: seq<RgbColor>) {
    && |leds| == SHADOW_SLOTS
    && (!c.needsStateReplay ==> dirty || LastContext(c.sent) in {Some(shown), Some(latest)})
    && Replays(c.sent, false) == (if c.needsStateReplay then 0 else 1)
    && Replays(c.sent, true) == (if c.needsReplay then 0 else 1)
    && (!c.needsReplay ==> LedAgrees(LedView(c.sent), leds, SHADOW_SLOTS))
  }

  ghost predicate Following(slots: Slots, dirty: bool, shown: ContextSnapshot, latest: ContextSnapshot,
      leds: seq<RgbColor>) {
    |leds| == SHADOW_SLOTS && forall i | 0 <= i < |slots| && slots[i].Some? ::
      Follows(slots[i].value, dirty, shown, latest, leds)
  }

  lemma InterferedFollows(slots: Slots, evs: seq<ClientEvent>, dirty: bool, shown: ContextSnapshot,
      latest: ContextSnapshot, leds: seq<RgbColor>)
    requires Following(slots, dirty, shown, latest, leds)
    ensures Following(InterferedBy(slots, evs), dirty, shown, latest, leds)
  {
    forall i | 0 <= i < |slots| ensures InterferedBy(slots, evs)[i] in {slots[i], None, Some(FRESH)} {
      InterferedSlots(slots, evs, i);
    }
  }

  lemma StateBroadcastFollows(slots: Slots, updates: map<string, real>, dirty: bool, shown: ContextSnapshot,
      latest: ContextSnapshot, leds: seq<RgbColor>)
    requires Following(slots, dirty, shown, latest, leds)
    ensures Following(Broadcast(slots, State(updates)), dirty, shown, latest, leds)
  {
    forall i | 0 <= i < |slots| && slots[i].Some?
      ensures Follows(Broadcast(slots, State(updates))[i].value, dirty, shown, latest, leds)
    {
      ViewsAfter(slots[i].value.sent, Sent(State(updates), false));
    }
  }

  lemma ContextBroadcastFollows(slots: Slots, dirty: bool, shown: ContextSnapshot, latest: ContextSnapshot,
      leds: seq<RgbColor>)
    requires Following(slots, dirty, shown, latest, leds)
    ensures Following(Broadcast(slots, Context(latest)), false, latest, latest, leds)
  {
    forall i | 0 <= i < |slots| && slots[i].Some?
      ensures Follows(Broadcast(slots, Context(latest))[i].value, false, latest, latest, leds)
    {
      ViewsAfter(slots[i].value.sent, Sent(Context(latest), false));
    }
  }

  lemma ReplayedFollows(m: Mirror, shown: ContextSnapshot, latest: ContextSnapshot, leds: seq<RgbColor>)
    requires Inv(m) && Following(m.slots, m.contextDirty, shown, shown, leds)
    ensures Following(Replayed(m, latest).slots, m.contextDirty, shown, latest, leds)
  {
    forall i | 0 <= i < |m.slots| && m.slots[i].Some?
      ensures Follows(Replayed(m, latest).slots[i].value, m.contextDirty, shown, latest, leds)
    {
      if StateReplayPending(m.slots) && m.slots[i].value.needsStateReplay {
        ReplayedClient(m.slots[i].value, m.shadow, latest);
      }
    }
  }

  lemma Stale(slots: Slots, dirty: bool, dirtier: bool, shown: ContextSnapshot, latest: ContextSnapshot,
      leds: seq<RgbColor>)
    requires Following(slots, dirty, shown, latest, leds) && (dirty ==> dirtier)
    ensures Following(slots, dirtier, shown, latest, leds)
  {
  }

  /** One path of the scan sends at most one batch, and never clears the stale mark. */
  lemma ScannedSlots(m: Mirror, watched: Watched, path: string, value: BusValue, evs: seq<ClientEvent>)
    ensures var s, interrupted := Scanned(m, watched, path, value, evs), InterferedBy(m.slots, evs);
      && (m.contextDirty ==> s.contextDirty)
      && (s.slots == interrupted ||
          (Changes(m, path, value) && s.contextDirty == m.contextDirty
           && s.slots == Broadcast(interrupted, State(m.pending[path := Coerce(value)]))))
  {
  }

  lemma ScannedFollows(m: Mirror, watched: Watched, path: string, value: BusValue, evs: seq<ClientEvent>,
      shown: ContextSnapshot, latest: ContextSnapshot, leds: seq<RgbColor>)
    requires Following(m.slots, m.contextDirty, shown, latest, leds)
    ensures var s := Scanned(m, watched, path, value, evs); Following(s.slots, s.contextDirty, shown, latest, leds)
  {
    ScannedSlots(m, watched, path, value, evs);
    var s, interrupted := Scanned(m, watched, path, value, evs), InterferedBy(m.slots, evs);
    InterferedFollows(m.slots, evs, m.contextDirty, shown, latest, leds);
    if s.slots == interrupted {
      Stale(interrupted, m.contextDirty, s.contextDirty, shown, latest, leds);
    } else {
      StateBroadcastFollows(interrupted, m.pending[path := Coerce(value)], m.contextDirty, shown, latest, leds);
    }
  }

  lemma {:induction false} ScannedToFollows(m: Mirror, watched: Watched, bus: Bus, order: seq<string>,
      env: seq<seq<ClientEvent>>, k: nat, shown: ContextSnapshot, latest: ContextSnapshot, leds: seq<RgbColor>)
    requires k <= |order| < |env|
    requires forall i | 0 <= i < |order| :: order[i] in bus
    requires Following(m.slots, m.contextDirty, shown, latest, leds)
    ensures var s := ScannedTo(m, watched, bus, order, env, k); Following(s.slots, s.contextDirty, shown, latest, leds)
  {
    if k == 0 {
    } else {
      ScannedToFollows(m, watched, bus, order, env, k - 1, shown, latest, leds);
      ScannedFollows(ScannedTo(m, watched, bus, order, env, k - 1), watched, order[k - 1], bus[order[k - 1]], env[k],
        shown, latest, leds);
    }
  }

  lemma ClosedFollows(m: Mirror, latest: ContextSnapshot, beforeState: seq<ClientEvent>,
      beforeContext: seq<ClientEvent>, now: nat, shown: ContextSnapshot, leds: seq<RgbColor>)
    requires Following(m.slots, m.contextDirty, shown, latest, leds)
    ensures var c := Closed(m, latest, beforeState, beforeContext, now);
      && (Following(c.slots, c.contextDirty, shown, latest, leds)
          || Following(c.slots, c.contextDirty, latest, latest, leds))
      && (Due(m.lastFlush, now) ==> !c.contextDirty)
      && (Due(m.lastFlush, now) && m.contextDirty ==> Following(c.slots, false, latest, latest, leds))
      && (!Due(m.lastFlush, now) || !m.contextDirty ==> Following(c.slots, m.contextDirty, shown, latest, leds))
  {
    if Due(m.lastFlush, now) {
      var s1 := InterferedBy(m.slots, beforeState);
      InterferedFollows(m.slots, beforeState, m.contextDirty, shown, latest, leds);
      StateBroadcastFollows(s1, m.pending, m.contextDirty, shown, latest, leds);
      var s2 := if |m.pending| == 0 then s1 else Broadcast(s1, State(m.pending));
      InterferedFollows(s2, beforeContext, m.contextDirty, shown, latest, leds);
      ContextBroadcastFollows(InterferedBy(s2, beforeContext), m.contextDirty, shown, latest, leds);
    }
  }

  // ── Runs ───────────────────────────────────────────────────────────────────

  datatype World = World(bus: Bus, mirror: Mirror, leds: seq<RgbColor>)

  datatype Event =
    | BusWrite(path: string, value: BusValue)
    | ClientStep(ev: ClientEvent)
    | Pump(order: seq<string>, env: seq<seq<ClientEvent>>, now: nat)
    | LedUpdates(updates: seq<LedUpdate>, evs: seq<ClientEvent>)
    | LedTick(evs: seq<ClientEvent>)

  function Started(bus: Bus): World {
    World(bus, Mirror(map[], map[], map[], false, None, "", map[], seq(MAX_CLIENTS, _ => None)), seq(SHADOW_SLOTS,
      _ => OFF))
  }

  /** A pump visits each path of the bus once; everything else may always happen. */
  ghost predicate Possible(w: World, e: Event) {
    && (e.Pump? ==> IsOrder(e.order, w.bus) && |e.env| == |e.order| + 3)
    && (e.LedTick? ==> |w.leds| == SHADOW_SLOTS)
  }

  ghost function Next(w: World, watched: Watched, e: Event): World
    requires Possible(w, e)
  {
    match e
    case BusWrite(path, value) => w.(bus := w.bus[path := value])
    case ClientStep(ev) => w.(mirror := Interrupted(w.mirror, [ev]))
    case Pump(order, env, now) => w.(mirror := Pumped(w.mirror, watched, w.bus, order, env, now))
    case LedUpdates(updates, evs) =>
      w.(leds := ShadowAfter(w.leds, updates), mirror := w.mirror.(slots := LedBroadcast(InterferedBy(w.mirror.slots,
        evs), updates)))
    case LedTick(evs) =>
      w.(mirror := w.mirror.(slots := LedReplayed(InterferedBy(w.mirror.slots, evs), Led(Surface(w.leds,
        SHADOW_SLOTS)))))
  }

  ghost predicate IsRun(bus: Bus, watched: Watched, events: seq<Event>)
    decreases |events|, 2
  {
    events == [] ||
    var before := events[..|events| - 1];
    IsRun(bus, watched, before) && Possible(After(bus, watched, before), events[|events| - 1])
  }

  ghost function After(bus: Bus, watched: Watched, events: seq<Event>): World
    requires IsRun(bus, watched, events)
    decreases |events|, 3
  {
    if events == [] then Started(bus)
    else Next(After(bus, watched, events[..|events| - 1]), watched, events[|events| - 1])
  }

  ghost predicate Sound(w: World) {
    && |w.mirror.slots| == MAX_CLIENTS
    && Inv(w.mirror)
    && w.mirror.shadow.Keys <= w.bus.Keys
    && w.mirror.contextShadow.Keys <= ContextOf(w.bus).Keys
    && var shown := Snapshot(w.mirror.contextShadow);
       Following(w.mirror.slots, w.mirror.contextDirty, shown, shown, w.leds)
  }

  lemma {:induction false} SlotCounts(m: Mirror, watched: Watched, bus: Bus, order: seq<string>,
      env: seq<seq<ClientEvent>>, k: nat)
    requires k <= |order| < |env|
    requires forall i | 0 <= i < |order| :: order[i] in bus
    ensures |ScannedTo(m, watched, bus, order, env, k).slots| == |m.slots|
  {
    if k == 0 {
    } else {
      SlotCounts(m, watched, bus, order, env, k - 1);
    }
  }

  lemma ClosedKeeps(m: Mirror, latest: ContextSnapshot, beforeState: seq<ClientEvent>, beforeContext: seq<ClientEvent>,
      now: nat)
    ensures var c := Closed(m, latest, beforeState, beforeContext, now);
      c.shadow == m.shadow && c.contextShadow == m.contextShadow && |c.slots| == |m.slots|
  {
  }

  lemma OverlayAll<V>(base: map<string, V>, part: map<string, V>)
    requires base.Keys <= part.Keys
    ensures base + part == part
  {
  }

  /** What one pump leaves behind, in terms of the bus it read. */
  lemma PumpReads(m: Mirror, bus: Bus, watched: Watched, order: seq<string>, env: seq<seq<ClientEvent>>, now: nat)
    requires IsOrder(order, bus) && |env| == |order| + 3
    requires m.contextShadow.Keys <= ContextOf(bus).Keys
    ensures var r := Pumped(m, watched, bus, order, env, now);
      && |r.slots| == |m.slots|
      && r.shadow == m.shadow + MirrorOf(bus)
      && r.contextShadow == ContextOf(bus)
  {
    var served := Replayed(Interrupted(m, env[0]), Snapshot(bus));
    var s := ScannedTo(served, watched, bus, order, env, |order|);
    ScanTracks(served, watched, bus, order, env, |order|);
    SlotCounts(served, watched, bus, order, env, |order|);
    ReadAll(bus, order);
    OverlayAll(m.contextShadow, ContextOf(bus));
    ClosedKeeps(s, Snapshot(bus), env[|order| + 1], env[|order| + 2], now);
  }

  /** Where a pump stands between its scan and its closing flushes. */
  function BeforeClosing(w: World, watched: Watched, order: seq<string>, env: seq<seq<ClientEvent>>): Mirror
    requires |env| == |order| + 3
    requires forall i | 0 <= i < |order| :: order[i] in w.bus
  {
    ScannedTo(Replayed(Interrupted(w.mirror, env[0]), Snapshot(w.bus)), watched, w.bus, order, env, |order|)
  }

  lemma ScanFollows(w: World, watched: Watched, order: seq<string>, env: seq<seq<ClientEvent>>)
    requires Sound(w) && IsOrder(order, w.bus) && |env| == |order| + 3
    ensures var s, shown := BeforeClosing(w, watched, order, env), Snapshot(w.mirror.contextShadow);
      Following(s.slots, s.contextDirty, shown, Snapshot(w.bus), w.leds)
  {
    var shown, latest := Snapshot(w.mirror.contextShadow), Snapshot(w.bus);
    var m0 := Interrupted(w.mirror, env[0]);
    InterruptedAgrees(w.mirror, env[0]);
    InterferedFollows(w.mirror.slots, env[0], w.mirror.contextDirty, shown, shown, w.leds);
    ReplayedFollows(m0, shown, latest, w.leds);
    ScannedToFollows(Replayed(m0, latest), watched, w.bus, order, env, |order|, shown, latest, w.leds);
  }

  lemma ScanMarks(w: World, watched: Watched, order: seq<string>, env: seq<seq<ClientEvent>>)
    requires Sound(w) && IsOrder(order, w.bus) && |env| == |order| + 3
    ensures var s := BeforeClosing(w, watched, order, env);
      && s.lastFlush == w.mirror.lastFlush
      && (s.contextDirty || Snapshot(w.mirror.contextShadow) == Snapshot(w.bus))
  {
    ScanTracks(Replayed(Interrupted(w.mirror, env[0]), Snapshot(w.bus)), watched, w.bus, order, env, |order|);
    ReadAll(w.bus, order);
    OverlayAll(w.mirror.contextShadow, ContextOf(w.bus));
    SnapshotOfContext(w.bus);
  }

  /** What is not marked stale is the latest. */
  lemma FollowsLatest(slots: Slots, dirty: bool, shown: ContextSnapshot, latest: ContextSnapshot, leds: seq<RgbColor>)
    requires Following(slots, dirty, shown, latest, leds) && (dirty || shown == latest)
    ensures Following(slots, dirty, latest, latest, leds)
  {
  }

  lemma ClosedFollowsLatest(m: Mirror, latest: ContextSnapshot, beforeState: seq<ClientEvent>,
      beforeContext: seq<ClientEvent>, now: nat, leds: seq<RgbColor>)
    requires Following(m.slots, m.contextDirty, latest, latest, leds)
    ensures var c := Closed(m, latest, beforeState, beforeContext, now);
      Following(c.slots, c.contextDirty, latest, latest, leds) && (Due(m.lastFlush, now) ==> !c.contextDirty)
  {
    ClosedFollows(m, latest, beforeState, beforeContext, now, latest, leds);
  }

  lemma PumpFollows(w: World, watched: Watched, order: seq<string>, env: seq<seq<ClientEvent>>, now: nat)
    requires Sound(w) && IsOrder(order, w.bus) && |env| == |order| + 3
    ensures var m := Pumped(w.mirror, watched, w.bus, order, env, now);
      && Following(m.slots, m.contextDirty, Snapshot(w.bus), Snapshot(w.bus), w.leds)
      && (Due(w.mirror.lastFlush, now) ==> !m.contextDirty)
  {
    var shown, latest, n := Snapshot(w.mirror.contextShadow), Snapshot(w.bus), |order|;
    var s := BeforeClosing(w, watched, order, env);
    assert Following(s.slots, s.contextDirty, latest, latest, w.leds) by {
      ScanFollows(w, watched, order, env);
      ScanMarks(w, watched, order, env);
      FollowsLatest(s.slots, s.contextDirty, shown, latest, w.leds);
    }
    assert s.lastFlush == w.mirror.lastFlush by { ScanMarks(w, watched, order, env); }
    var c := Closed(s, latest, env[n + 1], env[n + 2], now);
    assert Following(c.slots, c.contextDirty, latest, latest, w.leds) && (Due(s.lastFlush, now) ==>
      !c.contextDirty) by {
      ClosedFollowsLatest(s, latest, env[n + 1], env[n + 2], now, w.leds);
    }
  }

  lemma PumpSound(w: World, watched: Watched, order: seq<string>, env: seq<seq<ClientEvent>>, now: nat)
    requires Sound(w) && IsOrder(order, w.bus) && |env| == |order| + 3
    ensures Sound(w.(mirror := Pumped(w.mirror, watched, w.bus, order, env, now)))
  {
    PumpAgrees(w.mirror, watched, w.bus, order, env, now);
    PumpReads(w.mirror, w.bus, watched, order, env, now);
    PumpFollows(w, watched, order, env, now);
    SnapshotOfContext(w.bus);
  }

  lemma LedBroadcastClient(c: Client, dirty: bool, shown: ContextSnapshot, leds: seq<RgbColor>, updates: seq<LedUpdate>)
    requires Follows(c, dirty, shown, shown, leds) && SmallBatches(c)
    ensures var r := Queue(c, Led(Known(updates)), false);
      && Follows(r, dirty, shown, shown, ShadowAfter(leds, updates)) && SmallBatches(r)
      && StateView(r.sent) == StateView(c.sent)
  {
    ViewsAfter(c.sent, Sent(Led(Known(updates)), false));
    if !c.needsReplay {
      BroadcastAgrees(LedView(c.sent), leds, updates);
    }
  }

  lemma NothingKnown(c: Client, dirty: bool, shown: ContextSnapshot, leds: seq<RgbColor>, updates: seq<LedUpdate>)
    requires Follows(c, dirty, shown, shown, leds) && Known(updates) == []
    ensures Follows(c, dirty, shown, shown, ShadowAfter(leds, updates))
  {
    if !c.needsReplay {
      BroadcastAgrees(LedView(c.sent), leds, updates);
    }
  }

  lemma LedBroadcastSound(w: World, slots: Slots, updates: seq<LedUpdate>)
    requires Sound(w.(mirror := w.mirror.(slots := slots)))
    ensures Sound(World(w.bus, w.mirror.(slots := LedBroadcast(slots, updates)), ShadowAfter(w.leds, updates)))
  {
    var shown := Snapshot(w.mirror.contextShadow);
    var leds := ShadowAfter(w.leds, updates);
    var out := LedBroadcast(slots, updates);
    forall i | 0 <= i < |slots| && slots[i].Some?
      ensures Follows(out[i].value, w.mirror.contextDirty, shown, shown, leds)
      ensures StateView(out[i].value.sent) == StateView(slots[i].value.sent) && SmallBatches(out[i].value)
    {
      if Known(updates) == [] {
        NothingKnown(slots[i].value, w.mirror.contextDirty, shown, w.leds, updates);
      } else {
        LedBroadcastClient(slots[i].value, w.mirror.contextDirty, shown, w.leds, updates);
      }
    }
  }

  lemma LedTickClient(c: Client, dirty: bool, shown: ContextSnapshot, leds: seq<RgbColor>)
    requires Follows(c, dirty, shown, shown, leds) && SmallBatches(c) && c.needsReplay
    ensures var r := Queue(c, Led(Surface(leds, SHADOW_SLOTS)), true).(needsReplay := false);
      Follows(r, dirty, shown, shown, leds) && SmallBatches(r) && StateView(r.sent) == StateView(c.sent)
  {
    ViewsAfter(c.sent, Sent(Led(Surface(leds, SHADOW_SLOTS)), true));
    SurfaceAgrees(LedView(c.sent), leds, SHADOW_SLOTS);
  }

  lemma LedTickSound(w: World, slots: Slots)
    requires Sound(w.(mirror := w.mirror.(slots := slots)))
    ensures Sound(w.(mirror := w.mirror.(slots := LedReplayed(slots, Led(Surface(w.leds, SHADOW_SLOTS))))))
  {
    var shown := Snapshot(w.mirror.contextShadow);
    forall i | 0 <= i < |slots| && slots[i].Some? && slots[i].value.needsReplay
      ensures var r := LedReplayed(slots, Led(Surface(w.leds, SHADOW_SLOTS)))[i].value;
        && Follows(r, w.mirror.contextDirty, shown, shown, w.leds) && SmallBatches(r)
        && StateView(r.sent) == StateView(slots[i].value.sent)
    {
      LedTickClient(slots[i].value, w.mirror.contextDirty, shown, w.leds);
    }
  }

  lemma InterferedSound(w: World, evs: seq<ClientEvent>)
    requires Sound(w)
    ensures Sound(w.(mirror := Interrupted(w.mirror, evs)))
  {
    var shown := Snapshot(w.mirror.contextShadow);
    InterruptedAgrees(w.mirror, evs);
    InterferedFollows(w.mirror.slots, evs, w.mirror.contextDirty, shown, shown, w.leds);
  }

  lemma StepSound(w: World, watched: Watched, e: Event)
    requires Sound(w) && Possible(w, e)
    ensures Sound(Next(w, watched, e))
  {
    match e
    case BusWrite(path, value) =>
      assert w.bus[path := value].Keys == w.bus.Keys + {path};
      assert ContextOf(w.bus).Keys <= ContextOf(w.bus[path := value]).Keys;
    case ClientStep(ev) => InterferedSound(w, [ev]);
    case Pump(order, env, now) => PumpSound(w, watched, order, env, now);
    case LedUpdates(updates, evs) =>
      InterferedSound(w, evs);
      LedBroadcastSound(w, InterferedBy(w.mirror.slots, evs), updates);
    case LedTick(evs) =>
      InterferedSound(w, evs);
      LedTickSound(w, InterferedBy(w.mirror.slots, evs));
  }

  /**
    * Every interleaving of bus writes, connects, disconnects, pumps and LED traffic keeps every client
    * in step: its folded state plus what is pending is the shadow, its last context is current or marked
    * stale, its LEDs match the shadow outside the gap, and each replay reached it exactly once.
    */
  lemma {:induction false} RunSound(bus: Bus, watched: Watched, events: seq<Event>)
    requires IsRun(bus, watched, events)
    ensures Sound(After(bus, watched, events))
    decreases |events|
  {
    if events == [] {
      assert forall i | 0 <= i < MAX_CLIENTS :: Started(bus).mirror.slots[i] == None;
    } else {
      var before := events[..|events| - 1];
      RunSound(bus, watched, before);
      StepSound(After(bus, watched, before), watched, events[|events| - 1]);
    }
  }

  // ── After a due pump ───────────────────────────────────────────────────────

  /**
    * A due pump brings every client that has been replayed to the state shadow and the bus's context.
    * The shadow is the bus's numbers on top of whatever it held.
    */
  lemma DuePumpDelivers(w: World, watched: Watched, order: seq<string>, env: seq<seq<ClientEvent>>, now: nat, i: nat)
    requires Sound(w) && IsOrder(order, w.bus) && |env| == |order| + 3 && Due(w.mirror.lastFlush, now)
    requires var m := Pumped(w.mirror, watched, w.bus, order, env, now);
      i < |m.slots| && m.slots[i].Some? && !m.slots[i].value.needsStateReplay
    ensures var sent := Pumped(w.mirror, watched, w.bus, order, env, now).slots[i].value.sent;
      && StateView(sent) == w.mirror.shadow + MirrorOf(w.bus)
      && LastContext(sent) == Some(Snapshot(w.bus))
  {
    PumpAgrees(w.mirror, watched, w.bus, order, env, now);
    PumpReads(w.mirror, w.bus, watched, order, env, now);
    PumpFollows(w, watched, order, env, now);
    var m := Pumped(w.mirror, watched, w.bus, order, env, now);
    AddNothing(StateView(m.slots[i].value.sent));
  }

  /** No path that ever carried a number now carries text. */
  ghost predicate NoneGoneText(w: World) {
    forall p | p in w.mirror.shadow :: Mirrors(w.bus, p)
  }

  /** The view is exactly the bus's numbers if and only if no shadowed path has since turned to text. */
  lemma DuePumpExact(w: World, watched: Watched, order: seq<string>, env: seq<seq<ClientEvent>>, now: nat, i: nat)
    requires Sound(w) && IsOrder(order, w.bus) && |env| == |order| + 3 && Due(w.mirror.lastFlush, now)
    requires var m := Pumped(w.mirror, watched, w.bus, order, env, now);
      i < |m.slots| && m.slots[i].Some? && !m.slots[i].value.needsStateReplay
    ensures StateView(Pumped(w.mirror, watched, w.bus, order, env, now).slots[i].value.sent) == MirrorOf(w.bus)
      <==> NoneGoneText(w)
  {
    DuePumpDelivers(w, watched, order, env, now, i);
    if NoneGoneText(w) {
      OverlayAll(w.mirror.shadow, MirrorOf(w.bus));
    } else {
      var p :| p in w.mirror.shadow && !Mirrors(w.bus, p);
      assert p in w.mirror.shadow + MirrorOf(w.bus);
    }
  }

  /** No write replaces a mirrored number by text. */
  ghost predicate KeepsNumbers(bus: Bus, watched: Watched, events: seq<Event>)
    requires IsRun(bus, watched, events)
    decreases |events|
  {
    events == [] ||
    var before, e := events[..|events| - 1], events[|events| - 1];
    KeepsNumbers(bus, watched, before)
    && (e.BusWrite? && Mirrors(After(bus, watched, before).bus, e.path) ==> !e.value.Text?)
  }

  lemma KeepsNumbersStep(w: World, watched: Watched, e: Event)
    requires Sound(w) && Possible(w, e) && NoneGoneText(w)
    requires e.BusWrite? && Mirrors(w.bus, e.path) ==> !e.value.Text?
    ensures NoneGoneText(Next(w, watched, e))
  {
    if e.Pump? {
      PumpReads(w.mirror, w.bus, watched, e.order, e.env, e.now);
    }
  }

  /** In such a run no shadowed path ever turns to text, so every due pump is exact. */
  lemma {:induction false} KeepsNumbersRun(bus: Bus, watched: Watched, events: seq<Event>)
    requires IsRun(bus, watched, events) && KeepsNumbers(bus, watched, events)
    ensures NoneGoneText(After(bus, watched, events))
    decreases |events|
  {
    if events == [] {
    } else {
      var before := events[..|events| - 1];
      KeepsNumbersRun(bus, watched, before);
      RunSound(bus, watched, before);
      KeepsNumbersStep(After(bus, watched, before), watched, events[|events| - 1]);
    }
  }

  // ── A pump serves everyone who was there when it began ─────────────────────

  predicate NoConnect(evs: seq<ClientEvent>) {
    forall i | 0 <= i < |evs| :: !evs[i].Connect?
  }

  /** Nobody joined since `was`, no flag came back, and without events nobody left either. */
  ghost predicate NobodyNew(was: Slots, now: Slots, quiet: bool) {
    && |now| == |was|
    && (forall i | 0 <= i < |now| && now[i].Some? ::
          was[i].Some? && now[i].value.needsStateReplay == was[i].value.needsStateReplay)
    && (quiet ==> forall i | 0 <= i < |now| && was[i].Some? :: now[i].Some?)
  }

  lemma {:induction false} NoConnectKeeps(slots: Slots, evs: seq<ClientEvent>)
    requires NoConnect(evs)
    ensures NobodyNew(slots, InterferedBy(slots, evs), evs == [])
    decreases |evs|
  {
    if evs == [] {
    } else {
      assert NobodyNew(slots, Interfered(slots, evs[0]), false);
      NoConnectKeeps(Interfered(slots, evs[0]), evs[1..]);
    }
  }

  lemma NobodySince(a: Slots, b: Slots, c: Slots, early: bool, late: bool)
    requires NobodyNew(a, b, early) && NobodyNew(b, c, late)
    ensures NobodyNew(a, c, early && late)
  {
  }

  lemma BroadcastServes(slots: Slots, frame: Frame)
    ensures NobodyNew(slots, Broadcast(slots, frame), true)
  {
  }

  lemma ScannedServes(m: Mirror, watched: Watched, path: string, value: BusValue, evs: seq<ClientEvent>)
    requires NoConnect(evs)
    ensures NobodyNew(m.slots, Scanned(m, watched, path, value, evs).slots, evs == [])
  {
    ScannedSlots(m, watched, path, value, evs);
    var interrupted := InterferedBy(m.slots, evs);
    NoConnectKeeps(m.slots, evs);
    if Changes(m, path, value) {
      var frame := State(m.pending[path := Coerce(value)]);
      BroadcastServes(interrupted, frame);
      NobodySince(m.slots, interrupted, Broadcast(interrupted, frame), evs == [], true);
    }
  }

  lemma {:induction false} ScanServes(m: Mirror, watched: Watched, bus: Bus, order: seq<string>,
      env: seq<seq<ClientEvent>>, k: nat, quiet: bool)
    requires k <= |order| < |env|
    requires forall i | 0 <= i < |order| :: order[i] in bus
    requires forall n | 1 <= n <= k :: NoConnect(env[n]) && (quiet ==> env[n] == [])
    ensures NobodyNew(m.slots, ScannedTo(m, watched, bus, order, env, k).slots, quiet)
  {
    if k == 0 {
    } else {
      ScanServes(m, watched, bus, order, env, k - 1, quiet);
      var s := ScannedTo(m, watched, bus, order, env, k - 1);
      NoConnectKeeps(s.slots, env[k]);
      ScannedServes(s, watched, order[k - 1], bus[order[k - 1]], env[k]);
    }
  }

  lemma FlushServes(m: Mirror)
    ensures NobodyNew(m.slots, Flushed(m).slots, true)
  {
  }

  lemma ContextFlushServes(was: Slots, m: Mirror, context: ContextSnapshot, quiet: bool)
    requires NobodyNew(was, m.slots, quiet)
    ensures NobodyNew(was, ContextFlushed(m, context).slots, quiet)
  {
  }

  lemma ClosedServes(m: Mirror, context: ContextSnapshot, beforeState: seq<ClientEvent>,
      beforeContext: seq<ClientEvent>, now: nat)
    requires NoConnect(beforeState) && NoConnect(beforeContext)
    ensures NobodyNew(m.slots, Closed(m, context, beforeState, beforeContext, now).slots,
      beforeState == [] && beforeContext == [])
  {
    if Due(m.lastFlush, now) {
      var s1 := Interrupted(m, beforeState);
      var s2 := Flushed(s1);
      var s3 := Interrupted(s2, beforeContext);
      var quiet := beforeState == [] && beforeContext == [];
      assert NobodyNew(m.slots, s2.slots, beforeState == []) by {
        NoConnectKeeps(m.slots, beforeState);
        FlushServes(s1);
        NobodySince(m.slots, s1.slots, s2.slots, beforeState == [], true);
      }
      assert NobodyNew(m.slots, s3.slots, quiet) by {
        NoConnectKeeps(s2.slots, beforeContext);
        NobodySince(m.slots, s2.slots, s3.slots, beforeState == [], beforeContext == []);
      }
      ContextFlushServes(m.slots, s3, context, quiet);
    }
  }

  /** Only a client that connects after a pump's first lock can leave that pump unserved. */
  lemma PumpServes(m: Mirror, watched: Watched, bus: Bus, order: seq<string>, env: seq<seq<ClientEvent>>, now: nat,
      quiet: bool)
    requires Inv(m) && IsOrder(order, bus) && |env| == |order| + 3
    requires forall n | 1 <= n < |env| :: NoConnect(env[n])
    requires quiet ==> forall n | 0 <= n < |env| :: env[n] == []
    ensures var r := Pumped(m, watched, bus, order, env, now);
      && |r.slots| == |m.slots| && !StateReplayPending(r.slots)
      && (quiet ==> forall i | 0 <= i < |m.slots| && m.slots[i].Some? :: r.slots[i].Some?)
  {
    var n := |order|;
    var m0 := Interrupted(m, env[0]);
    var served := Replayed(m0, Snapshot(bus));
    InterruptedAgrees(m, env[0]);
    ReplayedAgrees(m0, Snapshot(bus));
    ScanServes(served, watched, bus, order, env, n, quiet);
    ClosedServes(ScannedTo(served, watched, bus, order, env, n), Snapshot(bus), env[n + 1], env[n + 2], now);
  }

  // ── A number that turns to text stays on every client ──────────────────────

  /**
    * A path that showed a number and turned to text goes on showing it: to every replayed client, after every
    * due pump.
    */
  lemma GoneTextStaysVisible(w: World, watched: Watched, order: seq<string>, env: seq<seq<ClientEvent>>, now: nat,
      p: string, i: nat)
    requires Sound(w) && IsOrder(order, w.bus) && |env| == |order| + 3 && Due(w.mirror.lastFlush, now)
    requires p in w.mirror.shadow && w.bus[p].Text?
    requires var m := Pumped(w.mirror, watched, w.bus, order, env, now);
      i < |m.slots| && m.slots[i].Some? && !m.slots[i].value.needsStateReplay
    ensures var m := Pumped(w.mirror, watched, w.bus, order, env, now);
      p in m.shadow && p in StateView(m.slots[i].value.sent) && p !in MirrorOf(w.bus)
  {
    DuePumpDelivers(w, watched, order, env, now, i);
    PumpReads(w.mirror, w.bus, watched, order, env, now);
    assert p in w.mirror.shadow + MirrorOf(w.bus);
  }

  const MODE := "/script/mode"
  const CALM: seq<seq<ClientEvent>> := [[], [], [], []]

  lemma PumpStamps(m: Mirror, watched: Watched, bus: Bus, order: seq<string>, env: seq<seq<ClientEvent>>, now: nat)
    requires IsOrder(order, bus) && |env| == |order| + 3
    ensures Pumped(m, watched, bus, order, env, now).lastFlush == if Due(m.lastFlush,
      now) then Some(now) else m.lastFlush
  {
    ScanTracks(Replayed(Interrupted(m, env[0]), Snapshot(bus)), watched, bus, order, env, |order|);
  }

  ghost function Joined(watched: Watched): World {
    Next(Started(map[MODE := Int(1)]), watched, ClientStep(Connect))
  }

  lemma JoinedState(watched: Watched)
    ensures Sound(Joined(watched)) && Joined(watched).mirror.slots[0] == Some(FRESH)
    ensures Joined(watched).bus == map[MODE := Int(1)] && Joined(watched).mirror.lastFlush == None
  {
    var w := Started(map[MODE := Int(1)]);
    RunSound(w.bus, watched, []);
    StepSound(w, watched, ClientStep(Connect));
    FirstFreeIs(w.mirror.slots, 0);
    assert [Connect][1..] == [];
    assert InterferedBy(w.mirror.slots, [Connect]) == Interfered(w.mirror.slots, Connect);
  }

  lemma ModeOrder(bus: Bus)
    requires bus.Keys == {MODE}
    ensures IsOrder([MODE], bus) && |CALM| == |[MODE]| + 3 && (forall n | 0 <= n < |CALM| :: CALM[n] == [])
  {
  }

  ghost function Shown(watched: Watched): World {
    JoinedState(watched);
    ModeOrder(Joined(watched).bus);
    Next(Joined(watched), watched, Pump([MODE], CALM, 0))
  }

  lemma ModeMirrored(bus: Bus)
    requires MODE in bus && !bus[MODE].Text?
    ensures Mirrors(bus, MODE)
  {
    assert MODE == "/script/" + "mode" && MODE[1] == 's' && "/context/"[1] == 'c';
  }

  lemma FirstPump(m: Mirror, watched: Watched, bus: Bus)
    requires Inv(m) && bus.Keys == {MODE} && Mirrors(bus, MODE) && IsOrder([MODE], bus)
    requires m.contextShadow.Keys <= ContextOf(bus).Keys && m.lastFlush == None
    requires |m.slots| > 0 && m.slots[0].Some?
    ensures var r := Pumped(m, watched, bus, [MODE], CALM, 0);
      && |r.slots| == |m.slots| && r.slots[0].Some? && MODE in r.shadow && r.lastFlush == Some(0)
  {
    ModeOrder(bus);
    var r := Pumped(m, watched, bus, [MODE], CALM, 0);
    assert MODE in r.shadow by {
      PumpReads(m, bus, watched, [MODE], CALM, 0);
      assert MODE in m.shadow + MirrorOf(bus);
    }
    assert |r.slots| == |m.slots| && r.slots[0].Some? by { PumpServes(m, watched, bus, [MODE], CALM, 0, true); }
    assert r.lastFlush == Some(0) by { PumpStamps(m, watched, bus, [MODE], CALM, 0); }
  }

  lemma ShownState(watched: Watched)
    ensures Sound(Shown(watched)) && Shown(watched).bus == map[MODE := Int(1)]
    ensures Shown(watched).mirror.slots[0].Some? && MODE in Shown(watched).mirror.shadow
    ensures Shown(watched).mirror.lastFlush == Some(0)
  {
    var w := Joined(watched);
    JoinedState(watched);
    ModeOrder(w.bus);
    ModeMirrored(w.bus);
    assert Sound(Shown(watched)) by { PumpSound(w, watched, [MODE], CALM, 0); }
    FirstPump(w.mirror, watched, w.bus);
  }

  /** A mirrored number is sent to the one client, then replaced by text; the client keeps the number. */
  lemma TextTurnStaysVisible(watched: Watched)
    ensures var written := Next(Shown(watched), watched, BusWrite(MODE, Text("drum")));
      && IsOrder([MODE], written.bus)
      && var end := Pumped(written.mirror, watched, written.bus, [MODE], CALM, 40);
         && |end.slots| == MAX_CLIENTS && end.slots[0].Some?
         && MODE in StateView(end.slots[0].value.sent) && MODE !in MirrorOf(written.bus)
  {
    ShownState(watched);
    var written := Next(Shown(watched), watched, BusWrite(MODE, Text("drum")));
    StepSound(Shown(watched), watched, BusWrite(MODE, Text("drum")));
    ModeOrder(written.bus);
    PumpServes(written.mirror, watched, written.bus, [MODE], CALM, 40, true);
    GoneTextStaysVisible(written, watched, [MODE], CALM, 40, MODE, 0);
  }
}
