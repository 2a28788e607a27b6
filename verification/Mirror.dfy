/** The state mirror's pump as a function of its state, and what every pump keeps. */
module Mirror {
  import opened Wrappers
  import opened StateBus
  import opened Clients

  const FLUSH_MS: nat := 33
  const BATCH_CAP: nat := 256

  datatype Mirror = Mirror(
    shadow: map<string, real>,
    pending: map<string, real>,
    contextShadow: Bus,
    contextDirty: bool,
    lastFlush: Option<nat>,
    kitsLine: string,
    selections: map<nat, nat>,
    slots: Slots)

  /** The watched machine-selection paths; fixed when the server starts. */
  type Watched = map<string, nat>

  // ── The pump ───────────────────────────────────────────────────────────────

  /** A float-to-u32 cast of a non-negative value: truncating, saturating. */
  function ToU32(v: real): nat
    requires v >= 0.0
  {
    if v.Floor < U32 then v.Floor else U32 - 1
  }

  function Interrupted(m: Mirror, evs: seq<ClientEvent>): Mirror {
    m.(slots := InterferedBy(m.slots, evs))
  }

  function Flushed(m: Mirror): Mirror {
    if |m.pending| == 0 then m
    else m.(slots := Broadcast(m.slots, State(m.pending)), pending := map[])
  }

  function ReplayFrames(shadow: map<string, real>, context: ContextSnapshot): seq<Frame> {
    if |shadow| == 0 then [Context(context)] else [State(shadow), Context(context)]
  }

  function Replayed(m: Mirror, context: ContextSnapshot): Mirror {
    if !StateReplayPending(m.slots) then m else m.(slots := StateReplayed(m.slots, ReplayFrames(m.shadow, context)))
  }

  function ContextSeen(m: Mirror, path: string, value: BusValue): Mirror {
    if path in m.contextShadow && m.contextShadow[path] == value then m
    else m.(
      contextShadow := m.contextShadow[path := value],
      contextDirty := true,
      kitsLine := if path == KITS_PATH && value.Text? then value.s else m.kitsLine)
  }

  predicate Changes(m: Mirror, path: string, value: BusValue) {
    IsNumber(path, value) && !(path in m.shadow && m.shadow[path] == Coerce(value))
  }

  function NumberSeen(m: Mirror, watched: Watched, path: string, v: real): Mirror {
    m.(
      shadow := m.shadow[path := v],
      pending := m.pending[path := v],
      selections := if path in watched && v >= 0.0 then m.selections[watched[path] := ToU32(v)] else m.selections)
  }

  /** One path of the scan; `evs` are the client threads' steps before the lock an overflow flush takes. */
  function Scanned(m: Mirror, watched: Watched, path: string, value: BusValue, evs: seq<ClientEvent>): Mirror {
    if IsContext(path) then Interrupted(ContextSeen(m, path, value), evs)
    else if !Changes(m, path, value) then Interrupted(m, evs)
    else
      var seen := Interrupted(NumberSeen(m, watched, path, Coerce(value)), evs);
      if |seen.pending| >= BATCH_CAP then Flushed(seen) else seen
  }

  function ScannedTo(m: Mirror, watched: Watched, bus: Bus, order: seq<string>, env: seq<seq<ClientEvent>>,
      k: nat): Mirror
    requires k <= |order| < |env|
    requires forall i | 0 <= i < |order| :: order[i] in bus
  {
    if k == 0 then m
    else Scanned(ScannedTo(m, watched, bus, order, env, k - 1), watched, order[k - 1], bus[order[k - 1]], env[k])
  }

  predicate Due(last: Option<nat>, now: nat) {
    last.None? || (if now >= last.value then now - last.value else 0) >= FLUSH_MS
  }

  function ContextFlushed(m: Mirror, context: ContextSnapshot): Mirror {
    m.(slots := Broadcast(m.slots, Context(context)), contextDirty := false)
  }

  function Closed(m: Mirror, context: ContextSnapshot, beforeState: seq<ClientEvent>, beforeContext: seq<ClientEvent>,
      now: nat): Mirror {
    if !Due(m.lastFlush, now) then m
    else
      var f := Interrupted(Flushed(Interrupted(m, beforeState)), beforeContext);
      (if f.contextDirty then ContextFlushed(f, context) else f).(lastFlush := Some(now))
  }

  /**
    * One pump. `env[0]` happens before the replay's lock, `env[k]` while the k-th path is scanned,
    * and the last two entries before the closing state and context flushes.
    */
  function Pumped(m: Mirror, watched: Watched, bus: Bus, order: seq<string>, env: seq<seq<ClientEvent>>,
      now: nat): Mirror
    requires |env| == |order| + 3
    requires forall i | 0 <= i < |order| :: order[i] in bus
  {
    var n := |order|;
    var served := Replayed(Interrupted(m, env[0]), Snapshot(bus));
    Closed(ScannedTo(served, watched, bus, order, env, n), Snapshot(bus), env[n + 1], env[n + 2], now)
  }

  // ── What holds of every client ─────────────────────────────────────────────

  ghost predicate Within(part: map<string, real>, whole: map<string, real>) {
    forall p | p in part :: p in whole && part[p] == whole[p]
  }

  ghost predicate StateOk(c: Client, shadow: map<string, real>, pending: map<string, real>) {
    && StateView(c.sent).Keys <= shadow.Keys
    && (!c.needsStateReplay ==> StateView(c.sent) + pending == shadow)
  }

  /** Nothing but a replay carries more than one batch. */
  ghost predicate SmallBatches(c: Client) {
    forall i | 0 <= i < |c.sent| :: c.sent[i].frame.State? && !c.sent[i].replay ==>
      |c.sent[i].frame.updates| <= BATCH_CAP
  }

  ghost predicate Agrees(m: Mirror) {
    && Within(m.pending, m.shadow)
    && forall i | 0 <= i < |m.slots| && m.slots[i].Some? ::
      StateOk(m.slots[i].value, m.shadow, m.pending) && SmallBatches(m.slots[i].value)
  }

  /** Between two paths of the scan, and between two pumps. */
  ghost predicate Inv(m: Mirror) {
    Agrees(m) && |m.pending| < BATCH_CAP
  }

  lemma {:induction false} InterferedSlots(slots: Slots, evs: seq<ClientEvent>, i: nat)
    requires i < |slots|
    ensures InterferedBy(slots, evs)[i] in {slots[i], None, Some(FRESH)}
    decreases |evs|
  {
    if evs == [] {
    } else {
      InterferedSlots(Interfered(slots, evs[0]), evs[1..], i);
    }
  }

  lemma InterruptedAgrees(m: Mirror, evs: seq<ClientEvent>)
    requires Agrees(m)
    ensures Agrees(Interrupted(m, evs))
  {
    forall i | 0 <= i < |m.slots| ensures Interrupted(m, evs).slots[i] in {m.slots[i], None, Some(FRESH)} {
      InterferedSlots(m.slots, evs, i);
    }
  }

  lemma QueuedState(c: Client, updates: map<string, real>, replay: bool)
    requires SmallBatches(c) && (replay || |updates| <= BATCH_CAP)
    ensures SmallBatches(Queue(c, State(updates), replay))
    ensures StateView(Queue(c, State(updates), replay).sent) == StateView(c.sent) + updates
  {
    ViewsAfter(c.sent, Sent(State(updates), replay));
  }

  lemma QueuedContext(c: Client, context: ContextSnapshot, replay: bool)
    requires SmallBatches(c)
    ensures SmallBatches(Queue(c, Context(context), replay))
    ensures StateView(Queue(c, Context(context), replay).sent) == StateView(c.sent)
  {
    ViewsAfter(c.sent, Sent(Context(context), replay));
  }

  lemma AddNothing(a: map<string, real>)
    ensures a + map[] == a
  {
  }

  lemma FlushedClient(c: Client, shadow: map<string, real>, pending: map<string, real>)
    requires StateOk(c, shadow, pending) && SmallBatches(c) && Within(pending, shadow) && |pending| <= BATCH_CAP
    ensures StateOk(Queue(c, State(pending), false), shadow, map[])
    ensures SmallBatches(Queue(c, State(pending), false))
  {
    QueuedState(c, pending, false);
    AddNothing(StateView(c.sent) + pending);
  }

  /** A flush hands every client exactly what it still lacked. */
  lemma FlushedAgrees(m: Mirror)
    requires Agrees(m) && |m.pending| <= BATCH_CAP
    ensures Inv(Flushed(m)) && Flushed(m).pending == map[]
  {
    if |m.pending| == 0 {
      assert m.pending == map[];
    } else {
      forall i | 0 <= i < |m.slots| && m.slots[i].Some?
        ensures StateOk(Flushed(m).slots[i].value, m.shadow, map[]) && SmallBatches(Flushed(m).slots[i].value)
      {
        FlushedClient(m.slots[i].value, m.shadow, m.pending);
      }
    }
  }

  lemma CoveredBy(view: map<string, real>, shadow: map<string, real>)
    requires view.Keys <= shadow.Keys
    ensures view + shadow == shadow
  {
  }

  lemma WithinAdds(shadow: map<string, real>, pending: map<string, real>)
    requires Within(pending, shadow)
    ensures shadow + pending == shadow
  {
  }

  lemma ReplayUnfolds(c: Client, shadow: map<string, real>, context: ContextSnapshot)
    ensures QueueAll(c, ReplayFrames(shadow, context))
      == Queue(if |shadow| == 0 then c else Queue(c, State(shadow), true), Context(context), true)
  {
    if |shadow| == 0 {
      assert [Context(context)][1..] == [];
    } else {
      var frames := [State(shadow), Context(context)];
      assert frames[1..] == [Context(context)];
      assert [Context(context)][1..] == [];
      assert QueueAll(c, frames) == QueueAll(Queue(c, State(shadow), true), [Context(context)]);
    }
  }

  lemma ReplayedClient(c: Client, shadow: map<string, real>, context: ContextSnapshot)
    requires StateView(c.sent).Keys <= shadow.Keys && SmallBatches(c)
    ensures var r := QueueAll(c, ReplayFrames(shadow, context)).(needsStateReplay := false);
      && StateView(r.sent) == shadow && SmallBatches(r) && LastContext(r.sent) == Some(context)
      && Replays(r.sent, false) == Replays(c.sent, false) + 1 && Replays(r.sent, true) == Replays(c.sent, true)
      && LedView(r.sent) == LedView(c.sent) && r.needsReplay == c.needsReplay
  {
    var c1 := if |shadow| == 0 then c else Queue(c, State(shadow), true);
    CoveredBy(StateView(c.sent), shadow);
    if |shadow| == 0 {
      assert StateView(c.sent) == shadow;
    } else {
      QueuedState(c, shadow, true);
      ViewsAfter(c.sent, Sent(State(shadow), true));
    }
    QueuedContext(c1, context, true);
    ViewsAfter(c1.sent, Sent(Context(context), true));
    ReplayUnfolds(c, shadow, context);
  }

  /** The replay leaves no flag set, brings every newcomer to the shadow and the context, and touches no one else. */
  lemma ReplayedAgrees(m: Mirror, context: ContextSnapshot)
    requires Inv(m)
    ensures Inv(Replayed(m, context)) && !StateReplayPending(Replayed(m, context).slots)
    ensures var r := Replayed(m, context).slots;
      && |r| == |m.slots|
      && forall i | 0 <= i < |r| ::
        if m.slots[i].Some? && m.slots[i].value.needsStateReplay
        then r[i].Some? && StateView(r[i].value.sent) == m.shadow && LastContext(r[i].value.sent) == Some(context)
        else r[i] == m.slots[i]
  {
    if StateReplayPending(m.slots) {
      var r := Replayed(m, context);
      forall i | 0 <= i < |m.slots| && m.slots[i].Some?
        ensures StateOk(r.slots[i].value, m.shadow, m.pending) && SmallBatches(r.slots[i].value)
        ensures m.slots[i].value.needsStateReplay ==>
          StateView(r.slots[i].value.sent) == m.shadow && LastContext(r.slots[i].value.sent) == Some(context)
      {
        if m.slots[i].value.needsStateReplay {
          ReplayedClient(m.slots[i].value, m.shadow, context);
          WithinAdds(m.shadow, m.pending);
        }
      }
    }
  }

  lemma UpdateSum(view: map<string, real>, pending: map<string, real>, path: string, v: real)
    ensures view + pending[path := v] == (view + pending)[path := v]
  {
  }

  lemma NumberSeenAgrees(m: Mirror, watched: Watched, path: string, v: real)
    requires Inv(m)
    ensures Agrees(NumberSeen(m, watched, path, v)) && |NumberSeen(m, watched, path, v).pending| <= BATCH_CAP
  {
    assert m.pending[path := v].Keys == m.pending.Keys + {path};
    forall i | 0 <= i < |m.slots| && m.slots[i].Some?
      ensures StateOk(m.slots[i].value, m.shadow[path := v], m.pending[path := v])
    {
      UpdateSum(StateView(m.slots[i].value.sent), m.pending, path, v);
    }
  }

  lemma ScannedAgrees(m: Mirror, watched: Watched, path: string, value: BusValue, evs: seq<ClientEvent>)
    requires Inv(m)
    ensures Inv(Scanned(m, watched, path, value, evs))
  {
    if IsContext(path) {
      InterruptedAgrees(ContextSeen(m, path, value), evs);
    } else if !Changes(m, path, value) {
      InterruptedAgrees(m, evs);
    } else {
      var seen := NumberSeen(m, watched, path, Coerce(value));
      NumberSeenAgrees(m, watched, path, Coerce(value));
      InterruptedAgrees(seen, evs);
      if |seen.pending| >= BATCH_CAP {
        FlushedAgrees(Interrupted(seen, evs));
      }
    }
  }

  lemma {:induction false} ScannedToAgrees(m: Mirror, watched: Watched, bus: Bus, order: seq<string>,
      env: seq<seq<ClientEvent>>, k: nat)
    requires k <= |order| < |env|
    requires forall i | 0 <= i < |order| :: order[i] in bus
    requires Inv(m)
    ensures Inv(ScannedTo(m, watched, bus, order, env, k))
  {
    if k == 0 {
    } else {
      ScannedToAgrees(m, watched, bus, order, env, k - 1);
      ScannedAgrees(ScannedTo(m, watched, bus, order, env, k - 1), watched, order[k - 1], bus[order[k - 1]], env[k]);
    }
  }

  lemma ContextFlushedAgrees(m: Mirror, context: ContextSnapshot)
    requires Inv(m)
    ensures Inv(ContextFlushed(m, context))
  {
    forall i | 0 <= i < |m.slots| && m.slots[i].Some?
      ensures StateOk(ContextFlushed(m, context).slots[i].value, m.shadow, m.pending)
      ensures SmallBatches(ContextFlushed(m, context).slots[i].value)
    {
      QueuedContext(m.slots[i].value, context, false);
    }
  }

  lemma ClosedAgrees(m: Mirror, context: ContextSnapshot, beforeState: seq<ClientEvent>,
      beforeContext: seq<ClientEvent>, now: nat)
    requires Inv(m)
    ensures Inv(Closed(m, context, beforeState, beforeContext, now))
    ensures Due(m.lastFlush, now) ==> Closed(m, context, beforeState, beforeContext, now).pending == map[]
  {
    if Due(m.lastFlush, now) {
      var m1 := Interrupted(m, beforeState);
      InterruptedAgrees(m, beforeState);
      FlushedAgrees(m1);
      InterruptedAgrees(Flushed(m1), beforeContext);
      ContextFlushedAgrees(Interrupted(Flushed(m1), beforeContext), context);
    }
  }

  /** The numbers the first k paths of the scan have read, and the context entries among them. */
  function NumbersTo(bus: Bus, order: seq<string>, k: nat): map<string, real>
    requires k <= |order| && forall i | 0 <= i < |order| :: order[i] in bus
  {
    if k == 0 then map[]
    else
      var path, rest := order[k - 1], NumbersTo(bus, order, k - 1);
      if Mirrors(bus, path) then rest[path := Coerce(bus[path])] else rest
  }

  function ContextTo(bus: Bus, order: seq<string>, k: nat): Bus
    requires k <= |order| && forall i | 0 <= i < |order| :: order[i] in bus
  {
    if k == 0 then map[]
    else
      var path, rest := order[k - 1], ContextTo(bus, order, k - 1);
      if IsContext(path) then rest[path := bus[path]] else rest
  }

  lemma Absorb<V>(base: map<string, V>, part: map<string, V>, path: string, v: V)
    ensures base + part[path := v] == (base + part)[path := v]
  {
  }

  lemma RewriteSame<V>(m: map<string, V>, path: string, v: V)
    ensures (path in m && m[path] == v) <==> m[path := v] == m
  {
    if m[path := v] == m {
      assert path in m[path := v] && m[path := v][path] == v;
    }
  }

  /** The parts of the mirror that only the scan changes. */
  predicate Tracks(m: Mirror, s: Mirror, shadow: map<string, real>, contextShadow: Bus) {
    && s.shadow == shadow && s.contextShadow == contextShadow
    && s.contextDirty == (m.contextDirty || s.contextShadow != m.contextShadow)
    && s.lastFlush == m.lastFlush
  }

  lemma ContextTracks(m: Mirror, path: string, value: BusValue, evs: seq<ClientEvent>)
    ensures Tracks(m, Interrupted(ContextSeen(m, path, value), evs), m.shadow, m.contextShadow[path := value])
  {
    RewriteSame(m.contextShadow, path, value);
  }

  lemma NumberTracks(m: Mirror, watched: Watched, path: string, v: real, evs: seq<ClientEvent>)
    ensures var seen := Interrupted(NumberSeen(m, watched, path, v), evs);
      Tracks(m, if |seen.pending| >= BATCH_CAP then Flushed(seen) else seen, m.shadow[path := v], m.contextShadow)
  {
  }

  lemma ScannedTracks(m: Mirror, watched: Watched, path: string, value: BusValue, evs: seq<ClientEvent>)
    ensures Tracks(m, Scanned(m, watched, path, value, evs),
      if IsNumber(path, value) then m.shadow[path := Coerce(value)] else m.shadow,
      if IsContext(path) then m.contextShadow[path := value] else m.contextShadow)
  {
    if IsContext(path) {
      ContextTracks(m, path, value, evs);
    } else if Changes(m, path, value) {
      NumberTracks(m, watched, path, Coerce(value), evs);
    } else if IsNumber(path, value) {
      RewriteSame(m.shadow, path, Coerce(value));
    }
  }

  lemma {:induction false} ScanTracks(m: Mirror, watched: Watched, bus: Bus, order: seq<string>,
      env: seq<seq<ClientEvent>>, k: nat)
    requires k <= |order| < |env|
    requires forall i | 0 <= i < |order| :: order[i] in bus
    ensures var s := ScannedTo(m, watched, bus, order, env, k);
      && s.shadow == m.shadow + NumbersTo(bus, order, k)
      && s.contextShadow == m.contextShadow + ContextTo(bus, order, k)
      && (m.contextDirty || s.contextShadow != m.contextShadow ==> s.contextDirty)
      && s.lastFlush == m.lastFlush
  {
    if k == 0 {
      AddNothing(m.shadow);
      assert m.contextShadow + map[] == m.contextShadow;
    } else {
      ScanTracks(m, watched, bus, order, env, k - 1);
      var path, value := order[k - 1], bus[order[k - 1]];
      var before := ScannedTo(m, watched, bus, order, env, k - 1);
      ScannedTracks(before, watched, path, value, env[k]);
      Absorb(m.contextShadow, ContextTo(bus, order, k - 1), path, value);
      if !value.Text? {
        Absorb(m.shadow, NumbersTo(bus, order, k - 1), path, Coerce(value));
      }
    }
  }

  /** Whatever the client threads do in between, a pump keeps every client's view reconstructible. */
  lemma PumpAgrees(m: Mirror, watched: Watched, bus: Bus, order: seq<string>, env: seq<seq<ClientEvent>>, now: nat)
    requires Inv(m) && IsOrder(order, bus) && |env| == |order| + 3
    ensures Inv(Pumped(m, watched, bus, order, env, now))
    ensures Due(m.lastFlush, now) ==> Pumped(m, watched, bus, order, env, now).pending == map[]
  {
    var served := Replayed(Interrupted(m, env[0]), Snapshot(bus));
    InterruptedAgrees(m, env[0]);
    ReplayedAgrees(Interrupted(m, env[0]), Snapshot(bus));
    ScannedToAgrees(served, watched, bus, order, env, |order|);
    ScanTracks(served, watched, bus, order, env, |order|);
    ClosedAgrees(ScannedTo(served, watched, bus, order, env, |order|), Snapshot(bus), env[|order| + 1],
      env[|order| + 2], now);
  }

  // ── What the scan sees ─────────────────────────────────────────────────────

  lemma {:induction false} ReadTo(bus: Bus, order: seq<string>, k: nat, p: string)
    requires k <= |order| && forall i | 0 <= i < |order| :: order[i] in bus
    ensures p in NumbersTo(bus, order, k) <==> p in order[..k] && Mirrors(bus, p)
    ensures p in NumbersTo(bus, order, k) ==> NumbersTo(bus, order, k)[p] == Coerce(bus[p])
    ensures p in ContextTo(bus, order, k) <==> p in order[..k] && IsContext(p)
    ensures p in ContextTo(bus, order, k) ==> ContextTo(bus, order, k)[p] == bus[p]
  {
    if k == 0 {
    } else {
      ReadTo(bus, order, k - 1, p);
      assert order[..k] == order[..k - 1] + [order[k - 1]];
    }
  }

  /** A whole scan reads the whole bus, in whatever order it iterates. */
  lemma ReadAll(bus: Bus, order: seq<string>)
    requires IsOrder(order, bus)
    ensures NumbersTo(bus, order, |order|) == MirrorOf(bus)
    ensures ContextTo(bus, order, |order|) == ContextOf(bus)
  {
    assert order[..|order|] == order;
    forall p
      ensures p in NumbersTo(bus, order, |order|) <==> p in MirrorOf(bus)
      ensures p in MirrorOf(bus) ==> NumbersTo(bus, order, |order|)[p] == MirrorOf(bus)[p]
      ensures p in ContextTo(bus, order, |order|) <==> p in ContextOf(bus)
      ensures p in ContextOf(bus) ==> ContextTo(bus, order, |order|)[p] == ContextOf(bus)[p]
    {
      ReadTo(bus, order, |order|, p);
    }
  }
}
