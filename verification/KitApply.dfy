/** Kits applied a chunk per tick through a command ring that may be full, and the pattern switches that load them. */
module KitApply {
  import opened Wrappers

  const APPLY_CHUNK: nat := 16
  const KIT_SLOTS: nat := 64
  const PATTERNS: nat := 8
  const CMD_SET_PARAM: nat := 0
  const SEQUENCERS: seq<nat> := [10, 11, 12, 13, 14, 15, 16, 17]

  datatype KitEntry = KitEntry(nodeId: nat, paramId: nat, value: real)
  datatype Kit = Kit(name: string, entries: seq<KitEntry>)
  datatype NodeCommand = NodeCommand(target: nat, kind: nat, arg0: int, arg1: real)

  /** The kit bound to each pattern. */
  type Binding = b: seq<Option<nat>> | |b| == PATTERNS witness seq(PATTERNS, _ => None)

  function SetParam(e: KitEntry): NodeCommand {
    NodeCommand(e.nodeId, CMD_SET_PARAM, e.paramId, e.value)
  }

  function Commands(entries: seq<KitEntry>): (cs: seq<NodeCommand>)
    ensures |cs| == |entries| && forall i | 0 <= i < |entries| :: cs[i] == SetParam(entries[i])
  {
    seq(|entries|, i requires 0 <= i < |entries| => SetParam(entries[i]))
  }

  // ── A kit going out ────────────────────────────────────────────────────────

  /** What is still to send, what the ring has taken, and how often it has been asked. */
  datatype Applying = Applying(pending: seq<KitEntry>, sent: seq<KitEntry>, calls: nat)

  /** How many of the next `m` calls the ring takes before it refuses one. */
  function Taken(accepts: nat -> bool, calls: nat, m: nat): (k: nat)
    ensures k <= m
    decreases m
  {
    if m == 0 || !accepts(calls) then 0 else 1 + Taken(accepts, calls + 1, m - 1)
  }

  /** The count is of an unbroken run of acceptances, ended by the first refusal. */
  lemma {:induction false} TakenToRefusal(accepts: nat -> bool, calls: nat, m: nat)
    ensures var k := Taken(accepts, calls, m);
            (forall j | calls <= j < calls + k :: accepts(j)) && (k < m ==> !accepts(calls + k))
    decreases m
  {
    if m > 0 && accepts(calls) { TakenToRefusal(accepts, calls + 1, m - 1); }
  }

  /** How many of `n` entries one tick may send. */
  function ChunkOf(n: nat): (chunk: nat)
    ensures chunk <= n
  {
    if n < APPLY_CHUNK then n else APPLY_CHUNK
  }

  function TickOf(s: Applying, accepts: nat -> bool): Applying {
    var n := ChunkOf(|s.pending|);
    var k := Taken(accepts, s.calls, n);
    Applying(s.pending[k..], s.sent + s.pending[..k], s.calls + if k < n then k + 1 else n)
  }

  function After(s: Applying, accepts: nat -> bool, ticks: nat): Applying
    decreases ticks
  {
    if ticks == 0 then s else After(TickOf(s, accepts), accepts, ticks - 1)
  }

  lemma Rejoined<T>(front: seq<T>, xs: seq<T>, k: nat)
    requires k <= |xs|
    ensures (front + xs[..k]) + xs[k..] == front + xs
  {
    assert xs[..k] + xs[k..] == xs;
  }

  /** A chunk split at `taken`: what went out, and what goes back in front of the rest. */
  lemma SentChunk<T>(whole: seq<T>, n: nat, taken: nat)
    requires taken <= n <= |whole|
    ensures whole[..n][..taken] == whole[..taken] && whole[..n][taken..] + whole[n..] == whole[taken..]
    ensures whole[n..] == whole[taken..] || taken < n
  {
  }

  /** What was handed over since mark `since` and what is left stay the same whole. */
  lemma Handed<T>(accepted: seq<T>, since: nat, whole: seq<T>, taken: nat)
    requires since <= |accepted| && taken <= |whole|
    ensures (accepted + whole[..taken])[|accepted|..] == whole[..taken]
    ensures (accepted + whole[..taken])[since..] + whole[taken..] == accepted[since..] + whole
  {
    assert (accepted + whole[..taken])[since..] == accepted[since..] + whole[..taken];
    Rejoined(accepted[since..], whole, taken);
  }

  lemma TickConserves(s: Applying, accepts: nat -> bool)
    ensures TickOf(s, accepts).sent + TickOf(s, accepts).pending == s.sent + s.pending
  {
    var k := Taken(accepts, s.calls, ChunkOf(|s.pending|));
    Rejoined(s.sent, s.pending, k);
  }

  /** However often the ring is full, nothing of the kit is dropped, repeated or moved. */
  lemma {:induction false} Conserved(s: Applying, accepts: nat -> bool, ticks: nat)
    ensures After(s, accepts, ticks).sent + After(s, accepts, ticks).pending == s.sent + s.pending
    decreases ticks
  {
    if ticks == 0 {
    } else {
      TickConserves(s, accepts);
      Conserved(TickOf(s, accepts), accepts, ticks - 1);
    }
  }

  ghost predicate NeverRefuses(accepts: nat -> bool) { forall j :: accepts(j) }

  lemma {:induction false} TakesAll(accepts: nat -> bool, calls: nat, m: nat)
    requires NeverRefuses(accepts)
    ensures Taken(accepts, calls, m) == m
    decreases m
  {
    if m == 0 {
    } else {
      TakesAll(accepts, calls + 1, m - 1);
    }
  }

  /** What is left of `n` entries after that many full chunks. */
  function Left(n: nat, ticks: nat): nat
    decreases ticks
  {
    if ticks == 0 then n else Left(n - ChunkOf(n), ticks - 1)
  }

  lemma {:induction false} LeftIs(n: nat, ticks: nat)
    ensures Left(n, ticks) == if APPLY_CHUNK * ticks < n then n - APPLY_CHUNK * ticks else 0
    decreases ticks
  {
    if ticks == 0 {
    } else {
      LeftIs(n - ChunkOf(n), ticks - 1);
    }
  }

  lemma TickTakesChunk(s: Applying, accepts: nat -> bool)
    requires NeverRefuses(accepts)
    ensures |TickOf(s, accepts).pending| == |s.pending| - ChunkOf(|s.pending|)
  {
    TakesAll(accepts, s.calls, ChunkOf(|s.pending|));
  }

  lemma {:induction false} ChunksGone(s: Applying, accepts: nat -> bool, ticks: nat)
    requires NeverRefuses(accepts)
    ensures |After(s, accepts, ticks).pending| == Left(|s.pending|, ticks)
    decreases ticks
  {
    if ticks == 0 {
    } else {
      TickTakesChunk(s, accepts);
      ChunksGone(TickOf(s, accepts), accepts, ticks - 1);
    }
  }

  /** With a ring that is never full a kit of n entries is out after ceil(n / 16) ticks, and not before. */
  lemma NeverFull(s: Applying, accepts: nat -> bool, ticks: nat)
    requires NeverRefuses(accepts)
    ensures After(s, accepts, ticks).pending == [] <==> ticks >= (|s.pending| + 15) / 16
  {
    ChunksGone(s, accepts, ticks);
    LeftIs(|s.pending|, ticks);
  }

  /** A ring that takes even one entry a tick lets every kit out in the end. */
  lemma {:induction false} RoomForOneSuffices(s: Applying, accepts: nat -> bool, ticks: nat)
    requires forall t: nat | t < ticks :: accepts(After(s, accepts, t).calls)
    ensures |After(s, accepts, ticks).pending| <= if ticks <= |s.pending| then |s.pending| - ticks else 0
    decreases ticks
  {
    if ticks == 0 {
    } else {
      var next := TickOf(s, accepts);
      assert accepts(After(s, accepts, 0).calls);
      forall t: nat | t < ticks - 1 ensures accepts(After(next, accepts, t).calls) {
        assert accepts(After(s, accepts, t + 1).calls);
      }
      RoomForOneSuffices(next, accepts, ticks - 1);
    }
  }

  // ── Pattern switches ───────────────────────────────────────────────────────

  /** A signed 64-bit pattern number read as an unsigned one. */
  function AsUsize(pattern: int): nat { pattern % 0x1_0000_0000_0000_0000 }

  predicate Playing(bus: map<nat, int>, id: nat) {
    id in bus && AsUsize(bus[id]) < PATTERNS
  }

  /** The sequencer plays a pattern other than the one last seen. */
  predicate Switched(cached: map<nat, nat>, bus: map<nat, int>, id: nat) {
    Playing(bus, id) && id in cached && cached[id] != AsUsize(bus[id])
  }

  function Noted(cached: map<nat, nat>, bus: map<nat, int>, id: nat): map<nat, nat> {
    if Playing(bus, id) then cached[id := AsUsize(bus[id])] else cached
  }

  predicate Bound(bus: map<nat, int>, binding: Binding, id: nat)
  {
    Playing(bus, id) && binding[AsUsize(bus[id])].Some?
  }

  /** The look at each sequencer in turn, which ends at the first switch to a pattern with a kit. */
  function Scan(cached: map<nat, nat>, bus: map<nat, int>, binding: Binding,
      ids: seq<nat>): (map<nat, nat>, Option<nat>)
    decreases |ids|
  {
    if ids == [] then (cached, None)
    else if Switched(cached, bus, ids[0]) && Bound(bus, binding, ids[0]) then
      (Noted(cached, bus, ids[0]), binding[AsUsize(bus[ids[0]])])
    else Scan(Noted(cached, bus, ids[0]), bus, binding, ids[1..])
  }

  lemma ScanStep(cached: map<nat, nat>, bus: map<nat, int>, binding: Binding, ids: seq<nat>, i: nat)
    requires i < |ids|
    ensures Scan(cached, bus, binding, ids[i..]) ==
      if Switched(cached, bus, ids[i]) && Bound(bus, binding, ids[i]) then
        (Noted(cached, bus, ids[i]), binding[AsUsize(bus[ids[i]])])
      else Scan(Noted(cached, bus, ids[i]), bus, binding, ids[i + 1..])
  {
    assert ids[i..][1..] == ids[i + 1..];
  }

  /** Perform mode takes no notice of the bus, which is a scan of an empty one. */
  lemma {:induction false} SilentScan(cached: map<nat, nat>, binding: Binding, ids: seq<nat>)
    ensures Scan(cached, map[], binding, ids) == (cached, None)
    decreases |ids|
  {
    if ids == [] {
    } else {
      SilentScan(cached, binding, ids[1..]);
    }
  }

  /** The kits still owed: one for each sequencer that has switched to a pattern with a kit, in scanning order. */
  function Owed(cached: map<nat, nat>, bus: map<nat, int>, binding: Binding, ids: seq<nat>): seq<nat>
    decreases |ids|
  {
    if ids == [] then []
    else
      (if Switched(cached, bus, ids[0]) && Bound(bus, binding,
        ids[0]) then [binding[AsUsize(bus[ids[0]])].value] else [])
      + Owed(cached, bus, binding, ids[1..])
  }

  predicate Distinct(ids: seq<nat>) {
    forall i, j | 0 <= i < j < |ids| :: ids[i] != ids[j]
  }

  predicate SameOn(a: map<nat, nat>, b: map<nat, nat>, ids: seq<nat>) {
    forall i | 0 <= i < |ids| :: (ids[i] in a <==> ids[i] in b) && (ids[i] in a ==> a[ids[i]] == b[ids[i]])
  }

  lemma {:induction false} OwedFrame(a: map<nat, nat>, b: map<nat, nat>, bus: map<nat, int>, binding: Binding,
      ids: seq<nat>)
    requires SameOn(a, b, ids)
    ensures Owed(a, bus, binding, ids) == Owed(b, bus, binding, ids)
    decreases |ids|
  {
    if ids == [] {
    } else {
      assert ids[0] in a <==> ids[0] in b;
      OwedFrame(a, b, bus, binding, ids[1..]);
    }
  }

  lemma {:induction false} ScanFrame(cached: map<nat, nat>, bus: map<nat, int>, binding: Binding, ids: seq<nat>,
      id: nat)
    requires id !in ids
    ensures SameOn(Scan(cached, bus, binding, ids).0, cached, [id])
    decreases |ids|
  {
    if ids == [] {
    } else {
      ScanFrame(Noted(cached, bus, ids[0]), bus, binding, ids[1..], id);
    }
  }

  /** Every sequencer playing a pattern is remembered as playing it. */
  predicate InStep(cached: map<nat, nat>, bus: map<nat, int>, ids: seq<nat>) {
    forall i | 0 <= i < |ids| :: Playing(bus, ids[i]) ==> ids[i] in cached && cached[ids[i]] == AsUsize(bus[ids[i]])
  }

  /** A scan pays the first kit owed and leaves the others owed. */
  lemma {:induction false} ScanPaysFirst(cached: map<nat, nat>, bus: map<nat, int>, binding: Binding, ids: seq<nat>)
    requires Distinct(ids)
    ensures var owed := Owed(cached, bus, binding, ids);
            var scan := Scan(cached, bus, binding, ids);
            && scan.1 == (if owed == [] then None else Some(owed[0]))
            && Owed(scan.0, bus, binding, ids) == (if owed == [] then [] else owed[1..])
            && (owed == [] ==> InStep(scan.0, bus, ids))
    decreases |ids|
  {
    if ids == [] {
    } else {
      var id, rest := ids[0], ids[1..];
      var noted := Noted(cached, bus, id);
      assert id !in rest;
      OwedFrame(noted, cached, bus, binding, rest);
      if !(Switched(cached, bus, id) && Bound(bus, binding, id)) {
        ScanPaysFirst(noted, bus, binding, rest);
        ScanFrame(noted, bus, binding, rest, id);
        var scan := Scan(cached, bus, binding, ids);
        assert [id][0] in scan.0 <==> [id][0] in noted;
        assert !(Switched(scan.0, bus, id) && Bound(bus, binding, id));
        if Owed(cached, bus, binding, ids) == [] {
          assert InStep(scan.0, bus, rest);
          forall i | 0 <= i < |ids| && Playing(bus, ids[i])
            ensures ids[i] in scan.0 && scan.0[ids[i]] == AsUsize(bus[ids[i]])
          {
            if i > 0 { assert rest[i - 1] == ids[i]; }
          }
        }
      }
    }
  }

  /** The kits loaded by successive scans of one bus. */
  function Loads(cached: map<nat, nat>, bus: map<nat, int>, binding: Binding, ids: seq<nat>, ticks: nat): seq<nat>
    decreases ticks
  {
    if ticks == 0 then [] else
      var scan := Scan(cached, bus, binding, ids);
      (if scan.1.Some? then [scan.1.value] else []) + Loads(scan.0, bus, binding, ids, ticks - 1)
  }

  /** While the bus holds still, every switch to a pattern with a kit loads it exactly once, one a tick, in order. */
  lemma {:induction false} SwitchesServedInOrder(cached: map<nat, nat>, bus: map<nat, int>, binding: Binding,
      ids: seq<nat>, ticks: nat)
    requires Distinct(ids)
    ensures var owed := Owed(cached, bus, binding, ids);
            Loads(cached, bus, binding, ids, ticks) == owed[..if ticks < |owed| then ticks else |owed|]
    decreases ticks
  {
    if ticks == 0 {
    } else {
      var owed, next := Owed(cached, bus, binding, ids), Scan(cached, bus, binding, ids).0;
      ScanPaysFirst(cached, bus, binding, ids);
      SwitchesServedInOrder(next, bus, binding, ids, ticks - 1);
      if owed != [] { assert owed == [owed[0]] + owed[1..]; }
    }
  }

  // ── Loads ──────────────────────────────────────────────────────────────────

  /** The entries of a kit that is there; an id past the slots, or an empty slot, has none. */
  function Entries(kits: seq<Option<Kit>>, kit: Option<nat>): Option<seq<KitEntry>> {
    if kit.Some? && kit.value < KIT_SLOTS && kit.value < |kits| && kits[kit.value].Some?
    then Some(kits[kit.value].value.entries)
    else None
  }

  /** A load drops what was still to send. */
  function LoadedWith(s: Applying, load: Option<seq<KitEntry>>): Applying {
    if load.Some? then s.(pending := load.value) else s
  }

  // ── The state the main loop ticks ──────────────────────────────────────────

  /** The ring of commands to the audio side; `accepts` says which calls find room. */
  class CommandRing {
    const accepts: nat -> bool
    var calls: nat
    var sent: seq<NodeCommand>

    constructor (accepts: nat -> bool)
      ensures this.accepts == accepts && calls == 0 && sent == []
    {
      this.accepts, calls, sent := accepts, 0, [];
    }

    method SendCommand(cmd: NodeCommand) returns (ok: bool)
      modifies this
      ensures ok == accepts(old(calls)) && calls == old(calls) + 1
      ensures sent == old(sent) + if ok then [cmd] else []
    {
      ok := accepts(calls);
      calls := calls + 1;
      if ok { sent := sent + [cmd]; }
    }
  }

  /** One command of this kind to each node for which the ring has room, asked in turn. */
  function Told(accepts: nat -> bool, calls: nat, ids: seq<nat>, kind: nat): seq<NodeCommand> {
    if ids == [] then []
    else
      var last := |ids| - 1;
      Told(accepts, calls, ids[..last], kind)
      + if accepts(calls + last) then [NodeCommand(ids[last], kind, 0, 0.0)] else []
  }

  class PerformState {
    var kits: seq<Option<Kit>>
    var kitBinding: Binding
    var performMode: bool
    var tempSnapshot: Option<seq<KitEntry>>
    var cachedPatterns: map<nat, nat>
    var applyPending: seq<KitEntry>
    /** Every entry the ring has taken, the entries last loaded, and how many it had taken at that load. */
    ghost var accepted: seq<KitEntry>
    ghost var loaded: seq<KitEntry>
    ghost var loadedAt: nat

    constructor ()
      ensures Valid() && applyPending == [] && !performMode && cachedPatterns == map[]
    {
      kits := seq(KIT_SLOTS, _ => None);
      kitBinding := seq(PATTERNS, _ => None);
      performMode, tempSnapshot, cachedPatterns := false, None, map[];
      applyPending, loaded, accepted, loadedAt := [], [], [], 0;
    }

    /** What has gone out since the last load and what is still to go are that load, in order. */
    ghost predicate Valid()
      reads this
    {
      loadedAt <= |accepted| && accepted[loadedAt..] + applyPending == loaded
    }

    ghost function Value(conf: CommandRing): Applying
      reads this, conf
    {
      Applying(applyPending, accepted, conf.calls)
    }

    method Requeue(entries: seq<KitEntry>)
      modifies this`applyPending
      ensures applyPending == entries + old(applyPending)
    {
      var i := |entries|;
      while i > 0
        invariant 0 <= i <= |entries| && applyPending == entries[i..] + old(applyPending)
      {
        i := i - 1;
        assert entries[i..] == [entries[i]] + entries[i + 1..];
        applyPending := [entries[i]] + applyPending;
      }
    }

    /** Sends until the ring refuses; says how many it took. */
    method SendChunk(chunk: seq<KitEntry>, conf: CommandRing) returns (taken: nat)
      modifies conf
      ensures taken == Taken(conf.accepts, old(conf.calls), |chunk|)
      ensures conf.calls == old(conf.calls) + if taken < |chunk| then taken + 1 else taken
      ensures conf.sent == old(conf.sent) + Commands(chunk[..taken])
    {
      taken := 0;
      while taken < |chunk|
        invariant 0 <= taken <= |chunk|
        invariant conf.calls == old(conf.calls) + taken && conf.sent == old(conf.sent) + Commands(chunk[..taken])
        invariant Taken(conf.accepts, old(conf.calls), |chunk|) == taken + Taken(conf.accepts, conf.calls,
          |chunk| - taken)
      {
        var ok := conf.SendCommand(SetParam(chunk[taken]));
        if !ok {
          return;
        }
        assert chunk[..taken + 1] == chunk[..taken] + [chunk[taken]];
        taken := taken + 1;
      }
    }

    /** Sends one chunk; on a refusal the refused entry and everything after it go back in front. */
    method ApplyPendingChunk(conf: CommandRing)
      requires Valid()
      modifies this`applyPending, this`accepted, conf
      ensures Valid() && Value(conf) == TickOf(old(Value(conf)), conf.accepts)
      ensures old(accepted) <= accepted && conf.sent == old(conf.sent) + Commands(accepted[|old(accepted)|..])
    {
      ghost var whole := applyPending;
      if applyPending == [] {
        return;
      }
      var n := ChunkOf(|applyPending|);
      var chunk := applyPending[..n];
      applyPending := applyPending[n..];
      var taken := SendChunk(chunk, conf);
      if taken < n {
        Requeue(chunk[taken..]);
      }
      assert applyPending == whole[taken..] && chunk[..taken] == whole[..taken] by { SentChunk(whole, n, taken); }
      Handed(accepted, loadedAt, whole, taken);
      accepted := accepted + chunk[..taken];
    }

    /** Drops what is left of the last load. */
    method Load(entries: seq<KitEntry>)
      modifies this`applyPending, this`loaded, this`loadedAt
      ensures Valid() && applyPending == loaded == entries
    {
      applyPending, loaded, loadedAt := entries, entries, |accepted|;
    }

    method KitLoad(id: nat)
      requires Valid()
      modifies this`applyPending, this`loaded, this`loadedAt
      ensures Valid()
      ensures id >= 64 || id >= |kits| || kits[id].None? ==> applyPending == old(applyPending) && loaded == old(loaded)
      ensures id < 64 && id < |kits| && kits[id].Some? ==> applyPending == loaded == kits[id].value.entries
      ensures applyPending == Entries(kits, Some(id)).GetOr(old(applyPending))
      ensures loaded == Entries(kits, Some(id)).GetOr(old(loaded))
    {
      if id >= KIT_SLOTS {
        return;
      }
      if id < |kits| && kits[id].Some? {
        Load(kits[id].value.entries);
      }
    }

    /** Takes note of one sequencer's pattern; the kit bound to it when that is a switch. */
    method Look(bus: map<nat, int>, seqId: nat) returns (kit: Option<nat>)
      modifies this`cachedPatterns
      ensures cachedPatterns == Noted(old(cachedPatterns), bus, seqId)
      ensures kit == if Switched(old(cachedPatterns), bus, seqId) && Bound(bus, kitBinding, seqId)
                     then kitBinding[AsUsize(bus[seqId])] else None
    {
      kit := None;
      if seqId in bus {
        var pattern := AsUsize(bus[seqId]);
        var prev := if seqId in cachedPatterns then Some(cachedPatterns[seqId]) else None;
        if prev.None? {
          if pattern < PATTERNS {
            cachedPatterns := cachedPatterns[seqId := pattern];
          }
        } else if prev != Some(pattern) && pattern < PATTERNS {
          cachedPatterns := cachedPatterns[seqId := pattern];
          kit := kitBinding[pattern];
        }
      }
    }

    method CheckPatternSwitches(bus: map<nat, int>)
      requires Valid()
      modifies this`cachedPatterns, this`applyPending, this`loaded, this`loadedAt
      ensures Valid() && cachedPatterns == Scan(old(cachedPatterns), bus, kitBinding, SEQUENCERS).0
      ensures var load := Entries(kits, Scan(old(cachedPatterns), bus, kitBinding, SEQUENCERS).1);
              applyPending == load.GetOr(old(applyPending)) && loaded == load.GetOr(old(loaded))
    {
      for i := 0 to |SEQUENCERS|
        invariant Scan(old(cachedPatterns), bus, kitBinding, SEQUENCERS)
               == Scan(cachedPatterns, bus, kitBinding, SEQUENCERS[i..])
        invariant applyPending == old(applyPending) && loaded == old(loaded) && loadedAt == old(loadedAt)
      {
        ScanStep(cachedPatterns, bus, kitBinding, SEQUENCERS, i);
        var kit := Look(bus, SEQUENCERS[i]);
        if kit.Some? {
          KitLoad(kit.value);
          return;
        }
      }
    }

    /** One tick: a chunk of the load in progress, then, outside perform mode, a look for switches. */
    method Tick(conf: CommandRing, bus: map<nat, int>)
      requires Valid()
      modifies this`applyPending, this`accepted, this`loaded, this`loadedAt, this`cachedPatterns, conf
      ensures Valid()
      ensures old(accepted) <= accepted && conf.sent == old(conf.sent) + Commands(accepted[|old(accepted)|..])
      ensures var scan := Scan(old(cachedPatterns), if performMode then map[] else bus, kitBinding, SEQUENCERS);
              cachedPatterns == scan.0 && Value(conf) == LoadedWith(TickOf(old(Value(conf)), conf.accepts),
                Entries(kits, scan.1))
    {
      ApplyPendingChunk(conf);
      if !performMode {
        CheckPatternSwitches(bus);
      } else {
        SilentScan(cachedPatterns, kitBinding, SEQUENCERS);
      }
    }

    method BindKit(slot: nat, kit: Option<nat>)
      requires Valid()
      modifies this`kitBinding
      ensures Valid() && kitBinding == if slot < PATTERNS then old(kitBinding)[slot := kit] else old(kitBinding)
    {
      if slot < PATTERNS { kitBinding := kitBinding[slot := kit]; }
    }

    /** Tells every sequencer, room or no room, then replays the snapshot if one was saved. */
    method TempReload(conf: CommandRing, reload: nat)
      requires Valid()
      modifies this`applyPending, this`loaded, this`loadedAt, conf
      ensures Valid() && conf.calls == old(conf.calls) + 8
      ensures conf.sent == old(conf.sent) + Told(conf.accepts, old(conf.calls), SEQUENCERS, reload)
      ensures applyPending == tempSnapshot.GetOr(old(applyPending)) && loaded == tempSnapshot.GetOr(old(loaded))
    {
      for i := 0 to |SEQUENCERS|
        invariant unchanged(this) && conf.calls == old(conf.calls) + i
        invariant conf.sent == old(conf.sent) + Told(conf.accepts, old(conf.calls), SEQUENCERS[..i], reload)
      {
        assert SEQUENCERS[..i + 1][..i] == SEQUENCERS[..i];
        var _ := conf.SendCommand(NodeCommand(SEQUENCERS[i], reload, 0, 0.0));
      }
      assert SEQUENCERS[..|SEQUENCERS|] == SEQUENCERS;
      if tempSnapshot.Some? {
        Load(tempSnapshot.value);
      }
    }
  }

  // ── Patterns and kits by their numbers ─────────────────────────────────────

  /** A sequencer plays a pattern when its 64-bit number is one of the eight; a negative one is none. */
  lemma PlaysIff(bus: map<nat, int>, id: nat)
    requires id in bus ==> -0x8000_0000_0000_0000 <= bus[id] < 0x8000_0000_0000_0000
    ensures Playing(bus, id) <==> id in bus && 0 <= bus[id] < 8
    ensures Playing(bus, id) ==> AsUsize(bus[id]) == bus[id]
  {
  }

  /** A kit is owed for a sequencer seen before, now playing another of the eight patterns, and that one bound. */
  lemma OwedIff(cached: map<nat, nat>, bus: map<nat, int>, binding: Binding, id: nat)
    requires id in bus ==> -0x8000_0000_0000_0000 <= bus[id] < 0x8000_0000_0000_0000
    ensures |binding| == 8
    ensures if id in bus && 0 <= bus[id] < 8 && id in cached && cached[id] != bus[id] && binding[bus[id]].Some?
            then Owed(cached, bus, binding, [id]) == [binding[bus[id]].value]
            else Owed(cached, bus, binding, [id]) == []
  {
    PlaysIff(bus, id);
    assert [id][1..] == [];
  }

  lemma SequencersAre()
    ensures |SEQUENCERS| == 8 && forall i | 0 <= i < 8 :: SEQUENCERS[i] == 10 + i
  {
  }

  /** Each entry goes out as a set command, kind 0, to its node and param with its value. */
  lemma CommandsAre(entries: seq<KitEntry>, i: nat)
    requires i < |entries|
    ensures |Commands(entries)| == |entries|
    ensures Commands(entries)[i] == NodeCommand(entries[i].nodeId, 0, entries[i].paramId, entries[i].value)
  {
  }

  /** A tick hands over at most sixteen entries, and all of them if there are no more and none is refused. */
  lemma TickHandsOver(s: Applying, accepts: nat -> bool)
    ensures |TickOf(s, accepts).pending| >= |s.pending| - 16
    ensures NeverRefuses(accepts) && |s.pending| <= 16 ==> TickOf(s, accepts).pending == []
  {
    if NeverRefuses(accepts) { TickTakesChunk(s, accepts); }
  }
}
