/** What the pump notes for the client threads: each node's selected machine, and the kit list. */
module Selections {
  import opened StateBus
  import opened Clients
  import opened Mirror
  import opened AntiphonRun
  import opened Shown

  /** No other watched path names the node that `path` names. */
  predicate Sole(watched: Watched, path: string) {
    path in watched && forall q | q in watched && watched[q] == watched[path] :: q == path
  }

  /** While the value last seen at a node's one watched path is not negative, it is the node's selection. */
  ghost predicate NotesMachines(shadow: map<string, real>, selections: map<nat, nat>, watched: Watched) {
    forall p | p in shadow && Sole(watched, p) && shadow[p] >= 0.0 ::
      watched[p] in selections && selections[watched[p]] == ToU32(shadow[p])
  }

  ghost predicate NotesKits(contextShadow: Bus, kitsLine: string) {
    KITS_PATH in contextShadow && contextShadow[KITS_PATH].Text? ==> kitsLine == contextShadow[KITS_PATH].s
  }

  ghost predicate Notes(m: Mirror, watched: Watched) {
    NotesMachines(m.shadow, m.selections, watched) && NotesKits(m.contextShadow, m.kitsLine)
  }

  lemma NumberNoted(m: Mirror, watched: Watched, path: string, v: real)
    requires Notes(m, watched)
    ensures Notes(NumberSeen(m, watched, path, v), watched)
  {
  }

  lemma FlushNotes(m: Mirror, watched: Watched)
    requires Notes(m, watched)
    ensures Notes(Flushed(m), watched)
  {
  }

  lemma ScannedNotes(m: Mirror, watched: Watched, path: string, value: BusValue, evs: seq<ClientEvent>)
    requires Notes(m, watched)
    ensures Notes(Scanned(m, watched, path, value, evs), watched)
  {
    if IsContext(path) {
      assert Notes(ContextSeen(m, path, value), watched);
    } else if Changes(m, path, value) {
      NumberNoted(m, watched, path, Coerce(value));
      FlushNotes(Interrupted(NumberSeen(m, watched, path, Coerce(value)), evs), watched);
    }
  }

  lemma {:induction false} ScanNotes(m: Mirror, watched: Watched, bus: Bus, order: seq<string>,
      env: seq<seq<ClientEvent>>, k: nat)
    requires Notes(m, watched) && k <= |order| < |env|
    requires forall i | 0 <= i < |order| :: order[i] in bus
    ensures Notes(ScannedTo(m, watched, bus, order, env, k), watched)
  {
    if k == 0 {
    } else {
      ScanNotes(m, watched, bus, order, env, k - 1);
      ScannedNotes(ScannedTo(m, watched, bus, order, env, k - 1), watched, order[k - 1], bus[order[k - 1]], env[k]);
    }
  }

  lemma ClosedNotes(m: Mirror, watched: Watched, context: ContextSnapshot, beforeState: seq<ClientEvent>,
      beforeContext: seq<ClientEvent>, now: nat)
    requires Notes(m, watched)
    ensures Notes(Closed(m, context, beforeState, beforeContext, now), watched)
  {
    if Due(m.lastFlush, now) {
      FlushNotes(Interrupted(m, beforeState), watched);
    }
  }

  lemma PumpNotes(m: Mirror, watched: Watched, bus: Bus, order: seq<string>, env: seq<seq<ClientEvent>>, now: nat)
    requires Notes(m, watched) && IsOrder(order, bus) && |env| == |order| + 3
    ensures Notes(Pumped(m, watched, bus, order, env, now), watched)
  {
    var n := |order|;
    var served := Replayed(Interrupted(m, env[0]), Snapshot(bus));
    ScanNotes(served, watched, bus, order, env, n);
    ClosedNotes(ScannedTo(served, watched, bus, order, env, n), watched, Snapshot(bus), env[n + 1], env[n + 2], now);
  }

  lemma StepNotes(w: World, watched: Watched, e: Event)
    requires Notes(w.mirror, watched) && Possible(w, e)
    ensures Notes(Next(w, watched, e).mirror, watched)
  {
    if e.Pump? {
      PumpNotes(w.mirror, watched, w.bus, e.order, e.env, e.now);
    }
  }

  /** In every run the notes follow the shadows. */
  lemma {:induction false} RunNotes(bus: Bus, watched: Watched, events: seq<Event>)
    requires IsRun(bus, watched, events)
    ensures Notes(After(bus, watched, events).mirror, watched)
    decreases |events|
  {
    if events == [] {
    } else {
      var before, e := events[..|events| - 1], events[|events| - 1];
      RunNotes(bus, watched, before);
      StepNotes(After(bus, watched, before), watched, e);
    }
  }

  /**
    * After any pump, due or not, every watched machine value on the bus that is not negative is its node's
    * selection, and the kit list is the bus's.
    */
  lemma PumpPublishes(bus: Bus, watched: Watched, events: seq<Event>, order: seq<string>, env: seq<seq<ClientEvent>>,
      now: nat)
    requires IsRun(bus, watched, events)
    requires IsOrder(order, After(bus, watched, events).bus) && |env| == |order| + 3
    ensures var w := After(bus, watched, events);
      var m := Pumped(w.mirror, watched, w.bus, order, env, now);
      && (forall p | Sole(watched, p) && Mirrors(w.bus, p) && Coerce(w.bus[p]) >= 0.0 ::
           watched[p] in m.selections && m.selections[watched[p]] == ToU32(Coerce(w.bus[p])))
      && (KITS_PATH in w.bus && w.bus[KITS_PATH].Text? ==> m.kitsLine == w.bus[KITS_PATH].s)
  {
    var w := After(bus, watched, events);
    var m := Pumped(w.mirror, watched, w.bus, order, env, now);
    assert m.shadow == w.mirror.shadow + MirrorOf(w.bus) && m.contextShadow == ContextOf(w.bus) by {
      RunSound(bus, watched, events);
      PumpReads(w.mirror, w.bus, watched, order, env, now);
    }
    assert Notes(m, watched) by {
      RunNotes(bus, watched, events);
      PumpNotes(w.mirror, watched, w.bus, order, env, now);
    }
    forall p | Sole(watched, p) && Mirrors(w.bus, p) && Coerce(w.bus[p]) >= 0.0
      ensures watched[p] in m.selections && m.selections[watched[p]] == ToU32(Coerce(w.bus[p]))
    {
      assert p in MirrorOf(w.bus) && m.shadow[p] == MirrorOf(w.bus)[p];
    }
    if KITS_PATH in w.bus && w.bus[KITS_PATH].Text? {
      assert IsContext(KITS_PATH) by { assert KITS_PATH == "/context/" + "kits"; }
      assert m.contextShadow[KITS_PATH] == w.bus[KITS_PATH];
    }
  }

  /** The whole part of a number, in 32 bits. */
  predicate WholePart(v: real, n: nat) {
    if v < 4294967296.0 then n as real <= v < n as real + 1.0 else n == 4294967295
  }

  /**
    * After any pump a node with one machine path selects the whole part of the value there, and the kit list
    * is the bus's.
    */
  lemma PumpSelects(bus: Bus, watched: Watched, events: seq<Event>, order: seq<string>, env: seq<seq<ClientEvent>>,
      now: nat, p: string, v: real)
    requires IsRun(bus, watched, events)
    requires var b := After(bus, watched, events).bus;
      IsOrder(order, b) && |env| == |order| + 3 && p in b && OnMirror(p) && Sole(watched, p) && Carries(b[p],
        v) && v >= 0.0
    ensures var w := After(bus, watched, events);
      var m := Pumped(w.mirror, watched, w.bus, order, env, now);
      && watched[p] in m.selections && WholePart(v, m.selections[watched[p]])
      && ("/context/kits" in w.bus && w.bus["/context/kits"].Text? ==> m.kitsLine == w.bus["/context/kits"].s)
  {
    PumpPublishes(bus, watched, events, order, env, now);
    MirroredNumber(After(bus, watched, events).bus, p);
    ToU32Is(v);
  }
}
