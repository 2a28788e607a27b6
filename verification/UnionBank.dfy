/** The machine host's parameter set: every machine's params merged at their widest ranges. */
module UnionBank {
  import opened ParameterBank

  function Lower(x: F64, y: F64): F64 { if AtMost(x, y) then x else y }

  function Upper(x: F64, y: F64): F64 { if AtMost(x, y) then y else x }

  function IndexOf(out: seq<Descriptor>, id: U32): (i: nat)
    ensures i <= |out|
    ensures i < |out| ==> out[i].id == id
    ensures forall k | 0 <= k < i :: out[k].id != id
  {
    var slots := Built(out);
    assert forall k | 0 <= k < |out| :: slots[k].id == out[k].id;
    Find(slots, id)
  }

  function Merged(q: Descriptor, p: Descriptor, active: bool): Descriptor {
    Descriptor(q.id, Lower(q.min, p.min), Upper(q.max, p.max), if active then p.default else q.default)
  }

  function Added(out: seq<Descriptor>, p: Descriptor, active: bool): seq<Descriptor> {
    var i := IndexOf(out, p.id);
    if i < |out| then out[i := Merged(out[i], p, active)] else out + [p]
  }

  function AddedAll(out: seq<Descriptor>, ps: seq<Descriptor>, active: bool): seq<Descriptor> {
    if ps == [] then out else Added(AddedAll(out, ps[..|ps| - 1], active), ps[|ps| - 1], active)
  }

  /** The machine-invariant params, then the machines' in declaration order, merged by id. */
  function Union(base: seq<Descriptor>, machines: seq<seq<Descriptor>>, active: nat): seq<Descriptor> {
    if machines == [] then base
    else
      var m := |machines| - 1;
      AddedAll(Union(base, machines[..m], active), machines[m], m == active)
  }

  /** A machine host: the id of its `machine` param, how it writes whole numbers, its LFO and its machines. */
  datatype Host = Host(machineId: U32, number: nat -> F64, lfo: seq<Descriptor>, machines: seq<seq<Descriptor>>)

  /** The params no machine declares. Only the default of `machine` depends on the active one. */
  function Base(h: Host, active: nat): seq<Descriptor>
    requires h.machines != []
  {
    [Descriptor(h.machineId, h.number(0), h.number(|h.machines| - 1), h.number(active))] + h.lfo
  }

  function Params(h: Host, active: nat): seq<Descriptor>
    requires h.machines != []
  {
    Union(Base(h, active), h.machines, active)
  }

  lemma IndexIs(out: seq<Descriptor>, id: U32, i: nat)
    requires i <= |out| && (i < |out| ==> out[i].id == id)
    requires forall k | 0 <= k < i :: out[k].id != id
    ensures IndexOf(out, id) == i
  {
  }

  /** Merges one param into the list: widens its first namesake, or goes to the end. */
  method Merge(before: seq<Descriptor>, p: Descriptor, active: bool) returns (out: seq<Descriptor>)
    ensures out == Added(before, p, active)
  {
    var i := 0;
    while i < |before| && before[i].id != p.id
      invariant i <= |before| && forall k | 0 <= k < i :: before[k].id != p.id
    {
      i := i + 1;
    }
    IndexIs(before, p.id, i);
    out := if i < |before| then before[i := Merged(before[i], p, active)] else before + [p];
  }

  method UnionParams(h: Host, active: nat) returns (out: seq<Descriptor>)
    requires h.machines != []
    ensures out == Params(h, active)
  {
    out := [Descriptor(h.machineId, h.number(0), h.number(|h.machines| - 1), h.number(active))] + h.lfo;
    ghost var base := out;
    for m := 0 to |h.machines|
      invariant out == Union(base, h.machines[..m], active)
    {
      ghost var before := out;
      var ps := h.machines[m];
      for n := 0 to |ps|
        invariant out == AddedAll(before, ps[..n], m == active)
      {
        assert ps[..n + 1][..n] == ps[..n];
        out := Merge(out, ps[n], m == active);
      }
      assert ps[..|ps|] == ps;
      assert h.machines[..m + 1][..m] == h.machines[..m];
    }
    assert h.machines[..|h.machines|] == h.machines;
  }

  // ── Ids and ranges do not depend on the active machine ─────────────────────

  ghost predicate DistinctIds(out: seq<Descriptor>) {
    forall i, j | 0 <= i < j < |out| :: out[i].id != out[j].id
  }

  ghost predicate SameFrame(a: seq<Descriptor>, b: seq<Descriptor>) {
    |a| == |b| && forall i | 0 <= i < |a| :: a[i].(default := 0) == b[i].(default := 0)
  }

  lemma {:induction false} SameIndex(a: seq<Descriptor>, b: seq<Descriptor>, id: U32)
    requires SameFrame(a, b)
    ensures IndexOf(a, id) == IndexOf(b, id)
  {
    var i := IndexOf(b, id);
    assert forall k | 0 <= k < |a| :: a[k].(default := 0).id == b[k].(default := 0).id;
    IndexIs(a, id, i);
  }

  lemma AddedFrame(a: seq<Descriptor>, b: seq<Descriptor>, p: Descriptor, inA: bool, inB: bool)
    requires SameFrame(a, b)
    ensures SameFrame(Added(a, p, inA), Added(b, p, inB))
  {
    SameIndex(a, b, p.id);
    var i := IndexOf(a, p.id);
    if i < |a| {
      assert a[i].(default := 0) == b[i].(default := 0);
      assert Merged(a[i], p, inA).(default := 0) == Merged(a[i].(default := 0), p, false).(default := 0);
      assert Merged(b[i], p, inB).(default := 0) == Merged(b[i].(default := 0), p, false).(default := 0);
    }
  }

  lemma {:induction false} AddedAllFrame(a: seq<Descriptor>, b: seq<Descriptor>, ps: seq<Descriptor>, inA: bool,
      inB: bool)
    requires SameFrame(a, b)
    ensures SameFrame(AddedAll(a, ps, inA), AddedAll(b, ps, inB))
    decreases |ps|
  {
    if ps == [] {
    } else {
      AddedAllFrame(a, b, ps[..|ps| - 1], inA, inB);
      AddedFrame(AddedAll(a, ps[..|ps| - 1], inA), AddedAll(b, ps[..|ps| - 1], inB), ps[|ps| - 1], inA, inB);
    }
  }

  lemma {:induction false} UnionFrame(x: seq<Descriptor>, y: seq<Descriptor>, machines: seq<seq<Descriptor>>, a: nat,
      b: nat)
    requires SameFrame(x, y)
    ensures SameFrame(Union(x, machines, a), Union(y, machines, b))
    decreases |machines|
  {
    if machines == [] {
    } else {
      var m := |machines| - 1;
      UnionFrame(x, y, machines[..m], a, b);
      AddedAllFrame(Union(x, machines[..m], a), Union(y, machines[..m], b), machines[m], m == a, m == b);
    }
  }

  /** Whatever machine is active, the ids, their order and their ranges are the same. */
  lemma ActiveOnlyPicksDefaults(h: Host, a: nat, b: nat)
    requires h.machines != []
    ensures SameFrame(Params(h, a), Params(h, b))
  {
    UnionFrame(Base(h, a), Base(h, b), h.machines, a, b);
  }

  // ── What the union covers ──────────────────────────────────────────────────

  /** Slot j admits everything `p` admits. */
  ghost predicate Covers(out: seq<Descriptor>, j: nat, p: Descriptor) {
    j < |out| && out[j].id == p.id && AtMost(out[j].min, p.min) && AtMost(p.max, out[j].max)
  }

  ghost predicate Accommodates(out: seq<Descriptor>, p: Descriptor) {
    exists j: nat :: Covers(out, j, p)
  }

  ghost predicate AccommodatesAll(out: seq<Descriptor>, ps: seq<Descriptor>) {
    forall n | 0 <= n < |ps| :: Accommodates(out, ps[n])
  }

  ghost predicate AllRanged(out: seq<Descriptor>) {
    forall i | 0 <= i < |out| :: Ranged(out[i].min, out[i].max)
  }

  lemma Widening(before: seq<Descriptor>, after: seq<Descriptor>, ps: seq<Descriptor>)
    requires AccommodatesAll(after, before) && AccommodatesAll(before, ps)
    ensures AccommodatesAll(after, ps)
  {
    forall n | 0 <= n < |ps| ensures Accommodates(after, ps[n]) {
      assert Accommodates(before, ps[n]);
      var j: nat :| Covers(before, j, ps[n]);
      assert Accommodates(after, before[j]);
      var k: nat :| Covers(after, k, before[j]);
      assert Covers(after, k, ps[n]);
    }
  }

  lemma AddedKeeps(out: seq<Descriptor>, p: Descriptor, active: bool)
    requires DistinctIds(out) && AllRanged(out) && Ranged(p.min, p.max)
    ensures DistinctIds(Added(out, p, active)) && AllRanged(Added(out, p, active))
    ensures AccommodatesAll(Added(out, p, active), out) && Accommodates(Added(out, p, active), p)
  {
    var i := IndexOf(out, p.id);
    assert Covers(Added(out, p, active), i, p);
    forall j | 0 <= j < |out| ensures Accommodates(Added(out, p, active), out[j]) {
      assert Covers(Added(out, p, active), j, out[j]);
    }
  }

  lemma AccommodatesJoin(r: seq<Descriptor>, front: seq<Descriptor>, p: Descriptor)
    requires AccommodatesAll(r, front) && Accommodates(r, p)
    ensures AccommodatesAll(r, front + [p])
  {
    forall n | 0 <= n < |front| + 1 ensures Accommodates(r, (front + [p])[n]) {
      if n < |front| { assert Accommodates(r, front[n]); }
    }
  }

  lemma {:induction false} AddedAllKeeps(out: seq<Descriptor>, ps: seq<Descriptor>, active: bool)
    requires DistinctIds(out) && AllRanged(out) && AllRanged(ps)
    ensures var r := AddedAll(out, ps, active);
      DistinctIds(r) && AllRanged(r) && AccommodatesAll(r, out) && AccommodatesAll(r, ps)
    decreases |ps|
  {
    if ps == [] {
      forall j | 0 <= j < |out| ensures Accommodates(out, out[j]) { assert Covers(out, j, out[j]); }
    } else {
      var front, p := ps[..|ps| - 1], ps[|ps| - 1];
      var before, r := AddedAll(out, front, active), AddedAll(out, ps, active);
      AddedAllKeeps(out, front, active);
      assert DistinctIds(r) && AllRanged(r) && AccommodatesAll(r, before) && Accommodates(r, p) by {
        AddedKeeps(before, p, active);
      }
      assert AccommodatesAll(r, out) by { Widening(before, r, out); }
      assert AccommodatesAll(r, ps) by {
        Widening(before, r, front);
        AccommodatesJoin(r, front, p);
        assert ps == front + [p];
      }
    }
  }

  /** The union has one slot per id, and every machine's range of a param lies within that param's slot. */
  lemma {:induction false} UnionCovers(base: seq<Descriptor>, machines: seq<seq<Descriptor>>, active: nat)
    requires DistinctIds(base) && AllRanged(base) && forall m | 0 <= m < |machines| :: AllRanged(machines[m])
    ensures var r := Union(base, machines, active);
      && DistinctIds(r) && AllRanged(r) && AccommodatesAll(r, base)
      && (forall m | 0 <= m < |machines| :: AccommodatesAll(r, machines[m]))
    decreases |machines|
  {
    if machines == [] {
      forall j | 0 <= j < |base| ensures Accommodates(base, base[j]) { assert Covers(base, j, base[j]); }
    } else {
      var last := |machines| - 1;
      var front := machines[..last];
      var before, r := Union(base, front, active), Union(base, machines, active);
      UnionCovers(base, front, active);
      AddedAllKeeps(before, machines[last], last == active);
      Widening(before, r, base);
      forall m | 0 <= m < last ensures AccommodatesAll(r, machines[m]) {
        assert front[m] == machines[m];
        Widening(before, r, machines[m]);
      }
    }
  }

  // ── Nothing wider than a declaration, and the active machine's defaults ────

  ghost predicate GivesMin(p: Descriptor, d: Descriptor) { p.id == d.id && p.min == d.min }

  ghost predicate GivesMax(p: Descriptor, d: Descriptor) { p.id == d.id && p.max == d.max }

  /** Both ends of the range come from declarations of that id. */
  ghost predicate Declared(d: Descriptor, decls: set<Descriptor>) {
    (exists p :: p in decls && GivesMin(p, d)) && (exists p :: p in decls && GivesMax(p, d))
  }

  ghost predicate AllDeclared(out: seq<Descriptor>, decls: set<Descriptor>) {
    forall i | 0 <= i < |out| :: Declared(out[i], decls)
  }

  lemma AddedDeclared(out: seq<Descriptor>, p: Descriptor, active: bool, decls: set<Descriptor>)
    requires AllDeclared(out, decls) && p in decls
    ensures AllDeclared(Added(out, p, active), decls)
  {
    var i := IndexOf(out, p.id);
    if i < |out| {
      var d := Merged(out[i], p, active);
      assert Declared(out[i], decls);
      var low :| low in decls && GivesMin(low, out[i]);
      var high :| high in decls && GivesMax(high, out[i]);
      assert GivesMin(low, d) || GivesMin(p, d);
      assert GivesMax(high, d) || GivesMax(p, d);
    } else {
      assert GivesMin(p, p) && GivesMax(p, p);
    }
  }

  lemma {:induction false} AddedAllDeclared(out: seq<Descriptor>, ps: seq<Descriptor>, active: bool,
      decls: set<Descriptor>)
    requires AllDeclared(out, decls) && forall n | 0 <= n < |ps| :: ps[n] in decls
    ensures AllDeclared(AddedAll(out, ps, active), decls)
    decreases |ps|
  {
    if ps == [] {
    } else {
      AddedAllDeclared(out, ps[..|ps| - 1], active, decls);
      AddedDeclared(AddedAll(out, ps[..|ps| - 1], active), ps[|ps| - 1], active, decls);
    }
  }

  /** The envelope is no wider than the declarations make it: each end of a range is some declaration's. */
  lemma {:induction false} UnionTight(base: seq<Descriptor>, machines: seq<seq<Descriptor>>, active: nat,
      decls: set<Descriptor>)
    requires forall i | 0 <= i < |base| :: base[i] in decls
    requires forall m, n | 0 <= m < |machines| && 0 <= n < |machines[m]| :: machines[m][n] in decls
    ensures AllDeclared(Union(base, machines, active), decls)
    decreases |machines|
  {
    if machines == [] {
      forall i | 0 <= i < |base| ensures Declared(base[i], decls) {
        assert GivesMin(base[i], base[i]) && GivesMax(base[i], base[i]);
      }
    } else {
      var m := |machines| - 1;
      UnionTight(base, machines[..m], active, decls);
      AddedAllDeclared(Union(base, machines[..m], active), machines[m], m == active, decls);
    }
  }

  ghost predicate HasDefault(out: seq<Descriptor>, p: Descriptor) {
    exists j :: 0 <= j < |out| && out[j].id == p.id && out[j].default == p.default
  }

  lemma {:induction false} AddedAllDefaults(out: seq<Descriptor>, ps: seq<Descriptor>)
    requires DistinctIds(out) && AllRanged(out) && AllRanged(ps) && DistinctIds(ps)
    ensures forall n | 0 <= n < |ps| :: HasDefault(AddedAll(out, ps, true), ps[n])
    decreases |ps|
  {
    if ps == [] {
    } else {
      var front, p := ps[..|ps| - 1], ps[|ps| - 1];
      AddedAllDefaults(out, front);
      AddedAllKeeps(out, front, true);
      var before, r := AddedAll(out, front, true), AddedAll(out, ps, true);
      var i := IndexOf(before, p.id);
      assert r[i].id == p.id && r[i].default == p.default;
      forall n | 0 <= n < |front| ensures HasDefault(r, ps[n]) {
        assert HasDefault(before, front[n]);
        var j :| 0 <= j < |before| && before[j].id == front[n].id && before[j].default == front[n].default;
        assert r[j] == before[j];
      }
    }
  }

  lemma {:induction false} AddedAllKeepsDefaults(out: seq<Descriptor>, ps: seq<Descriptor>, p: Descriptor)
    requires HasDefault(out, p)
    ensures HasDefault(AddedAll(out, ps, false), p)
    decreases |ps|
  {
    if ps == [] {
    } else {
      var before := AddedAll(out, ps[..|ps| - 1], false);
      AddedAllKeepsDefaults(out, ps[..|ps| - 1], p);
      var j :| 0 <= j < |before| && before[j].id == p.id && before[j].default == p.default;
      assert AddedAll(out, ps, false)[j].default == p.default;
    }
  }

  /** Every param the active machine declares starts at that machine's default. */
  lemma {:induction false} ActiveDefaults(base: seq<Descriptor>, machines: seq<seq<Descriptor>>, active: nat)
    requires DistinctIds(base) && AllRanged(base) && forall m | 0 <= m < |machines| :: AllRanged(machines[m])
    requires active < |machines| && DistinctIds(machines[active])
    ensures forall n | 0 <= n < |machines[active]| :: HasDefault(Union(base, machines, active), machines[active][n])
    decreases |machines|
  {
    var m := |machines| - 1;
    var before := Union(base, machines[..m], active);
    UnionCovers(base, machines[..m], active);
    if m == active {
      AddedAllDefaults(before, machines[m]);
    } else {
      ActiveDefaults(base, machines[..m], active);
      forall n | 0 <= n < |machines[active]| ensures HasDefault(Union(base, machines, active), machines[active][n]) {
        AddedAllKeepsDefaults(before, machines[m], machines[active][n]);
      }
    }
  }

  // ── Lossless across machines ───────────────────────────────────────────────

  /** Ids are distinct before the merge, and every declared range is one. */
  ghost predicate Proper(h: Host) {
    && h.machines != [] && Ranged(h.number(0), h.number(|h.machines| - 1))
    && DistinctIds(h.lfo) && (forall i | 0 <= i < |h.lfo| :: h.lfo[i].id != h.machineId)
    && AllRanged(h.lfo) && (forall m | 0 <= m < |h.machines| :: AllRanged(h.machines[m]))
  }

  lemma ParamsCover(h: Host, active: nat)
    requires Proper(h)
    ensures DistinctIds(Params(h, active)) && AllRanged(Params(h, active))
    ensures forall m | 0 <= m < |h.machines| :: AccommodatesAll(Params(h, active), h.machines[m])
  {
    UnionCovers(Base(h, active), h.machines, active);
  }

  /** The slots are those of the host, whatever they hold. */
  ghost predicate Fits(params: seq<Descriptor>, slots: seq<Slot>) {
    |slots| == |params| && forall j | 0 <= j < |slots| ::
      slots[j].id == params[j].id && slots[j].min == params[j].min && slots[j].max == params[j].max
  }

  lemma FitsBank(params: seq<Descriptor>, slots: seq<Slot>)
    requires Fits(params, slots) && DistinctIds(params) && AllRanged(params)
    ensures Bank(slots) && UniqueIds(slots)
  {
  }

  lemma FrameFits(a: seq<Descriptor>, b: seq<Descriptor>, slots: seq<Slot>)
    requires SameFrame(a, b)
    ensures Fits(a, slots) <==> Fits(b, slots)
  {
    forall j | 0 <= j < |a| ensures a[j].id == b[j].id && a[j].min == b[j].min && a[j].max == b[j].max {
      assert a[j].(default := 0) == b[j].(default := 0);
    }
  }

  /** The session of one engine: its machine and its bank. */
  datatype Session = Session(active: nat, slots: seq<Slot>)

  /** Commands to the bank, a machine switch, or a save followed by a load into a rebuilt engine. */
  datatype Act =
    | Write(cs: seq<Command>)
    | Switch(machine: nat)
    | Reload(loading: nat, tail: seq<Byte>)

  /** The session's bank is the host's, whichever machine it was built for. */
  ghost predicate Sound(h: Host, s: Session) {
    Proper(h) && Fits(Params(h, 0), s.slots)
  }

  lemma SoundFits(h: Host, s: Session, active: nat)
    requires Sound(h, s)
    ensures Fits(Params(h, active), s.slots) && Bank(s.slots) && UniqueIds(s.slots)
    ensures Bank(Built(Params(h, active))) && UniqueIds(Built(Params(h, active)))
  {
    ParamsCover(h, active);
    ActiveOnlyPicksDefaults(h, 0, active);
    FrameFits(Params(h, 0), Params(h, active), s.slots);
    FitsBank(Params(h, active), s.slots);
    FitsBank(Params(h, active), Built(Params(h, active)));
  }

  ghost function Done(h: Host, s: Session, act: Act, add: Add): Session
    requires Sound(h, s)
  {
    SoundFits(h, s, s.active);
    match act
    case Write(cs) => s.(slots := CommandedAll(s.slots, cs, add))
    case Switch(machine) => s.(active := machine)
    case Reload(loading, tail) =>
      SoundFits(h, s, loading);
      Session(loading, Reloaded(Built(Params(h, loading)), s.slots, tail))
  }

  ghost predicate Touches(act: Act, id: U32) {
    act.Write? && exists i | 0 <= i < |act.cs| :: ParamOf(act.cs[i]) == id
  }

  lemma ReloadKeepsShape(slots: seq<Slot>, saved: seq<Slot>, tail: seq<Byte>)
    requires Bank(slots)
    ensures SameShape(slots, Reloaded(slots, saved, tail))
  {
    var data := Serialized(saved) + tail;
    LoadKeeps(slots, data, WholePairs(data));
  }

  lemma DoneSound(h: Host, s: Session, act: Act, add: Add)
    requires Sound(h, s)
    ensures Sound(h, Done(h, s, act, add))
  {
    SoundFits(h, s, s.active);
    match act
    case Write(cs) => CommandsKeep(s.slots, cs, add);
    case Switch(_) =>
    case Reload(loading, tail) =>
      var into := Built(Params(h, loading));
      SoundFits(h, s, loading);
      ReloadKeepsShape(into, s.slots, tail);
      ActiveOnlyPicksDefaults(h, 0, loading);
      FrameFits(Params(h, 0), Params(h, loading), Reloaded(into, s.slots, tail));
  }

  /** A save under any machine loads into any other as it was, slot by slot. */
  lemma ReloadLossless(h: Host, s: Session, loading: nat, tail: seq<Byte>, add: Add, j: nat)
    requires Sound(h, s) && |s.slots| < TWO_16 && j < |s.slots| && InRange(s.slots[j])
    ensures var r := Done(h, s, Reload(loading, tail), add).slots;
            j < |r| && r[j].id == s.slots[j].id && r[j].current == s.slots[j].current && InRange(r[j])
  {
    SoundFits(h, s, loading);
    SchemaRestores(Built(Params(h, loading)), s.slots, tail, j, j);
  }

  lemma {:induction false} UntouchedByCommands(slots: seq<Slot>, cs: seq<Command>, add: Add, j: nat)
    requires Bank(slots) && UniqueIds(slots) && j < |slots|
    requires forall i | 0 <= i < |cs| :: ParamOf(cs[i]) != slots[j].id
    ensures UniqueIds(CommandedAll(slots, cs, add)) && CommandedAll(slots, cs, add)[j] == slots[j]
    decreases |cs|
  {
    if cs == [] {
    } else {
      var c, before := cs[|cs| - 1], CommandedAll(slots, cs[..|cs| - 1], add);
      UntouchedByCommands(slots, cs[..|cs| - 1], add, j);
      SetOthers(before, ParamOf(c), c.arg1, j);
      var i := Find(before, ParamOf(c));
      if i < |before| {
        SetOthers(before, ParamOf(c), add(before[i].current, c.arg1), j);
      }
    }
  }

  lemma UntouchedKept(h: Host, s: Session, act: Act, add: Add, j: nat)
    requires Sound(h, s) && |s.slots| < TWO_16 && j < |s.slots| && InRange(s.slots[j])
    requires !Touches(act, s.slots[j].id)
    ensures var r := Done(h, s, act, add).slots;
            |r| == |s.slots| && r[j].id == s.slots[j].id && r[j].current == s.slots[j].current && InRange(r[j])
  {
    SoundFits(h, s, s.active);
    DoneSound(h, s, act, add);
    match act
    case Write(cs) => UntouchedByCommands(s.slots, cs, add, j);
    case Switch(_) =>
    case Reload(loading, tail) => ReloadLossless(h, s, loading, tail, add, j);
  }

  ghost function After(h: Host, s: Session, acts: seq<Act>, add: Add): (r: Session)
    requires Sound(h, s)
    ensures Sound(h, r)
    decreases |acts|
  {
    if acts == [] then s
    else
      DoneSound(h, s, acts[0], add);
      After(h, Done(h, s, acts[0], add), acts[1..], add)
  }

  /** A value in range that no command writes outlives every sequence of commands, switches, saves and loads. */
  lemma {:induction false} ValueOutlives(h: Host, s: Session, acts: seq<Act>, add: Add, j: nat)
    requires Sound(h, s) && |s.slots| < TWO_16 && j < |s.slots| && InRange(s.slots[j])
    requires forall i | 0 <= i < |acts| :: !Touches(acts[i], s.slots[j].id)
    ensures var r := After(h, s, acts, add).slots;
            j < |r| && r[j].id == s.slots[j].id && r[j].current == s.slots[j].current
    decreases |acts|
  {
    if acts == [] {
    } else {
      UntouchedKept(h, s, acts[0], add, j);
      DoneSound(h, s, acts[0], add);
      ValueOutlives(h, Done(h, s, acts[0], add), acts[1..], add, j);
    }
  }

  /** A value some machine's own range admits. */
  predicate LegalFor(p: Descriptor, v: F64) {
    IsFinite(v) && AtMost(p.min, v) && AtMost(v, p.max)
  }

  function Setting(id: U32, v: F64): Act {
    Write([Command(CMD_SET_PARAM, id as int, v)])
  }

  lemma SettingSets(slots: seq<Slot>, id: U32, v: F64, add: Add)
    requires Bank(slots)
    ensures CommandedAll(slots, Setting(id, v).cs, add) == SetAt(slots, id, v)
  {
    var c := Command(CMD_SET_PARAM, id as int, v);
    assert ParamOf(c) == id && [c][..0] == [];
  }

  lemma LegalValueStored(h: Host, s: Session, p: Descriptor, j: nat, v: F64, add: Add)
    requires Sound(h, s) && Covers(Params(h, 0), j, p) && LegalFor(p, v)
    ensures var r := Done(h, s, Setting(p.id, v), add).slots;
            |r| == |s.slots| && j < |r| && r[j].id == p.id && r[j].current == v && InRange(r[j])
  {
    SoundFits(h, s, 0);
    assert Done(h, s, Setting(p.id, v), add).slots == SetAt(s.slots, p.id, v) by { SettingSets(s.slots, p.id, v, add); }
    SetOthers(s.slots, p.id, v, j);
  }

  lemma AfterFirst(h: Host, s: Session, act: Act, acts: seq<Act>, add: Add)
    requires Sound(h, s)
    ensures Sound(h, Done(h, s, act, add))
    ensures After(h, s, [act] + acts, add) == After(h, Done(h, s, act, add), acts, add)
  {
    DoneSound(h, s, act, add);
    assert ([act] + acts)[1..] == acts;
  }

  /** The bank holds this value under this id. */
  predicate Stores(slots: seq<Slot>, id: U32, v: F64) {
    exists j | 0 <= j < |slots| :: slots[j].id == id && slots[j].current == v
  }

  /**
    * A value legal on any machine, set at any moment under any machine, is in the bank after every
    * sequence of machine switches, other writes, saves and loads that does not write that param again.
    */
  lemma LegalValueSurvives(h: Host, s: Session, m: nat, n: nat, v: F64, acts: seq<Act>, add: Add)
    requires Sound(h, s) && |s.slots| < TWO_16
    requires m < |h.machines| && n < |h.machines[m]| && LegalFor(h.machines[m][n], v)
    requires forall i | 0 <= i < |acts| :: !Touches(acts[i], h.machines[m][n].id)
    ensures var r := After(h, s, [Setting(h.machines[m][n].id, v)] + acts, add).slots;
            Stores(r, h.machines[m][n].id, v)
  {
    var p := h.machines[m][n];
    var setting := Setting(p.id, v);
    var next := Done(h, s, setting, add);
    ParamsCover(h, 0);
    assert Accommodates(Params(h, 0), p);
    var j: nat :| Covers(Params(h, 0), j, p);
    LegalValueStored(h, s, p, j, v, add);
    DoneSound(h, s, setting, add);
    ValueOutlives(h, next, acts, add, j);
    AfterFirst(h, s, setting, acts, add);
    var r := After(h, next, acts, add).slots;
    assert r[j].id == p.id && r[j].current == v;
    assert Stores(r, p.id, v);
  }

  /** Every engine starts sound, on any machine. */
  lemma StartsSound(h: Host, active: nat)
    requires Proper(h)
    ensures Sound(h, Session(active, Built(Params(h, active))))
  {
    ActiveOnlyPicksDefaults(h, 0, active);
    FrameFits(Params(h, 0), Params(h, active), Built(Params(h, active)));
  }

  // ── The defaults ───────────────────────────────────────────────────────────

  predicate Absent(ps: seq<Descriptor>, id: U32) {
    forall i | 0 <= i < |ps| :: ps[i].id != id
  }

  lemma {:induction false} FirstStays(out: seq<Descriptor>, ps: seq<Descriptor>, active: bool)
    requires out != [] && Absent(ps, out[0].id)
    ensures AddedAll(out, ps, active) != [] && AddedAll(out, ps, active)[0] == out[0]
    decreases |ps|
  {
    if ps == [] {
    } else {
      FirstStays(out, ps[..|ps| - 1], active);
    }
  }

  lemma {:induction false} UnionFirst(base: seq<Descriptor>, machines: seq<seq<Descriptor>>, active: nat)
    requires base != [] && forall m | 0 <= m < |machines| :: Absent(machines[m], base[0].id)
    ensures Union(base, machines, active) != [] && Union(base, machines, active)[0] == base[0]
    decreases |machines|
  {
    if machines == [] {
    } else {
      var m := |machines| - 1;
      UnionFirst(base, machines[..m], active);
      FirstStays(Union(base, machines[..m], active), machines[m], m == active);
    }
  }

  /** The first slot is `machine`: it ranges over the machines, and starts at the active one. */
  lemma MachineSlot(h: Host, active: nat)
    requires h.machines != [] && forall m | 0 <= m < |h.machines| :: Absent(h.machines[m], h.machineId)
    ensures Params(h, active) != []
    ensures Params(h, active)[0]
      == Descriptor(h.machineId, h.number(0), h.number(|h.machines| - 1), h.number(active))
  {
    UnionFirst(Base(h, active), h.machines, active);
  }

  lemma {:induction false} AbsentStays(out: seq<Descriptor>, ps: seq<Descriptor>, id: U32, active: bool)
    requires Absent(out, id) && Absent(ps, id)
    ensures Absent(AddedAll(out, ps, active), id)
    decreases |ps|
  {
    if ps == [] {
    } else {
      AbsentStays(out, ps[..|ps| - 1], id, active);
    }
  }

  lemma {:induction false} UnionAbsent(base: seq<Descriptor>, machines: seq<seq<Descriptor>>, id: U32, active: nat)
    requires Absent(base, id) && forall m | 0 <= m < |machines| :: Absent(machines[m], id)
    ensures Absent(Union(base, machines, active), id)
    decreases |machines|
  {
    if machines == [] {
    } else {
      var m := |machines| - 1;
      UnionAbsent(base, machines[..m], id, active);
      AbsentStays(Union(base, machines[..m], active), machines[m], id, m == active);
    }
  }

  lemma {:induction false} FirstDeclared(out: seq<Descriptor>, ps: seq<Descriptor>, n: nat)
    requires n < |ps| && Absent(out, ps[n].id) && Absent(ps[..n], ps[n].id)
    ensures HasDefault(AddedAll(out, ps, false), ps[n])
    decreases |ps|
  {
    var last := |ps| - 1;
    var before := AddedAll(out, ps[..last], false);
    if n == last {
      AbsentStays(out, ps[..last], ps[n].id, false);
      assert AddedAll(out, ps, false)[|before|] == ps[n];
    } else {
      assert ps[..last][..n] == ps[..n];
      FirstDeclared(out, ps[..last], n);
      var j :| 0 <= j < |before| && before[j].id == ps[n].id && before[j].default == ps[n].default;
      assert AddedAll(out, ps, false)[j].default == ps[n].default;
    }
  }

  lemma {:induction false} OthersKeepDefault(out: seq<Descriptor>, ps: seq<Descriptor>, p: Descriptor, active: bool)
    requires HasDefault(out, p) && (active ==> Absent(ps, p.id))
    ensures HasDefault(AddedAll(out, ps, active), p)
    decreases |ps|
  {
    if ps == [] {
    } else {
      var before := AddedAll(out, ps[..|ps| - 1], active);
      OthersKeepDefault(out, ps[..|ps| - 1], p, active);
      var j :| 0 <= j < |before| && before[j].id == p.id && before[j].default == p.default;
      assert AddedAll(out, ps, active)[j].default == p.default;
    }
  }

  /** A param the active machine does not declare starts at the default of the first machine that does. */
  lemma {:induction false} FirstDeclarersDefault(base: seq<Descriptor>, machines: seq<seq<Descriptor>>, active: nat,
      m: nat, n: nat)
    requires m < |machines| && n < |machines[m]|
    requires Absent(base, machines[m][n].id) && Absent(machines[m][..n], machines[m][n].id)
    requires forall k | 0 <= k < m :: Absent(machines[k], machines[m][n].id)
    requires active < |machines| ==> Absent(machines[active], machines[m][n].id)
    ensures HasDefault(Union(base, machines, active), machines[m][n])
    decreases |machines|
  {
    var last, p := |machines| - 1, machines[m][n];
    var before := Union(base, machines[..last], active);
    assert m != active;
    if m == last {
      UnionAbsent(base, machines[..last], p.id, active);
      FirstDeclared(before, machines[m], n);
    } else {
      FirstDeclarersDefault(base, machines[..last], active, m, n);
      OthersKeepDefault(before, machines[last], p, last == active);
    }
  }
}
