/** The state bus, the paths the mirror watches, and the context snapshot built from it. */
module StateBus {
  import opened Wrappers

  datatype BusValue = Float(f: real) | Int(i: int) | Bool(b: bool) | Text(s: string)
  type Bus = map<string, BusValue>

  const U32 := 0x1_0000_0000

  // ── Paths ──────────────────────────────────────────────────────────────────

  predicate PartAt(s: string, part: string, i: int) {
    0 <= i <= |s| - |part| && s[i..i + |part|] == part
  }

  predicate Contains(s: string, part: string) {
    exists i | 0 <= i <= |s| - |part| :: PartAt(s, part, i)
  }

  predicate EndsWith(s: string, suffix: string) {
    |suffix| <= |s| && s[|s| - |suffix|..] == suffix
  }

  predicate IsContext(path: string) {
    "/context/" <= path
  }

  predicate IsMirrored(path: string) {
    || ("/node/" <= path && (Contains(path, "/param/") || Contains(path, "/state/")))
    || "/transport/" <= path
    || "/script/" <= path
    || "/engine/" <= path
  }

  // ── What the mirror is meant to show ───────────────────────────────────────

  function Coerce(v: BusValue): real
    requires !v.Text?
  {
    match v
    case Float(f) => f
    case Int(i) => i as real
    case Bool(b) => if b then 1.0 else 0.0
  }

  /** Text on a mirrored path is not mirrored. */
  predicate IsNumber(path: string, value: BusValue) {
    !IsContext(path) && IsMirrored(path) && !value.Text?
  }

  predicate Mirrors(bus: Bus, path: string) {
    path in bus && IsNumber(path, bus[path])
  }

  /** Every mirrored path of the bus that holds a number, coerced. */
  function MirrorOf(bus: Bus): map<string, real> {
    map p | p in bus && Mirrors(bus, p) :: Coerce(bus[p])
  }

  function ContextOf(bus: Bus): Bus {
    map p | p in bus && IsContext(p) :: bus[p]
  }

  /** A bus iteration order: each path exactly once. */
  ghost predicate IsOrder(order: seq<string>, bus: Bus) {
    && (forall i | 0 <= i < |order| :: order[i] in bus)
    && (forall p | p in bus :: p in order)
    && (forall i, j | 0 <= i < j < |order| :: order[i] != order[j])
  }

  /** The context path that carries the list of kits. */
  const KITS_PATH := "/context/kits"

  // ── The context snapshot ───────────────────────────────────────────────────

  datatype EncoderSlot = EncoderSlot(enc: nat, node: nat, param: string)
  datatype ContextValue = TextValue(s: string) | Num(n: real)

  /** One `context` frame: encoder slots by encoder key, every other context path by path. */
  datatype ContextSnapshot = ContextSnapshot(encoders: map<string, EncoderSlot>, paths: map<string, ContextValue>)

  function NodePath(key: string): string { "/context/" + key + "/node" }

  function ParamPath(key: string): string { "/context/" + key + "/param" }

  predicate IsNodeHalf(path: string) { IsContext(path) && EndsWith(path[9..], "/node") }

  predicate IsParamHalf(path: string) { IsContext(path) && EndsWith(path[9..], "/param") }

  function NodeKey(path: string): (key: string)
    requires IsNodeHalf(path)
    ensures path == NodePath(key)
  {
    path[9..|path| - 5]
  }

  function ParamKey(path: string): (key: string)
    requires IsParamHalf(path)
    ensures path == ParamPath(key)
  {
    path[9..|path| - 6]
  }

  lemma NodePathShape(key: string)
    ensures IsNodeHalf(NodePath(key)) && NodeKey(NodePath(key)) == key
  {
    var p := NodePath(key);
    assert p[9..] == key + "/node";
  }

  lemma ParamPathShape(key: string)
    ensures IsParamHalf(ParamPath(key)) && ParamKey(ParamPath(key)) == key
  {
    var p := ParamPath(key);
    assert p[9..] == key + "/param";
  }

  lemma HalvesDiffer(path: string)
    requires IsNodeHalf(path)
    ensures !IsParamHalf(path)
  {
    assert path[|path| - 1] == path[9..][|path| - 10] == 'e';
  }

  predicate IsDigit(c: char) { '0' <= c <= '9' }

  function DigitValue(c: char): nat
    requires IsDigit(c)
  {
    c as int - '0' as int
  }

  /** How many digits end the key. */
  function TrailingDigits(key: string): (n: nat)
    ensures n <= |key|
    ensures forall i | |key| - n <= i < |key| :: IsDigit(key[i])
  {
    if key == [] || !IsDigit(key[|key| - 1]) then 0 else 1 + TrailingDigits(key[..|key| - 1])
  }

  function ParseDigits(digits: string): nat
    requires forall i | 0 <= i < |digits| :: IsDigit(digits[i])
  {
    if digits == [] then 0
    else ParseDigits(digits[..|digits| - 1]) * 10 + DigitValue(digits[|digits| - 1])
  }

  function TrailingInt(key: string): Option<nat> {
    var n := TrailingDigits(key);
    if n == 0 then None
    else
      var v := ParseDigits(key[|key| - n..]);
      if v < U32 then Some(v) else None
  }

  predicate EncoderComplete(bus: Bus, key: string) {
    && NodePath(key) in bus && bus[NodePath(key)].Int?
    && ParamPath(key) in bus && bus[ParamPath(key)].Text?
    && TrailingInt(key).Some?
  }

  function EncoderKeys(bus: Bus): set<string> {
    set p | p in bus && IsNodeHalf(p) && EncoderComplete(bus, NodeKey(p)) :: NodeKey(p)
  }

  function EncoderOf(bus: Bus, key: string): EncoderSlot
    requires EncoderComplete(bus, key)
  {
    EncoderSlot(TrailingInt(key).value, bus[NodePath(key)].i % U32, bus[ParamPath(key)].s)
  }

  function ContextValueOf(v: BusValue): ContextValue {
    if v.Text? then TextValue(v.s) else Num(Coerce(v))
  }

  /** A context path that is no half of an encoder. */
  predicate IsPlain(path: string) { IsContext(path) && !IsNodeHalf(path) && !IsParamHalf(path) }

  function PlainPaths(bus: Bus): map<string, ContextValue> {
    map p | p in bus && IsPlain(p) :: ContextValueOf(bus[p])
  }

  function Snapshot(bus: Bus): ContextSnapshot {
    ContextSnapshot(
      map key | key in EncoderKeys(bus) :: EncoderOf(bus, key),
      PlainPaths(bus))
  }

  lemma EncoderKeysExact(bus: Bus, key: string)
    ensures key in EncoderKeys(bus) <==> EncoderComplete(bus, key)
  {
    NodePathShape(key);
  }

  lemma EncodersOfContext(bus: Bus)
    ensures Snapshot(bus).encoders == Snapshot(ContextOf(bus)).encoders
  {
    forall key
      ensures key in EncoderKeys(bus) <==> key in EncoderKeys(ContextOf(bus))
      ensures EncoderComplete(bus, key) ==>
        EncoderComplete(ContextOf(bus), key) && EncoderOf(bus, key) == EncoderOf(ContextOf(bus), key)
    {
      EncoderKeysExact(bus, key);
      EncoderKeysExact(ContextOf(bus), key);
      NodePathShape(key);
      ParamPathShape(key);
    }
    forall key | key in EncoderKeys(bus) ensures EncoderComplete(bus, key) { EncoderKeysExact(bus, key); }
    assert EncoderKeys(bus) == EncoderKeys(ContextOf(bus));
  }

  /** A snapshot reads nothing but the context part of the bus. */
  lemma SnapshotOfContext(bus: Bus)
    ensures Snapshot(bus) == Snapshot(ContextOf(bus))
  {
    EncodersOfContext(bus);
    assert PlainPaths(bus) == PlainPaths(ContextOf(bus));
  }

  datatype Half = Half(node: Option<int>, param: Option<string>)

  function HalfAt(halves: map<string, Half>, key: string): Half {
    if key in halves then halves[key] else Half(None, None)
  }

  /** What the first scan should have collected for `key` from the paths `seen`. */
  function HalfOf(bus: Bus, seen: set<string>, key: string): Half {
    Half(
      if NodePath(key) in seen && NodePath(key) in bus && bus[NodePath(key)].Int? then Some(bus[NodePath(key)].i) else None,
      if ParamPath(key) in seen && ParamPath(key) in bus && bus[ParamPath(key)].Text? then Some(bus[ParamPath(key)].s) else None)
  }

  /** What one more path adds to the halves of `key`. */
  lemma HalfSeen(bus: Bus, seen: set<string>, path: string, key: string)
    requires path in bus
    ensures HalfOf(bus, seen + {path}, key) ==
      if IsNodeHalf(path) && NodeKey(path) == key then
        (if bus[path].Int? then HalfOf(bus, seen, key).(node := Some(bus[path].i)) else HalfOf(bus, seen, key))
      else if !IsNodeHalf(path) && IsParamHalf(path) && ParamKey(path) == key && bus[path].Text? then
        HalfOf(bus, seen, key).(param := Some(bus[path].s))
      else HalfOf(bus, seen, key)
  {
    NodePathShape(key);
    ParamPathShape(key);
    if IsNodeHalf(path) { HalvesDiffer(path); }
  }

  method CollectHalves(bus: Bus, order: seq<string>) returns (halves: map<string, Half>)
    requires IsOrder(order, bus)
    ensures forall key :: HalfAt(halves, key) == HalfOf(bus, bus.Keys, key)
  {
    halves := map[];
    ghost var seen: set<string> := {};
    for n := 0 to |order|
      invariant seen == set i | 0 <= i < n :: order[i]
      invariant forall key :: HalfAt(halves, key) == HalfOf(bus, seen, key)
    {
      var path := order[n];
      var value := bus[path];
      ghost var before := seen;
      seen := seen + {path};
      if IsNodeHalf(path) {
        var key := NodeKey(path);
        if value.Int? {
          halves := halves[key := HalfAt(halves, key).(node := Some(value.i))];
        }
      } else if IsParamHalf(path) {
        var key := ParamKey(path);
        if value.Text? {
          halves := halves[key := HalfAt(halves, key).(param := Some(value.s))];
        }
      }
      forall key ensures HalfAt(halves, key) == HalfOf(bus, seen, key) {
        HalfSeen(bus, before, path, key);
      }
    }
    assert seen == bus.Keys by {
      forall p | p in bus ensures p in seen { assert p in order; }
    }
  }

  method CollectPaths(bus: Bus, order: seq<string>) returns (paths: map<string, ContextValue>)
    requires IsOrder(order, bus)
    ensures paths == PlainPaths(bus)
  {
    paths := map[];
    ghost var seen: set<string> := {};
    for n := 0 to |order|
      invariant forall i | 0 <= i < n :: order[i] in seen
      invariant forall p :: p in paths <==> p in seen && IsPlain(p)
      invariant forall p | p in seen :: p in bus
      invariant forall p | p in paths :: p in bus && paths[p] == ContextValueOf(bus[p])
    {
      var path := order[n];
      if IsContext(path) && !IsNodeHalf(path) && !IsParamHalf(path) {
        paths := paths[path := ContextValueOf(bus[path])];
      }
      seen := seen + {path};
    }
    forall p | p in bus ensures p in seen { assert p in order; }
  }

  method BuildContextFrame(bus: Bus, order: seq<string>) returns (snapshot: ContextSnapshot)
    requires IsOrder(order, bus)
    ensures snapshot == Snapshot(bus)
  {
    var halves := CollectHalves(bus, order);
    var encoders := map key | key in halves && halves[key].node.Some? && halves[key].param.Some? && TrailingInt(key).Some?
      :: EncoderSlot(TrailingInt(key).value, halves[key].node.value % U32, halves[key].param.value);
    assert encoders == Snapshot(bus).encoders by {
      forall key
        ensures key in encoders <==> key in EncoderKeys(bus)
        ensures key in encoders ==> EncoderComplete(bus, key) && encoders[key] == EncoderOf(bus, key)
      {
        assert HalfAt(halves, key) == HalfOf(bus, bus.Keys, key);
        EncoderKeysExact(bus, key);
      }
    }
    var paths := CollectPaths(bus, order);
    snapshot := ContextSnapshot(encoders, paths);
  }
}
