/** Parameter storage, its byte format, and what survives a change of schema. */
module ParameterBank {
  import opened Wrappers

  // ── 64-bit floats by their bits ────────────────────────────────────────────

  const TWO_8: int := 0x100
  const TWO_16: int := 0x1_0000
  const TWO_32: int := 0x1_0000_0000
  const TWO_63: int := 0x8000_0000_0000_0000
  const TWO_64: int := 0x1_0000_0000_0000_0000
  const INF_BITS: int := 0x7FF0_0000_0000_0000

  /** An IEEE 754 double, as its 64 bits. */
  newtype F64 = n: int | 0 <= n < TWO_64

  /** Sign bit off. Below `INF_BITS` the number is finite. */
  function Magnitude(x: F64): int { x as int % TWO_63 }

  predicate IsFinite(x: F64) { Magnitude(x) < INF_BITS }

  /** Orders every non-NaN value the way its number does; both zeros have key 0. */
  function Key(x: F64): int {
    if x as int < TWO_63 then Magnitude(x) else -Magnitude(x)
  }

  predicate AtMost(x: F64, y: F64) { Key(x) <= Key(y) }

  function Clamp(x: F64, lo: F64, hi: F64): (r: F64)
    requires AtMost(lo, hi)
    ensures AtMost(lo, r) && AtMost(r, hi) && r in {x, lo, hi}
    ensures AtMost(lo, x) && AtMost(x, hi) ==> r == x
  {
    if Key(x) < Key(lo) then lo else if Key(x) > Key(hi) then hi else x
  }

  /** Rounded addition is the hardware's; nothing below depends on which sum it returns. */
  type Add = (F64, F64) -> F64

  // ── Slots ──────────────────────────────────────────────────────────────────

  newtype U32 = n: int | 0 <= n < TWO_32

  datatype Descriptor = Descriptor(id: U32, min: F64, max: F64, default: F64)

  datatype Slot = Slot(id: U32, current: F64, min: F64, max: F64, default: F64)

  /** A range `clamp` accepts: finite ends, in order. */
  predicate Ranged(min: F64, max: F64) { IsFinite(min) && IsFinite(max) && AtMost(min, max) }

  predicate InRange(s: Slot) {
    IsFinite(s.current) && AtMost(s.min, s.current) && AtMost(s.current, s.max)
  }

  predicate Bank(slots: seq<Slot>) {
    forall i | 0 <= i < |slots| :: Ranged(slots[i].min, slots[i].max)
  }

  predicate UniqueIds(slots: seq<Slot>) {
    forall i, j | 0 <= i < j < |slots| :: slots[i].id != slots[j].id
  }

  function Find(slots: seq<Slot>, id: U32): (i: nat)
    ensures i <= |slots|
    ensures i < |slots| ==> slots[i].id == id
    ensures forall k | 0 <= k < i :: slots[k].id != id
  {
    if slots == [] || slots[0].id == id then 0 else 1 + Find(slots[1..], id)
  }

  function SetAt(slots: seq<Slot>, id: U32, value: F64): (r: seq<Slot>)
    requires Bank(slots)
    ensures |r| == |slots| && Bank(r)
  {
    var i := Find(slots, id);
    if !IsFinite(value) || i == |slots| then slots
    else slots[i := slots[i].(current := Clamp(value, slots[i].min, slots[i].max))]
  }

  // ── Commands ───────────────────────────────────────────────────────────────

  const CMD_SET_PARAM: int := 0
  const CMD_BUMP_PARAM: int := 1

  datatype Command = Command(typeId: int, arg0: int, arg1: F64)

  /** The `as u32` cast of a command's integer argument. */
  function ParamOf(c: Command): U32 { (c.arg0 % TWO_32) as U32 }

  function Commanded(slots: seq<Slot>, c: Command, add: Add): (r: seq<Slot>)
    requires Bank(slots)
    ensures |r| == |slots| && Bank(r)
  {
    if c.typeId == CMD_SET_PARAM then SetAt(slots, ParamOf(c), c.arg1)
    else if c.typeId == CMD_BUMP_PARAM then
      var i := Find(slots, ParamOf(c));
      if i < |slots| then SetAt(slots, ParamOf(c), add(slots[i].current, c.arg1)) else slots
    else slots
  }

  function CommandedAll(slots: seq<Slot>, cs: seq<Command>, add: Add): (r: seq<Slot>)
    requires Bank(slots)
    ensures |r| == |slots| && Bank(r)
  {
    if cs == [] then slots
    else Commanded(CommandedAll(slots, cs[..|cs| - 1], add), cs[|cs| - 1], add)
  }

  // ── Bytes ──────────────────────────────────────────────────────────────────

  newtype Byte = n: int | 0 <= n < TWO_8

  function Le(n: nat, width: nat): (bytes: seq<Byte>)
    ensures |bytes| == width
  {
    if width == 0 then [] else [(n % 256) as Byte] + Le(n / 256, width - 1)
  }

  function FromLe(bytes: seq<Byte>): nat {
    if bytes == [] then 0 else bytes[0] as int + 256 * FromLe(bytes[1..])
  }

  function Pow256(width: nat): nat {
    if width == 0 then 1 else 256 * Pow256(width - 1)
  }

  lemma {:induction false} LeRoundTrip(n: nat, width: nat)
    requires n < Pow256(width)
    ensures FromLe(Le(n, width)) == n
  {
    if width == 0 {
    } else {
      LeRoundTrip(n / 256, width - 1);
      assert Le(n, width)[1..] == Le(n / 256, width - 1);
    }
  }

  lemma {:induction false} FromLeBound(bytes: seq<Byte>)
    ensures FromLe(bytes) < Pow256(|bytes|)
  {
    if bytes == [] {
    } else {
      FromLeBound(bytes[1..]);
    }
  }

  lemma Widths()
    ensures Pow256(2) == TWO_16 && Pow256(4) == TWO_32 && Pow256(8) == TWO_64
  {
    assert Pow256(1) == 256;
    assert Pow256(3) == 256 * Pow256(2);
    assert Pow256(5) == 256 * Pow256(4);
    assert Pow256(6) == 256 * Pow256(5);
    assert Pow256(7) == 256 * Pow256(6);
  }

  const BANK_FORMAT_VERSION: Byte := 1

  datatype Pair = Pair(id: U32, value: F64)

  function PairBytes(p: Pair): (bytes: seq<Byte>)
    ensures |bytes| == 12
  {
    Le(p.id as nat, 4) + Le(p.value as nat, 8)
  }

  function PairAt(chunk: seq<Byte>): Pair
    requires |chunk| == 12
  {
    Widths();
    FromLeBound(chunk[..4]);
    FromLeBound(chunk[4..]);
    Pair(FromLe(chunk[..4]) as U32, FromLe(chunk[4..]) as F64)
  }

  lemma PairRoundTrip(p: Pair)
    ensures PairAt(PairBytes(p)) == p
  {
    Widths();
    LeRoundTrip(p.id as nat, 4);
    LeRoundTrip(p.value as nat, 8);
    assert PairBytes(p)[..4] == Le(p.id as nat, 4) && PairBytes(p)[4..] == Le(p.value as nat, 8);
  }

  function PairsBytes(pairs: seq<Pair>): (bytes: seq<Byte>)
    ensures |bytes| == 12 * |pairs|
  {
    if pairs == [] then [] else PairsBytes(pairs[..|pairs| - 1]) + PairBytes(pairs[|pairs| - 1])
  }

  function PairsOf(slots: seq<Slot>): seq<Pair> {
    seq(|slots|, i requires 0 <= i < |slots| => Pair(slots[i].id, slots[i].current))
  }

  /** Version, count modulo 65536, then every slot. */
  function Serialized(slots: seq<Slot>): seq<Byte> {
    [BANK_FORMAT_VERSION] + Le(|slots| % TWO_16, 2) + PairsBytes(PairsOf(slots))
  }

  /** A version-1 header followed by a count and as many whole pairs as both it and the data allow. */
  function WholePairs(data: seq<Byte>): nat {
    if |data| < 3 || data[0] != BANK_FORMAT_VERSION then 0
    else
      var count, room := FromLe(data[1..3]), (|data| - 3) / 12;
      if count <= room then count else room
  }

  function PairIn(data: seq<Byte>, i: nat): Pair
    requires i < WholePairs(data)
  {
    PairAt(data[3 + i * 12..3 + i * 12 + 12])
  }

  function Loaded(slots: seq<Slot>, data: seq<Byte>, k: nat): (r: seq<Slot>)
    requires Bank(slots) && k <= WholePairs(data)
    ensures |r| == |slots| && Bank(r)
  {
    if k == 0 then slots
    else
      var p := PairIn(data, k - 1);
      SetAt(Loaded(slots, data, k - 1), p.id, p.value)
  }

  lemma RoomForPair(data: seq<Byte>, i: nat)
    requires |data| >= 3 && data[0] == BANK_FORMAT_VERSION && i < FromLe(data[1..3]) && 3 + i * 12 + 12 <= |data|
    ensures i < WholePairs(data)
  {
  }

  // ── The bank ───────────────────────────────────────────────────────────────

  function Defaulted(d: Descriptor): Slot { Slot(d.id, d.default, d.min, d.max, d.default) }

  function Built(doc: seq<Descriptor>): seq<Slot> {
    seq(|doc|, i requires 0 <= i < |doc| => Defaulted(doc[i]))
  }

  lemma FindIs(slots: seq<Slot>, id: U32, i: nat)
    requires i <= |slots| && (i < |slots| ==> slots[i].id == id)
    requires forall k | 0 <= k < i :: slots[k].id != id
    ensures Find(slots, id) == i
  {
  }

  class ParameterBank {
    var slots: seq<Slot>

    constructor FromCapabilityDocument(doc: seq<Descriptor>)
      ensures slots == Built(doc)
    {
      slots := Built(doc);
    }

    method Get(id: U32) returns (value: F64)
      ensures value == (var i := Find(slots, id); if i < |slots| then slots[i].current else 0 as F64)
    {
      var i := Find(slots, id);
      value := if i < |slots| then slots[i].current else 0 as F64;
    }

    method Set(id: U32, value: F64)
      requires Bank(slots)
      modifies this
      ensures slots == SetAt(old(slots), id, value)
    {
      if !IsFinite(value) {
        return;
      }
      for i := 0 to |slots|
        invariant forall k | 0 <= k < i :: slots[k].id != id
        invariant slots == old(slots)
      {
        if slots[i].id == id {
          FindIs(slots, id, i);
          slots := slots[i := slots[i].(current := Clamp(value, slots[i].min, slots[i].max))];
          return;
        }
      }
      FindIs(slots, id, |slots|);
    }

    method Reset()
      modifies this
      ensures |slots| == |old(slots)|
      ensures forall i | 0 <= i < |slots| :: slots[i] == old(slots)[i].(current := old(slots)[i].default)
    {
      for i := 0 to |slots|
        invariant |slots| == |old(slots)|
        invariant forall k | 0 <= k < i :: slots[k] == old(slots)[k].(current := old(slots)[k].default)
        invariant forall k | i <= k < |slots| :: slots[k] == old(slots)[k]
      {
        slots := slots[i := slots[i].(current := slots[i].default)];
      }
    }

    method HandleCommands(commands: seq<Command>, add: Add)
      requires Bank(slots)
      modifies this
      ensures slots == CommandedAll(old(slots), commands, add)
    {
      for n := 0 to |commands|
        invariant slots == CommandedAll(old(slots), commands[..n], add)
      {
        var c := commands[n];
        assert commands[..n + 1][..n] == commands[..n];
        if c.typeId == CMD_SET_PARAM {
          Set(ParamOf(c), c.arg1);
        } else if c.typeId == CMD_BUMP_PARAM {
          var i := Find(slots, ParamOf(c));
          if i < |slots| {
            Set(ParamOf(c), add(slots[i].current, c.arg1));
          }
        }
      }
      assert commands[..|commands|] == commands;
    }

    method Serialize() returns (bytes: seq<Byte>)
      ensures bytes == Serialized(slots)
    {
      bytes := [BANK_FORMAT_VERSION] + Le(|slots| % TWO_16, 2);
      ghost var header := bytes;
      for i := 0 to |slots|
        invariant bytes == header + PairsBytes(PairsOf(slots)[..i])
      {
        bytes := bytes + PairBytes(Pair(slots[i].id, slots[i].current));
        assert PairsOf(slots)[..i + 1][..i] == PairsOf(slots)[..i];
      }
      assert PairsOf(slots)[..|slots|] == PairsOf(slots);
    }

    method Deserialize(data: seq<Byte>)
      requires Bank(slots)
      modifies this
      ensures slots == Loaded(old(slots), data, WholePairs(data))
    {
      if |data| < 3 || data[0] != BANK_FORMAT_VERSION {
        return;
      }
      var count := FromLe(data[1..3]);
      for i := 0 to count
        invariant i <= WholePairs(data)
        invariant slots == Loaded(old(slots), data, i)
      {
        var off := 3 + i * 12;
        if off + 12 > |data| {
          return;
        }
        var pair := PairAt(data[off..off + 12]);
        assert i < WholePairs(data) && pair == PairIn(data, i) by { RoomForPair(data, i); }
        Set(pair.id, pair.value);
      }
    }
  }

  // ── Any bytes at all ───────────────────────────────────────────────────────

  predicate SameShape(a: seq<Slot>, b: seq<Slot>) {
    |a| == |b| && forall i | 0 <= i < |a| :: b[i] == a[i].(current := b[i].current)
  }

  lemma SetKeeps(slots: seq<Slot>, id: U32, value: F64)
    requires Bank(slots)
    ensures var r := SetAt(slots, id, value);
      SameShape(slots, r) && forall i | 0 <= i < |slots| :: r[i] == slots[i] || InRange(r[i])
  {
  }

  /** Whatever the bytes, a load changes only current values, and only to finite values in range. */
  lemma {:induction false} LoadKeeps(slots: seq<Slot>, data: seq<Byte>, k: nat)
    requires Bank(slots) && k <= WholePairs(data)
    ensures var r := Loaded(slots, data, k);
      SameShape(slots, r) && forall i | 0 <= i < |slots| :: r[i] == slots[i] || InRange(r[i])
  {
    if k == 0 {
    } else {
      LoadKeeps(slots, data, k - 1);
      SetKeeps(Loaded(slots, data, k - 1), PairIn(data, k - 1).id, PairIn(data, k - 1).value);
    }
  }

  /** So does any run of commands, whatever the sums round to. */
  lemma {:induction false} CommandsKeep(slots: seq<Slot>, cs: seq<Command>, add: Add)
    requires Bank(slots)
    ensures var r := CommandedAll(slots, cs, add);
      SameShape(slots, r) && forall i | 0 <= i < |slots| :: r[i] == slots[i] || InRange(r[i])
  {
    if cs == [] {
    } else {
      CommandsKeep(slots, cs[..|cs| - 1], add);
      var before, c := CommandedAll(slots, cs[..|cs| - 1], add), cs[|cs| - 1];
      var i := Find(before, ParamOf(c));
      SetKeeps(before, ParamOf(c), c.arg1);
      if i < |before| {
        SetKeeps(before, ParamOf(c), add(before[i].current, c.arg1));
      }
    }
  }

  // ── Round trips across schemas ─────────────────────────────────────────────

  lemma {:induction false} PairsSlice(pairs: seq<Pair>, i: nat)
    requires i < |pairs|
    ensures PairsBytes(pairs)[12 * i..12 * i + 12] == PairBytes(pairs[i])
  {
    var front, last := pairs[..|pairs| - 1], pairs[|pairs| - 1];
    if i == |pairs| - 1 {
      assert PairsBytes(pairs)[12 * i..12 * i + 12] == PairBytes(last);
    } else {
      PairsSlice(front, i);
      assert PairsBytes(pairs)[12 * i..12 * i + 12] == PairsBytes(front)[12 * i..12 * i + 12];
    }
  }

  /** The count that is written: 16 bits of it. */
  function Kept(saved: seq<Slot>): (n: nat)
    ensures n <= |saved| && n < TWO_16
    ensures |saved| < TWO_16 ==> n == |saved|
  {
    |saved| % TWO_16
  }

  /** The first k pairs of the bytes are the first k saved slots. */
  ghost predicate HoldsPairs(data: seq<Byte>, saved: seq<Slot>, k: nat)
    requires k <= |saved| && k <= WholePairs(data)
  {
    forall i | 0 <= i < k :: PairIn(data, i) == Pair(saved[i].id, saved[i].current)
  }

  /** Serialized bytes read back as the first count-modulo-65536 slots, whatever follows them. */
  lemma SerializedPairs(saved: seq<Slot>, tail: seq<Byte>)
    ensures WholePairs(Serialized(saved) + tail) == Kept(saved)
    ensures HoldsPairs(Serialized(saved) + tail, saved, Kept(saved))
  {
    var data := Serialized(saved) + tail;
    Widths();
    LeRoundTrip(Kept(saved), 2);
    assert data[1..3] == Le(Kept(saved), 2);
    forall i | 0 <= i < Kept(saved) ensures PairIn(data, i) == Pair(saved[i].id, saved[i].current) {
      var pairs := PairsOf(saved);
      PairsSlice(pairs, i);
      assert data[3 + i * 12..3 + i * 12 + 12] == PairsBytes(pairs)[12 * i..12 * i + 12];
      PairRoundTrip(pairs[i]);
    }
  }

  /** The saved slot with this id, among the first k. */
  function SavedAt(saved: seq<Slot>, id: U32, k: nat): (r: Option<F64>)
    requires k <= |saved|
  {
    if k == 0 then None else if saved[k - 1].id == id then Some(saved[k - 1].current) else SavedAt(saved, id, k - 1)
  }

  /** What a load makes of one slot. */
  function Restored(s: Slot, saved: Option<F64>): Slot
    requires Ranged(s.min, s.max)
  {
    if saved.Some? && IsFinite(saved.value) then s.(current := Clamp(saved.value, s.min, s.max)) else s
  }

  lemma SetOthers(slots: seq<Slot>, id: U32, value: F64, j: nat)
    requires Bank(slots) && UniqueIds(slots) && j < |slots|
    ensures UniqueIds(SetAt(slots, id, value))
    ensures SetAt(slots, id, value)[j] == if slots[j].id == id then Restored(slots[j], Some(value)) else slots[j]
  {
    if slots[j].id == id {
      FindIs(slots, id, j);
    }
  }

  lemma {:induction false} NotSavedBefore(saved: seq<Slot>, k: nat, n: nat)
    requires UniqueIds(saved) && n <= k < |saved|
    ensures SavedAt(saved, saved[k].id, n) == None
  {
    if n == 0 {
    } else {
      NotSavedBefore(saved, k, n - 1);
    }
  }

  lemma {:induction false} LoadedSlot(slots: seq<Slot>, saved: seq<Slot>, data: seq<Byte>, k: nat, j: nat)
    requires Bank(slots) && UniqueIds(slots) && j < |slots|
    requires k <= |saved| && k <= WholePairs(data) && UniqueIds(saved)
    requires HoldsPairs(data, saved, k)
    ensures UniqueIds(Loaded(slots, data, k))
    ensures Loaded(slots, data, k)[j] == Restored(slots[j], SavedAt(saved, slots[j].id, k))
  {
    if k == 0 {
    } else {
      var before, last := Loaded(slots, data, k - 1), saved[k - 1];
      LoadedSlot(slots, saved, data, k - 1, j);
      assert Loaded(slots, data, k) == SetAt(before, last.id, last.current);
      SetOthers(before, last.id, last.current, j);
      if last.id == slots[j].id {
        NotSavedBefore(saved, k - 1, k - 1);
      }
    }
  }

  lemma {:induction false} SavedIs(saved: seq<Slot>, i: nat, n: nat)
    requires UniqueIds(saved) && i < n <= |saved|
    ensures SavedAt(saved, saved[i].id, n) == Some(saved[i].current)
  {
    if i < n - 1 {
      SavedIs(saved, i, n - 1);
    }
  }

  lemma {:induction false} NeverSaved(saved: seq<Slot>, id: U32, n: nat)
    requires n <= |saved| && forall i | 0 <= i < n :: saved[i].id != id
    ensures SavedAt(saved, id, n) == None
  {
    if n == 0 {
    } else {
      NeverSaved(saved, id, n - 1);
    }
  }

  /** A whole load. */
  function Load(slots: seq<Slot>, data: seq<Byte>): (r: seq<Slot>)
    requires Bank(slots)
    ensures |r| == |slots| && Bank(r)
  {
    Loaded(slots, data, WholePairs(data))
  }

  lemma LoadedWhole(slots: seq<Slot>, saved: seq<Slot>, data: seq<Byte>, n: nat, j: nat)
    requires Bank(slots) && UniqueIds(slots) && UniqueIds(saved) && j < |slots|
    requires n == WholePairs(data) && n <= |saved| && HoldsPairs(data, saved, n)
    ensures Load(slots, data)[j] == Restored(slots[j], SavedAt(saved, slots[j].id, n))
  {
    LoadedSlot(slots, saved, data, n, j);
  }

  /** One bank's bytes, whatever follows them, loaded into another. */
  function Reloaded(slots: seq<Slot>, saved: seq<Slot>, tail: seq<Byte>): (r: seq<Slot>)
    requires Bank(slots)
    ensures |r| == |slots| && Bank(r)
  {
    Load(slots, Serialized(saved) + tail)
  }

  /** For a save of any size: only the first count-modulo-65536 slots come back. */
  lemma ReloadedSlot(slots: seq<Slot>, saved: seq<Slot>, tail: seq<Byte>, j: nat)
    requires Bank(slots) && UniqueIds(slots) && UniqueIds(saved) && j < |slots|
    ensures Reloaded(slots, saved, tail)[j] == Restored(slots[j], SavedAt(saved, slots[j].id, Kept(saved)))
  {
    var data, n := Serialized(saved) + tail, Kept(saved);
    assert n == WholePairs(data) && HoldsPairs(data, saved, n) by { SerializedPairs(saved, tail); }
    LoadedWhole(slots, saved, data, n, j);
  }

  /**
    * Saved under one schema, loaded under another: a slot whose id was saved takes that value, clamped to its
    * own range.
    */
  lemma SchemaRestores(slots: seq<Slot>, saved: seq<Slot>, tail: seq<Byte>, i: nat, j: nat)
    requires Bank(slots) && UniqueIds(slots) && UniqueIds(saved) && |saved| < TWO_16
    requires i < |saved| && j < |slots| && saved[i].id == slots[j].id && IsFinite(saved[i].current)
    ensures Reloaded(slots, saved, tail)[j] == slots[j].(current := Clamp(saved[i].current, slots[j].min, slots[j].max))
  {
    ReloadedSlot(slots, saved, tail, j);
    SavedIs(saved, i, |saved|);
  }

  /** Every slot of the loading schema takes what was saved under its id, or keeps what it had. */
  ghost predicate ReloadsRightly(slots: seq<Slot>, saved: seq<Slot>, tail: seq<Byte>)
    requires Bank(slots)
  {
    forall j | 0 <= j < |slots| ::
      Reloaded(slots, saved, tail)[j] == Restored(slots[j], SavedAt(saved, slots[j].id, |saved|))
  }

  /** A slot that admits one value and holds another. */
  function Misplaced(id: U32, value: F64): Slot {
    Slot(id, if value == 0 then 1 else 0, value, value, value)
  }

  lemma LastIsLost(saved: seq<Slot>)
    requires UniqueIds(saved) && |saved| >= TWO_16 && IsFinite(saved[|saved| - 1].current)
    ensures var last := saved[|saved| - 1];
            var slots := [Misplaced(last.id, last.current)];
            Bank(slots) && UniqueIds(slots) && !ReloadsRightly(slots, saved, [])
  {
    var last := saved[|saved| - 1];
    var slots := [Misplaced(last.id, last.current)];
    assert Kept(saved) < |saved|;
    ReloadedSlot(slots, saved, [], 0);
    NeverSaved(saved, last.id, Kept(saved));
    SavedIs(saved, |saved| - 1, |saved|);
    assert Restored(slots[0], Some(last.current)).current == last.current;
  }

  /** A save is read back rightly into every schema, whatever follows it, if and only if its count fits into 16 bits. */
  lemma CountDecides(saved: seq<Slot>)
    requires UniqueIds(saved) && forall i | 0 <= i < |saved| :: IsFinite(saved[i].current)
    ensures (forall slots: seq<Slot>, tail: seq<Byte> | Bank(slots) && UniqueIds(slots) ::
      ReloadsRightly(slots, saved, tail))
      <==> |saved| < TWO_16
  {
    if |saved| < TWO_16 {
      forall slots: seq<Slot>, tail: seq<Byte> | Bank(slots) && UniqueIds(slots) ensures ReloadsRightly(slots, saved,
        tail) {
        forall j | 0 <= j < |slots|
          ensures Reloaded(slots, saved, tail)[j] == Restored(slots[j], SavedAt(saved, slots[j].id, |saved|))
        {
          ReloadedSlot(slots, saved, tail, j);
        }
      }
    } else {
      LastIsLost(saved);
    }
  }

  /** A slot whose id was not saved keeps what it had. */
  lemma SchemaLeaves(slots: seq<Slot>, saved: seq<Slot>, tail: seq<Byte>, j: nat)
    requires Bank(slots) && UniqueIds(slots) && UniqueIds(saved) && j < |slots|
    requires forall i | 0 <= i < |saved| :: saved[i].id != slots[j].id
    ensures Reloaded(slots, saved, tail)[j] == slots[j]
  {
    ReloadedSlot(slots, saved, tail, j);
    NeverSaved(saved, slots[j].id, Kept(saved));
  }
}
