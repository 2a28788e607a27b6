/** The parameter bank in terms of the numbers its bit patterns stand for, its bytes one by one, and its commands. */
module BankNumbers {
  import opened ParameterBank

  // ── The number of a double ─────────────────────────────────────────────────

  const TWO_52: int := 0x10_0000_0000_0000

  function Pow2(n: nat): nat
    ensures Pow2(n) >= 1
  {
    if n == 0 then 1 else 2 * Pow2(n - 1)
  }

  /** The eleven exponent bits, the fifty-two fraction bits and the sign bit. */
  function Exponent(x: F64): nat { x as int / TWO_52 % 2048 }

  function Fraction(x: F64): nat { x as int % TWO_52 }

  predicate Negative(x: F64) { x as int >= TWO_63 }

  /** All exponent bits set is infinity or not a number. */
  predicate HasNumber(x: F64) { Exponent(x) != 2047 }

  /** The number without its sign, in units of the smallest positive double. */
  function Units(x: F64): nat {
    if Exponent(x) == 0 then Fraction(x) else (TWO_52 + Fraction(x)) * Pow2(Exponent(x) - 1)
  }

  function SignedUnits(x: F64): int { if Negative(x) then 0 - Units(x) else Units(x) }

  /** The number a double stands for. */
  function Number(x: F64): real
    requires HasNumber(x)
  {
    SignedUnits(x) as real / Pow2(1074) as real
  }

  lemma {:induction false} Pow2Grows(a: nat, b: nat)
    requires a <= b
    ensures Pow2(a) <= Pow2(b)
    decreases b
  {
    if a == b {
    } else {
      Pow2Grows(a, b - 1);
    }
  }

  lemma {:induction false} Pow2Sum(a: nat, b: nat)
    ensures Pow2(a + b) == Pow2(a) * Pow2(b)
  {
    if a == 0 {
    } else {
      Pow2Sum(a - 1, b);
      assert 2 * (Pow2(a - 1) * Pow2(b)) == (2 * Pow2(a - 1)) * Pow2(b);
    }
  }

  lemma Parts(x: F64)
    ensures Magnitude(x) == Exponent(x) * TWO_52 + Fraction(x)
    ensures Exponent(x) < 2048 && Fraction(x) < TWO_52
    ensures IsFinite(x) <==> HasNumber(x)
    ensures Negative(x) <==> Key(x) < 0 || x as int == TWO_63 || (x as int > TWO_63 && Magnitude(x) > 0)
  {
  }

  lemma Product(a: nat, b: nat, p: nat)
    requires a < b && p >= 1
    ensures a * p < b * p
  {
    assert b * p - a * p == (b - a) * p;
  }

  /** Scaling by a power of two is between that power and the next. */
  lemma Scaled(f: nat, e: nat)
    requires f < TWO_52
    ensures TWO_52 * Pow2(e) <= (TWO_52 + f) * Pow2(e) < TWO_52 * Pow2(e + 1)
  {
    var p := Pow2(e);
    assert f * p >= 0 && f * p < TWO_52 * p by { Product(f, TWO_52, p); }
    assert (TWO_52 + f) * p == TWO_52 * p + f * p;
    assert TWO_52 * Pow2(e + 1) == TWO_52 * p + TWO_52 * p;
  }

  /** Where a double with this exponent lies. */
  lemma UnitsBetween(x: F64)
    ensures Exponent(x) == 0 ==> 0 <= Units(x) < TWO_52
    ensures Exponent(x) > 0 ==> TWO_52 * Pow2(Exponent(x) - 1) <= Units(x) < TWO_52 * Pow2(Exponent(x))
  {
    Parts(x);
    if Exponent(x) > 0 {
      Scaled(Fraction(x), Exponent(x) - 1);
    }
  }

  lemma HigherExponent(x: F64, y: F64)
    requires Exponent(x) < Exponent(y)
    ensures Units(x) < Units(y)
  {
    UnitsBetween(x);
    UnitsBetween(y);
    Pow2Grows(Exponent(x), Exponent(y) - 1);
    assert TWO_52 * Pow2(Exponent(x)) <= TWO_52 * Pow2(Exponent(y) - 1);
    assert TWO_52 <= TWO_52 * Pow2(Exponent(y) - 1);
  }

  lemma SameExponent(x: F64, y: F64)
    requires Exponent(x) == Exponent(y) && Fraction(x) < Fraction(y)
    ensures Units(x) < Units(y)
  {
    if Exponent(x) > 0 {
      Product(TWO_52 + Fraction(x), TWO_52 + Fraction(y), Pow2(Exponent(x) - 1));
    }
  }

  lemma MagnitudeOrders(x: F64, y: F64)
    ensures Magnitude(x) < Magnitude(y) <==> Units(x) < Units(y)
    ensures Magnitude(x) == Magnitude(y) <==> Units(x) == Units(y)
  {
    Parts(x);
    Parts(y);
    if Exponent(x) < Exponent(y) {
      HigherExponent(x, y);
    } else if Exponent(y) < Exponent(x) {
      HigherExponent(y, x);
    } else if Fraction(x) < Fraction(y) {
      SameExponent(x, y);
    } else if Fraction(y) < Fraction(x) {
      SameExponent(y, x);
    }
  }

  lemma ZeroUnits(x: F64)
    ensures Units(x) == 0 <==> Magnitude(x) == 0
  {
    Parts(x);
    UnitsBetween(x);
    if Exponent(x) > 0 {
      Product(0, TWO_52, Pow2(Exponent(x) - 1));
    }
  }

  /** A smaller magnitude the other way round for two negatives; either sign of zero is zero. */
  lemma SignedOrder(x: F64, y: F64)
    ensures AtMost(x, y) <==> SignedUnits(x) <= SignedUnits(y)
  {
    MagnitudeOrders(x, y);
    ZeroUnits(x);
    ZeroUnits(y);
  }

  lemma NotNegative(x: real, y: real)
    requires x >= 0.0 && y >= 0.0
    ensures x * y >= 0.0
  {
  }

  lemma Positive(x: real, y: real)
    requires x > 0.0 && y > 0.0
    ensures x * y > 0.0
  {
  }

  lemma Ordered(q: real, r: real, d: real)
    requires d > 0.0
    ensures q <= r <==> q * d <= r * d
  {
    if q <= r {
      NotNegative(r - q, d);
      assert r * d - q * d == (r - q) * d;
    } else {
      Positive(q - r, d);
      assert q * d - r * d == (q - r) * d;
    }
  }

  lemma Divides(a: int, b: int, d: real)
    requires d > 0.0
    ensures a as real / d <= b as real / d <==> a <= b
  {
    var q, r := a as real / d, b as real / d;
    Ordered(q, r, d);
    assert q * d == a as real && r * d == b as real;
  }

  /** The order of the bit patterns is the order of the numbers. */
  lemma AtMostIsOrder(x: F64, y: F64)
    requires HasNumber(x) && HasNumber(y)
    ensures AtMost(x, y) <==> Number(x) <= Number(y)
  {
    SignedOrder(x, y);
    Divides(SignedUnits(x), SignedUnits(y), Pow2(1074) as real);
  }

  lemma RangedIff(min: F64, max: F64)
    ensures Ranged(min, max) <==> HasNumber(min) && HasNumber(max) && Number(min) <= Number(max)
  {
    Parts(min);
    Parts(max);
    if HasNumber(min) && HasNumber(max) { AtMostIsOrder(min, max); }
  }

  // ── What is stored ─────────────────────────────────────────────────────────

  /** The slot takes the number, or the nearer end of its range. */
  predicate Nearest(s: Slot, wanted: F64)
    requires HasNumber(wanted) && HasNumber(s.min) && HasNumber(s.max)
  {
    HasNumber(s.current) && Number(s.current) ==
      if Number(wanted) < Number(s.min) then Number(s.min)
      else if Number(wanted) > Number(s.max) then Number(s.max)
      else Number(wanted)
  }

  ghost predicate Proper(slots: seq<Slot>) {
    forall i | 0 <= i < |slots| ::
      HasNumber(slots[i].min) && HasNumber(slots[i].max) && Number(slots[i].min) <= Number(slots[i].max)
  }

  lemma ProperIsBank(slots: seq<Slot>)
    ensures Proper(slots) <==> Bank(slots)
  {
    forall i | 0 <= i < |slots|
      ensures Ranged(slots[i].min, slots[i].max)
        <==> HasNumber(slots[i].min) && HasNumber(slots[i].max) && Number(slots[i].min) <= Number(slots[i].max)
    {
      RangedIff(slots[i].min, slots[i].max);
    }
  }

  lemma ClampIsNearest(s: Slot, wanted: F64)
    requires Ranged(s.min, s.max) && HasNumber(wanted)
    ensures HasNumber(s.min) && HasNumber(s.max) && Nearest(s.(current := Clamp(wanted, s.min, s.max)), wanted)
  {
    Parts(wanted);
    Parts(s.min);
    Parts(s.max);
    AtMostIsOrder(wanted, s.min);
    AtMostIsOrder(s.min, wanted);
    AtMostIsOrder(wanted, s.max);
    AtMostIsOrder(s.max, wanted);
  }

  /** Everything but the current value. */
  predicate SameSlot(a: Slot, b: Slot) { a == b.(current := a.current) }

  /** Only slot `i` may differ, and it stores `wanted` as nearly as its range allows. */
  ghost predicate Stores(slots: seq<Slot>, now: seq<Slot>, i: nat, wanted: F64)
    requires Proper(slots) && i < |slots| && HasNumber(wanted)
  {
    && |now| == |slots| && SameSlot(now[i], slots[i]) && Nearest(now[i], wanted)
    && forall j | 0 <= j < |slots| && j != i :: now[j] == slots[j]
  }

  /** Slot `i` is the first of this id, or there is none. */
  predicate First(slots: seq<Slot>, id: U32, i: nat) {
    i <= |slots| && (forall k | 0 <= k < i :: slots[k].id != id) && (i < |slots| ==> slots[i].id == id)
  }

  /** A set stores a number in the first slot of that id; what has no number, and unknown ids, change nothing. */
  lemma SetStores(slots: seq<Slot>, id: U32, wanted: F64, i: nat)
    requires Proper(slots) && Bank(slots) && First(slots, id, i)
    ensures if i == |slots| || !HasNumber(wanted) then SetAt(slots, id, wanted) == slots
            else Stores(slots, SetAt(slots, id, wanted), i, wanted)
  {
    Parts(wanted);
    FindIs(slots, id, i);
    if i < |slots| && HasNumber(wanted) {
      ClampIsNearest(slots[i], wanted);
    }
  }

  lemma SetCommandStores(slots: seq<Slot>, id: U32, arg: F64, add: Add, i: nat)
    requires Proper(slots) && Bank(slots) && First(slots, id, i)
    ensures var now := Commanded(slots, Command(0, id as int, arg), add);
      if i < |slots| && HasNumber(arg) then Stores(slots, now, i, arg) else now == slots
  {
    assert ParamOf(Command(0, id as int, arg)) == id;
    assert Commanded(slots, Command(0, id as int, arg), add) == SetAt(slots, id, arg);
    SetStores(slots, id, arg, i);
  }

  lemma BumpIsSet(slots: seq<Slot>, id: U32, arg: F64, add: Add, i: nat)
    requires Bank(slots) && First(slots, id, i)
    ensures Commanded(slots, Command(1, id as int, arg), add)
      == if i < |slots| then SetAt(slots, id, add(slots[i].current, arg)) else slots
  {
    FindIs(slots, id, i);
    assert ParamOf(Command(1, id as int, arg)) == id;
  }

  /** A bump stores the sum of what the slot holds and the argument, however it is rounded. */
  lemma BumpCommandStores(slots: seq<Slot>, id: U32, arg: F64, add: Add, i: nat, sum: F64)
    requires Proper(slots) && Bank(slots) && First(slots, id, i)
    requires i < |slots| ==> sum == add(slots[i].current, arg)
    ensures var now := Commanded(slots, Command(1, id as int, arg), add);
      if i < |slots| && HasNumber(sum) then Stores(slots, now, i, sum) else now == slots
  {
    var now := Commanded(slots, Command(1, id as int, arg), add);
    assert now == if i < |slots| then SetAt(slots, id, sum) else slots by { BumpIsSet(slots, id, arg, add, i); }
    SetStores(slots, id, sum, i);
  }

  /** No other command changes a value. */
  lemma OtherCommandsStoreNothing(slots: seq<Slot>, c: Command, add: Add)
    requires Bank(slots) && c.typeId != 0 && c.typeId != 1
    ensures Commanded(slots, c, add) == slots
  {
  }

  /** The integer argument is read as the 32 bits it ends in. */
  lemma ArgumentWraps(c: Command)
    ensures 0 <= ParamOf(c) as int < 0x1_0000_0000
    ensures exists k: int :: c.arg0 == ParamOf(c) as int + k * 0x1_0000_0000
  {
    assert c.arg0 == ParamOf(c) as int + (c.arg0 / 0x1_0000_0000) * 0x1_0000_0000;
  }

  /** The slot's range, in numbers, and a value inside it. */
  predicate Inside(s: Slot) {
    && HasNumber(s.current) && HasNumber(s.min) && HasNumber(s.max)
    && Number(s.min) <= Number(s.current) <= Number(s.max)
  }

  lemma InsideIff(s: Slot)
    requires Ranged(s.min, s.max)
    ensures Inside(s) <==> InRange(s)
  {
    Parts(s.current);
    RangedIff(s.min, s.max);
    if HasNumber(s.current) {
      AtMostIsOrder(s.min, s.current);
      AtMostIsOrder(s.current, s.max);
    }
  }

  /** Each slot is as it was, or holds a number inside its own unchanged range. */
  ghost predicate Kept(slots: seq<Slot>, now: seq<Slot>) {
    |now| == |slots| && forall i | 0 <= i < |slots| ::
      now[i] == slots[i] || (SameSlot(now[i], slots[i]) && Inside(now[i]))
  }

  /** Whatever bytes are loaded. */
  lemma AnyLoadKeeps(slots: seq<Slot>, data: seq<Byte>)
    requires Proper(slots) && Bank(slots)
    ensures Kept(slots, Load(slots, data))
  {
    LoadKeeps(slots, data, WholePairs(data));
    forall i | 0 <= i < |slots| { InsideIff(Load(slots, data)[i]); }
  }

  /** Whatever commands are handled, and whatever their sums round to. */
  lemma AnyCommandsKeep(slots: seq<Slot>, cs: seq<Command>, add: Add)
    requires Proper(slots) && Bank(slots)
    ensures Kept(slots, CommandedAll(slots, cs, add))
  {
    CommandsKeep(slots, cs, add);
    forall i | 0 <= i < |slots| { InsideIff(CommandedAll(slots, cs, add)[i]); }
  }

  /** A bank starts with one slot for each declared param, at its default. */
  lemma StartsAtDefaults(doc: seq<Descriptor>)
    ensures |Built(doc)| == |doc|
    ensures forall i | 0 <= i < |doc| ::
      && Built(doc)[i].id == doc[i].id && Built(doc)[i].current == doc[i].default
      && Built(doc)[i].min == doc[i].min && Built(doc)[i].max == doc[i].max
  {
  }

  // ── The bytes of a save ────────────────────────────────────────────────────

  /** The byte of weight `w`. */
  function ByteAt(n: nat, w: nat): Byte
    requires w > 0
  {
    (n / w % 256) as Byte
  }

  lemma TwoBytes(n: nat)
    ensures Le(n, 2) == [ByteAt(n, 1), ByteAt(n, 0x100)]
  {
    assert Le(n / 256, 1) == [(n / 256 % 256) as Byte] + Le(n / 256 / 256, 0);
  }

  lemma FourBytes(n: nat)
    ensures Le(n, 4) == [ByteAt(n, 1), ByteAt(n, 0x100), ByteAt(n, 0x1_0000), ByteAt(n, 0x100_0000)]
  {
    var m := n / 256 / 256;
    TwoBytes(m);
    assert m == n / 0x1_0000 && m / 256 == n / 0x100_0000;
    assert Le(n, 4) == [(n % 256) as Byte] + ([(n / 256 % 256) as Byte] + Le(m, 2));
  }

  lemma EightBytes(n: nat)
    ensures Le(n, 8) == Le(n, 4) + Le(n / 0x1_0000_0000, 4)
  {
    var m1, m2, m3 := n / 256, n / 256 / 256, n / 256 / 256 / 256;
    assert m3 / 256 == n / 0x1_0000_0000;
    assert Le(m3, 5) == [(m3 % 256) as Byte] + Le(m3 / 256, 4);
    assert Le(m3, 1) == [(m3 % 256) as Byte];
    assert Le(m2, 6) == [(m2 % 256) as Byte] + Le(m3, 5);
    assert Le(m2, 2) == [(m2 % 256) as Byte] + Le(m3, 1);
    assert Le(m1, 7) == [(m1 % 256) as Byte] + Le(m2, 6);
    assert Le(m1, 3) == [(m1 % 256) as Byte] + Le(m2, 2);
  }

  lemma SerializedAt(slots: seq<Slot>, i: nat)
    requires i < |slots|
    ensures |Serialized(slots)| == 3 + 12 * |slots|
    ensures Serialized(slots)[..3] == [BANK_FORMAT_VERSION] + Le(|slots| % TWO_16, 2)
    ensures Serialized(slots)[3 + 12 * i..3 + 12 * i + 12] == PairBytes(Pair(slots[i].id, slots[i].current))
  {
    var pairs := PairsOf(slots);
    PairsSlice(pairs, i);
    var bytes := Serialized(slots);
    assert bytes == ([BANK_FORMAT_VERSION] + Le(|slots| % TWO_16, 2)) + PairsBytes(pairs);
    assert bytes[3 + 12 * i..3 + 12 * i + 12] == PairsBytes(pairs)[12 * i..12 * i + 12];
  }

  /** An id in four bytes and a double's bits in eight, lowest byte first. */
  predicate IdThenBits(bytes: seq<Byte>, id: nat, bits: nat) {
    bytes == [
      ByteAt(id, 1), ByteAt(id, 0x100), ByteAt(id, 0x1_0000), ByteAt(id, 0x100_0000),
      ByteAt(bits, 1), ByteAt(bits, 0x100), ByteAt(bits, 0x1_0000), ByteAt(bits, 0x100_0000),
      ByteAt(bits / 0x1_0000_0000, 1), ByteAt(bits / 0x1_0000_0000, 0x100),
      ByteAt(bits / 0x1_0000_0000, 0x1_0000), ByteAt(bits / 0x1_0000_0000, 0x100_0000)]
  }

  lemma PairLaidOut(p: Pair)
    ensures IdThenBits(PairBytes(p), p.id as nat, p.value as nat)
  {
    FourBytes(p.id as nat);
    EightBytes(p.value as nat);
    FourBytes(p.value as nat);
    FourBytes(p.value as nat / 0x1_0000_0000);
  }

  lemma HeaderLaidOut(n: nat)
    ensures [BANK_FORMAT_VERSION] + Le(n % TWO_16, 2) == [1, ByteAt(n, 1), ByteAt(n, 0x100)]
  {
    var low, high := n % 0x1_0000, n / 0x1_0000;
    TwoBytes(low);
    assert n == 0x1_0000 * high + low;
    assert n / 256 == 256 * high + low / 256;
    assert ByteAt(low, 1) == ByteAt(n, 1) && ByteAt(low, 0x100) == ByteAt(n, 0x100);
  }

  /** A save: a one, the count in two bytes, and for each slot its id and its value's bits. */
  lemma Layout(slots: seq<Slot>, i: nat)
    requires i < |slots|
    ensures |Serialized(slots)| == 3 + 12 * |slots|
    ensures Serialized(slots)[..3] == [1, ByteAt(|slots|, 1), ByteAt(|slots|, 0x100)]
    ensures IdThenBits(Serialized(slots)[3 + 12 * i..3 + 12 * i + 12], slots[i].id as nat, slots[i].current as nat)
  {
    SerializedAt(slots, i);
    HeaderLaidOut(|slots|);
    PairLaidOut(Pair(slots[i].id, slots[i].current));
  }
}
