/** What a client is shown, in terms of the bus, the colours sent and the clock alone. */
module Shown {
  import opened Wrappers
  import opened StateBus
  import opened Clients
  import opened Mirror
  import opened Kerygma
  import opened AntiphonRun

  // ── Strings ────────────────────────────────────────────────────────────────

  ghost predicate Under(p: string, prefix: string) { exists rest: string :: p == prefix + rest }

  ghost predicate Ends(p: string, suffix: string) { exists rest: string :: p == rest + suffix }

  ghost predicate Has(p: string, part: string) { exists a: string, b: string :: p == a + part + b }

  lemma UnderIff(p: string, prefix: string)
    ensures Under(p, prefix) <==> prefix <= p
  {
    if prefix <= p { assert p == prefix + p[|prefix|..]; }
  }

  lemma EndsIff(p: string, suffix: string)
    ensures Ends(p, suffix) <==> EndsWith(p, suffix)
  {
    if EndsWith(p, suffix) { assert p == p[..|p| - |suffix|] + suffix; }
  }

  lemma HasIff(p: string, part: string)
    ensures Has(p, part) <==> Contains(p, part)
  {
    if a: string, b: string :| p == a + part + b {
      assert PartAt(p, part, |a|) by { assert p[|a|..|a| + |part|] == part; }
    }
    if i :| 0 <= i <= |p| - |part| && PartAt(p, part, i) {
      assert p == p[..i] + part + p[i + |part|..];
    }
  }

  // ── Numbers at the end of a key ────────────────────────────────────────────

  const DIGITS := "0123456789"

  function Decimal(n: nat): (s: string)
    ensures s != []
  {
    if n < 10 then [DIGITS[n]] else Decimal(n / 10) + [DIGITS[n % 10]]
  }

  function Zeros(z: nat): string {
    seq(z, _ => '0')
  }

  /** The key ends in `n`, in decimal, leading zeros allowed, and no more digits before it. */
  ghost predicate EndsIn(key: string, n: nat) {
    exists prefix: string, z: nat ::
      key == prefix + Zeros(z) + Decimal(n) && (prefix == [] || prefix[|prefix| - 1] !in DIGITS)
  }

  predicate AllDigits(s: string) { forall i | 0 <= i < |s| :: IsDigit(s[i]) }

  lemma DigitIs(c: char)
    ensures c in DIGITS <==> IsDigit(c)
    ensures IsDigit(c) ==> DigitValue(c) < 10 && DIGITS[DigitValue(c)] == c
  {
    if IsDigit(c) {
      assert DIGITS[c as int - '0' as int] == c;
    }
  }

  lemma DigitAt(d: nat)
    requires d < 10
    ensures IsDigit(DIGITS[d]) && DigitValue(DIGITS[d]) == d
  {
  }

  lemma {:induction false} ZerosParse(z: nat)
    ensures AllDigits(Zeros(z)) && ParseDigits(Zeros(z)) == 0
  {
    if z == 0 {
    } else {
      ZerosParse(z - 1);
      assert Zeros(z)[..z - 1] == Zeros(z - 1);
    }
  }

  lemma {:induction false} DecimalParses(z: nat, n: nat)
    ensures AllDigits(Zeros(z) + Decimal(n)) && ParseDigits(Zeros(z) + Decimal(n)) == n
    decreases n
  {
    var s := Zeros(z) + Decimal(n);
    DigitAt(n % 10);
    if n < 10 {
      ZerosParse(z);
      assert s[..|s| - 1] == Zeros(z);
    } else {
      DecimalParses(z, n / 10);
      assert s[..|s| - 1] == Zeros(z) + Decimal(n / 10);
      assert s == s[..|s| - 1] + [DIGITS[n % 10]];
    }
  }

  lemma DecimalSnoc(z: nat, m: nat, c: char)
    requires IsDigit(c)
    ensures m == 0 ==> (Zeros(z) + Decimal(m)) + [c] == Zeros(z + 1) + Decimal(m * 10 + DigitValue(c))
    ensures m > 0 ==> (Zeros(z) + Decimal(m)) + [c] == Zeros(z) + Decimal(m * 10 + DigitValue(c))
  {
    DigitIs(c);
    if m == 0 {
      assert Zeros(z + 1) == Zeros(z) + ['0'];
    } else {
      assert (m * 10 + DigitValue(c)) / 10 == m && (m * 10 + DigitValue(c)) % 10 == DigitValue(c);
      assert Decimal(m * 10 + DigitValue(c)) == Decimal(m) + [c];
    }
  }

  lemma ParsedSnoc(front: string, c: char)
    requires AllDigits(front) && IsDigit(c)
    ensures AllDigits(front + [c]) && ParseDigits(front + [c]) == ParseDigits(front) * 10 + DigitValue(c)
  {
    assert (front + [c])[..|front|] == front;
  }

  /** Leading zeros, then `n` in decimal. */
  ghost predicate Writes(s: string, n: nat) { exists z: nat :: s == Zeros(z) + Decimal(n) }

  lemma WritesMore(front: string, m: nat, c: char)
    requires Writes(front, m) && IsDigit(c)
    ensures Writes(front + [c], m * 10 + DigitValue(c))
  {
    var z: nat :| front == Zeros(z) + Decimal(m);
    DecimalSnoc(z, m, c);
    assert m > 0 ==> front + [c] == Zeros(z) + Decimal(m * 10 + DigitValue(c));
  }

  lemma WritesOne(c: char)
    requires IsDigit(c)
    ensures Writes([c], DigitValue(c))
  {
    DigitIs(c);
    assert [c] == Zeros(0) + Decimal(DigitValue(c));
  }

  /** Every run of digits is zeros and then a number in decimal. */
  lemma {:induction false} DigitsAreDecimal(s: string)
    requires s != [] && AllDigits(s)
    ensures Writes(s, ParseDigits(s))
    decreases |s|
  {
    var front, c := s[..|s| - 1], s[|s| - 1];
    assert s == front + [c];
    assert ParseDigits(s) == ParseDigits(front) * 10 + DigitValue(c) by { ParsedSnoc(front, c); }
    if front == [] {
      WritesOne(c);
    } else {
      assert Writes(front, ParseDigits(front)) by { DigitsAreDecimal(front); }
      WritesMore(front, ParseDigits(front), c);
    }
  }

  lemma {:induction false} TrailingAre(prefix: string, digits: string)
    requires AllDigits(digits) && (prefix == [] || !IsDigit(prefix[|prefix| - 1]))
    ensures TrailingDigits(prefix + digits) == |digits|
    decreases |digits|
  {
    var key := prefix + digits;
    if digits == [] {
      assert key == prefix;
    } else {
      assert key[..|key| - 1] == prefix + digits[..|digits| - 1];
      TrailingAre(prefix, digits[..|digits| - 1]);
    }
  }

  lemma {:induction false} BeforeTrailing(key: string)
    ensures var n := |key| - TrailingDigits(key); n > 0 ==> !IsDigit(key[n - 1])
    decreases |key|
  {
    if key == [] || !IsDigit(key[|key| - 1]) {
    } else {
      BeforeTrailing(key[..|key| - 1]);
    }
  }

  lemma EndingParses(prefix: string, z: nat, n: nat)
    requires prefix == [] || prefix[|prefix| - 1] !in DIGITS
    ensures TrailingInt(prefix + Zeros(z) + Decimal(n)) == if n < 0x1_0000_0000 then Some(n) else None
  {
    var digits := Zeros(z) + Decimal(n);
    var key := prefix + Zeros(z) + Decimal(n);
    assert key == prefix + digits;
    if prefix != [] { DigitIs(prefix[|prefix| - 1]); }
    DecimalParses(z, n);
    TrailingAre(prefix, digits);
    assert key[|prefix|..] == digits;
  }

  lemma EndsAsWritten(prefix: string, digits: string, n: nat)
    requires Writes(digits, n) && (prefix == [] || prefix[|prefix| - 1] !in DIGITS)
    ensures EndsIn(prefix + digits, n)
  {
    var z: nat :| digits == Zeros(z) + Decimal(n);
    assert prefix + digits == prefix + Zeros(z) + Decimal(n);
  }

  lemma ParsedEnding(key: string)
    requires TrailingInt(key).Some?
    ensures EndsIn(key, TrailingInt(key).value)
  {
    var k := |key| - TrailingDigits(key);
    var digits := key[k..];
    DigitsAreDecimal(digits);
    BeforeTrailing(key);
    if k > 0 { DigitIs(key[k - 1]); }
    EndsAsWritten(key[..k], digits, ParseDigits(digits));
    assert key == key[..k] + digits;
  }

  /** A key has a number exactly when it ends in one of 32 bits, and then that is its number. */
  lemma TrailingIntIs(key: string, n: nat)
    ensures TrailingInt(key) == Some(n) <==> EndsIn(key, n) && n < 0x1_0000_0000
  {
    if TrailingInt(key) == Some(n) {
      ParsedEnding(key);
    }
    if EndsIn(key, n) {
      var prefix: string, z: nat :|
        key == prefix + Zeros(z) + Decimal(n) && (prefix == [] || prefix[|prefix| - 1] !in DIGITS);
      EndingParses(prefix, z, n);
    }
  }

  // ── Values and paths ───────────────────────────────────────────────────────

  /** The number a value is shown as; text has none. */
  predicate Carries(value: BusValue, number: real) {
    match value
    case Float(f) => number == f
    case Int(i) => number == i as real
    case Bool(b) => (b ==> number == 1.0) && (!b ==> number == 0.0)
    case Text(_) => false
  }

  ghost predicate OnMirror(p: string) {
    || (Under(p, "/node/") && (Has(p, "/param/") || Has(p, "/state/")))
    || Under(p, "/transport/")
    || Under(p, "/script/")
    || Under(p, "/engine/")
  }

  lemma OnMirrorIff(p: string)
    ensures OnMirror(p) <==> IsMirrored(p)
    ensures OnMirror(p) ==> !IsContext(p)
    ensures Under(p, "/context/") <==> IsContext(p)
  {
    UnderIff(p, "/node/");
    HasIff(p, "/param/");
    HasIff(p, "/state/");
    UnderIff(p, "/transport/");
    UnderIff(p, "/script/");
    UnderIff(p, "/engine/");
    UnderIff(p, "/context/");
    if IsContext(p) { assert p[1] == "/context/"[1] == 'c'; }
    if "/node/" <= p { assert p[1] == "/node/"[1] == 'n'; }
    if "/transport/" <= p { assert p[1] == "/transport/"[1] == 't'; }
    if "/script/" <= p { assert p[1] == "/script/"[1] == 's'; }
    if "/engine/" <= p { assert p[1] == "/engine/"[1] == 'e'; }
  }

  lemma MirroredNumber(bus: Bus, p: string)
    ensures p in MirrorOf(bus) <==> p in bus && OnMirror(p) && !bus[p].Text?
    ensures p in MirrorOf(bus) ==> Carries(bus[p], MirrorOf(bus)[p])
  {
    OnMirrorIff(p);
  }

  /** A flush is due first of all, and then every thirty-three milliseconds. */
  predicate TimeToFlush(last: Option<nat>, now: nat) {
    last.None? || now >= last.value + 33
  }

  lemma DueIff(last: Option<nat>, now: nat)
    ensures Due(last, now) <==> TimeToFlush(last, now)
  {
  }

  /**
    * After a pump whose time has come, a replayed client shows for every numeric value on a mirrored path
    * its number, and otherwise only what it was shown before.
    */
  lemma ShowsTheNumbers(w: World, watched: Watched, order: seq<string>, env: seq<seq<ClientEvent>>, now: nat, i: nat)
    requires Sound(w) && IsOrder(order, w.bus) && |env| == |order| + 3 && TimeToFlush(w.mirror.lastFlush, now)
    requires var m := Pumped(w.mirror, watched, w.bus, order, env, now);
      i < |m.slots| && m.slots[i].Some? && !m.slots[i].value.needsStateReplay
    ensures var view := StateView(Pumped(w.mirror, watched, w.bus, order, env, now).slots[i].value.sent);
      forall p ::
        && (p in view <==> p in w.mirror.shadow || (p in w.bus && OnMirror(p) && !w.bus[p].Text?))
        && (p in w.bus && OnMirror(p) && !w.bus[p].Text? ==> Carries(w.bus[p], view[p]))
        && (p in w.mirror.shadow && !(p in w.bus && OnMirror(p) && !w.bus[p].Text?) ==> view[p] == w.mirror.shadow[p])
  {
    DueIff(w.mirror.lastFlush, now);
    var view := StateView(Pumped(w.mirror, watched, w.bus, order, env, now).slots[i].value.sent);
    assert view == w.mirror.shadow + MirrorOf(w.bus) by { DuePumpDelivers(w, watched, order, env, now, i); }
    forall p
      ensures p in view <==> p in w.mirror.shadow || (p in w.bus && OnMirror(p) && !w.bus[p].Text?)
      ensures p in w.bus && OnMirror(p) && !w.bus[p].Text? ==> Carries(w.bus[p], view[p])
      ensures p in w.mirror.shadow && !(p in w.bus && OnMirror(p) && !w.bus[p].Text?) ==> view[p] == w.mirror.shadow[p]
    {
      MirroredNumber(w.bus, p);
    }
  }

  // ── The context frame ──────────────────────────────────────────────────────

  predicate CarriesContext(value: BusValue, shown: ContextValue) {
    match value
    case Text(s) => shown == TextValue(s)
    case _ => shown.Num? && Carries(value, shown.n)
  }

  /** The encoder's node half holds an integer, its param half text, and its key ends in a 32-bit number. */
  ghost predicate EncoderThere(bus: Bus, key: string) {
    && "/context/" + key + "/node" in bus && bus["/context/" + key + "/node"].Int?
    && "/context/" + key + "/param" in bus && bus["/context/" + key + "/param"].Text?
    && exists n :: EndsIn(key, n) && n < 0x1_0000_0000
  }

  ghost predicate PlainPath(p: string) {
    exists rest: string :: p == "/context/" + rest && !Ends(rest, "/node") && !Ends(rest, "/param")
  }

  ghost predicate FrameShows(c: ContextSnapshot, bus: Bus) {
    && (forall key :: key in c.encoders <==> EncoderThere(bus, key))
    && (forall key, n | EncoderThere(bus, key) && EndsIn(key, n) && n < 0x1_0000_0000 ::
          c.encoders[key] == EncoderSlot(n, bus["/context/" + key + "/node"].i % 0x1_0000_0000,
                                         bus["/context/" + key + "/param"].s))
    && (forall p :: p in c.paths <==> p in bus && PlainPath(p))
    && (forall p | p in bus && PlainPath(p) :: CarriesContext(bus[p], c.paths[p]))
  }

  lemma EncoderThereIff(bus: Bus, key: string)
    ensures EncoderThere(bus, key) <==> EncoderComplete(bus, key)
    ensures EncoderThere(bus, key) ==> TrailingInt(key).Some?
  {
    forall n: nat ensures TrailingInt(key) == Some(n) <==>
      EndsIn(key, n) && n < 0x1_0000_0000 { TrailingIntIs(key, n); }
    if TrailingInt(key).Some? {
      assert EndsIn(key, TrailingInt(key).value);
    }
  }

  lemma PlainPathIff(p: string)
    ensures PlainPath(p) <==> IsPlain(p)
  {
    OnMirrorIff(p);
    if rest: string :| p == "/context/" + rest && !Ends(rest, "/node") && !Ends(rest, "/param") {
      assert p[9..] == rest;
      EndsIff(rest, "/node");
      EndsIff(rest, "/param");
    }
    if IsPlain(p) {
      assert p == "/context/" + p[9..];
      EndsIff(p[9..], "/node");
      EndsIff(p[9..], "/param");
    }
  }

  /** What the frame built from a bus says, key by key and path by path. */
  lemma SnapshotShows(bus: Bus)
    ensures FrameShows(Snapshot(bus), bus)
  {
    var c := Snapshot(bus);
    forall key
      ensures key in c.encoders <==> EncoderThere(bus, key)
      ensures key in c.encoders ==> EncoderComplete(bus, key) && c.encoders[key] == EncoderOf(bus, key)
    {
      EncoderKeysExact(bus, key);
      EncoderThereIff(bus, key);
    }
    forall key, n | EncoderThere(bus, key) && EndsIn(key, n) && n < 0x1_0000_0000
      ensures c.encoders[key] == EncoderSlot(n, bus["/context/" + key + "/node"].i % 0x1_0000_0000,
                                             bus["/context/" + key + "/param"].s)
    {
      TrailingIntIs(key, n);
      assert key in c.encoders;
    }
    forall p ensures p in c.paths <==> p in bus && PlainPath(p) { PlainPathIff(p); }
    forall p | p in bus && PlainPath(p) ensures CarriesContext(bus[p], c.paths[p]) { PlainPathIff(p); }
  }

  /** After a pump whose time has come, every replayed client's last context frame shows the bus. */
  lemma ShowsTheContext(w: World, watched: Watched, order: seq<string>, env: seq<seq<ClientEvent>>, now: nat, i: nat)
    requires Sound(w) && IsOrder(order, w.bus) && |env| == |order| + 3 && TimeToFlush(w.mirror.lastFlush, now)
    requires var m := Pumped(w.mirror, watched, w.bus, order, env, now);
      i < |m.slots| && m.slots[i].Some? && !m.slots[i].value.needsStateReplay
    ensures var last := LastContext(Pumped(w.mirror, watched, w.bus, order, env, now).slots[i].value.sent);
      last.Some? && FrameShows(last.value, w.bus)
  {
    DueIff(w.mirror.lastFlush, now);
    DuePumpDelivers(w, watched, order, env, now, i);
    SnapshotShows(w.bus);
  }

  // ── Colours ────────────────────────────────────────────────────────────────

  /** A control's colour is that of the last update naming it; the others stay as they were. */
  lemma {:induction false} LastColourWins(shadow: seq<RgbColor>, updates: seq<LedUpdate>, id: nat)
    requires id < |shadow|
    ensures forall k | 0 <= k < |updates| && updates[k].id == id && (forall j | k < j < |updates| ::
      updates[j].id != id) ::
      ShadowAfter(shadow, updates)[id] == updates[k].color
    ensures (forall j | 0 <= j < |updates| :: updates[j].id != id) ==> ShadowAfter(shadow, updates)[id] == shadow[id]
    decreases |updates|
  {
    if updates == [] {
    } else {
      LastColourWins(shadow, updates[..|updates| - 1], id);
    }
  }

  predicate Names(msgs: seq<LedMsg>, id: nat) {
    exists j | 0 <= j < |msgs| :: msgs[j].id == id
  }

  lemma NamesMore(msgs: seq<LedMsg>, last: LedMsg, id: nat)
    ensures Names(msgs + [last], id) <==> Names(msgs, id) || last.id == id
  {
    var all := msgs + [last];
    if j :| 0 <= j < |msgs| && msgs[j].id == id { assert all[j].id == id; }
    if last.id == id { assert all[|msgs|].id == id; }
  }

  lemma {:induction false} SurfaceIds(shadow: seq<RgbColor>, k: nat, id: nat)
    requires k <= |shadow|
    ensures Names(Surface(shadow, k), id) <==> id < k && !(80 <= id <= 89)
  {
    if k == 0 {
    } else {
      var before, last := Surface(shadow, k - 1), LedMsg(k - 1, shadow[k - 1]);
      assert Names(before, id) <==> id < k - 1 && !(80 <= id <= 89) by { SurfaceIds(shadow, k - 1, id); }
      if InGap(k - 1) {
        assert Surface(shadow, k) == before;
      } else {
        assert Surface(shadow, k) == before + [last];
        assert Names(before + [last], id) <==> Names(before, id) || k - 1 == id by { NamesMore(before, last, id); }
      }
    }
  }

  /**
    * In every run a client whose surface has been replayed shows the kept colour on every control below 98
    * outside 80 to 89.
    */
  lemma ShowsTheColours(bus: Bus, watched: Watched, events: seq<Event>, i: nat, id: nat)
    requires IsRun(bus, watched, events)
    requires var w := After(bus, watched, events);
      i < |w.mirror.slots| && w.mirror.slots[i].Some? && !w.mirror.slots[i].value.needsReplay
    requires id < 98 && !(80 <= id <= 89)
    ensures var w := After(bus, watched, events);
      && |w.leds| == 98
      && var view := LedView(w.mirror.slots[i].value.sent); id in view && view[id] == w.leds[id]
  {
    RunSound(bus, watched, events);
    var w := After(bus, watched, events);
    assert LedAgrees(LedView(w.mirror.slots[i].value.sent), w.leds, SHADOW_SLOTS);
  }

  // ── When nothing is sent ───────────────────────────────────────────────────

  predicate Nobody(env: seq<seq<ClientEvent>>) {
    forall n | 0 <= n < |env| :: env[n] == []
  }

  /** The mirror has seen the whole bus already. */
  ghost predicate Seen(m: Mirror, bus: Bus) {
    && MirrorOf(bus).Keys <= m.shadow.Keys && (forall p | p in MirrorOf(bus) :: m.shadow[p] == MirrorOf(bus)[p])
    && m.contextShadow == ContextOf(bus)
  }

  lemma {:induction false} SeenScan(m: Mirror, watched: Watched, bus: Bus, order: seq<string>,
      env: seq<seq<ClientEvent>>, k: nat)
    requires Seen(m, bus) && Nobody(env) && k <= |order| < |env|
    requires forall i | 0 <= i < |order| :: order[i] in bus
    ensures ScannedTo(m, watched, bus, order, env, k) == m
  {
    if k == 0 {
    } else {
      SeenScan(m, watched, bus, order, env, k - 1);
      var p := order[k - 1];
      if IsContext(p) {
        assert p in ContextOf(bus) && ContextOf(bus)[p] == bus[p];
      } else if IsNumber(p, bus[p]) {
        assert p in MirrorOf(bus) && m.shadow[p] == MirrorOf(bus)[p];
      }
      assert InterferedBy(m.slots, env[k]) == m.slots;
    }
  }

  /** A pump that finds nothing new and nobody waiting sends nothing to anyone. */
  lemma NothingNewNothingSent(m: Mirror, watched: Watched, bus: Bus, order: seq<string>,
      env: seq<seq<ClientEvent>>, now: nat)
    requires IsOrder(order, bus) && |env| == |order| + 3 && Nobody(env) && Seen(m, bus)
    requires |m.pending| == 0 && !m.contextDirty && !StateReplayPending(m.slots)
    ensures Pumped(m, watched, bus, order, env, now).slots == m.slots
  {
    SeenScan(m, watched, bus, order, env, |order|);
    assert Interrupted(m, []) == m;
  }

  /** Once a pump whose time had come has read a bus, another pump over the same bus sends nothing. */
  lemma SecondPumpIsSilent(w: World, watched: Watched, order: seq<string>, env: seq<seq<ClientEvent>>, now: nat,
      again: seq<string>, calm: seq<seq<ClientEvent>>, later: nat)
    requires Sound(w) && IsOrder(order, w.bus) && |env| == |order| + 3 && TimeToFlush(w.mirror.lastFlush, now)
    requires IsOrder(again, w.bus) && |calm| == |again| + 3 && Nobody(calm)
    requires !StateReplayPending(Pumped(w.mirror, watched, w.bus, order, env, now).slots)
    ensures var m := Pumped(w.mirror, watched, w.bus, order, env, now);
      Pumped(m, watched, w.bus, again, calm, later).slots == m.slots
  {
    var m := Pumped(w.mirror, watched, w.bus, order, env, now);
    DueIff(w.mirror.lastFlush, now);
    PumpAgrees(w.mirror, watched, w.bus, order, env, now);
    PumpReads(w.mirror, w.bus, watched, order, env, now);
    PumpFollows(w, watched, order, env, now);
    assert Seen(m, w.bus);
    NothingNewNothingSent(m, watched, w.bus, again, calm, later);
  }

  lemma {:induction false} SmallerSet(a: set<string>, b: set<string>)
    requires a <= b
    ensures |a| <= |b|
    decreases |a|
  {
    if a == {} {
    } else {
      var x :| x in a;
      SmallerSet(a - {x}, b - {x});
    }
  }

  lemma FewerKeys(part: map<string, real>, whole: set<string>)
    requires part.Keys <= whole
    ensures |part| <= |whole|
  {
    assert |part| == |part.Keys|;
    SmallerSet(part.Keys, whole);
  }

  lemma NumberHeldBack(s: Mirror, watched: Watched, p: string, v: real, most: set<string>)
    requires p in most && s.pending.Keys <= most && |most| < 256
    ensures var seen := Interrupted(NumberSeen(s, watched, p, v), []);
      && seen.slots == s.slots && seen.lastFlush == s.lastFlush
      && seen.pending.Keys <= most && |seen.pending| < 256
  {
    var pending := s.pending[p := v];
    assert pending.Keys == s.pending.Keys + {p};
    FewerKeys(pending, most);
  }

  lemma OneHeldBack(s: Mirror, watched: Watched, bus: Bus, p: string, most: set<string>)
    requires p in bus && MirrorOf(bus).Keys <= most && s.pending.Keys <= most && |most| < 256
    ensures var r := Scanned(s, watched, p, bus[p], []);
      r.slots == s.slots && r.lastFlush == s.lastFlush && r.pending.Keys <= most
  {
    assert InterferedBy(s.slots, []) == s.slots;
    if IsContext(p) {
      assert ContextSeen(s, p, bus[p]).slots == s.slots;
    } else if Changes(s, p, bus[p]) {
      assert p in most by { assert p in MirrorOf(bus); }
      var seen := Interrupted(NumberSeen(s, watched, p, Coerce(bus[p])), []);
      assert seen.slots == s.slots && seen.lastFlush == s.lastFlush && seen.pending.Keys <= most && |seen.pending| < 256 by {
        NumberHeldBack(s, watched, p, Coerce(bus[p]), most);
      }
      assert Scanned(s, watched, p, bus[p], []) == seen;
    }
  }

  lemma {:induction false} ScanHoldsBack(m: Mirror, watched: Watched, bus: Bus, order: seq<string>,
      env: seq<seq<ClientEvent>>, k: nat, most: set<string>)
    requires Nobody(env) && k <= |order| < |env|
    requires forall i | 0 <= i < |order| :: order[i] in bus
    requires MirrorOf(bus).Keys <= most && m.pending.Keys <= most && |most| < 256
    ensures var s := ScannedTo(m, watched, bus, order, env, k);
      s.slots == m.slots && s.lastFlush == m.lastFlush && s.pending.Keys <= most
  {
    if k == 0 {
    } else {
      ScanHoldsBack(m, watched, bus, order, env, k - 1, most);
      OneHeldBack(ScannedTo(m, watched, bus, order, env, k - 1), watched, bus, order[k - 1], most);
    }
  }

  /**
    * Within thirty-three milliseconds of the last flush, changes to fewer than 256 paths are held back from
    * everyone.
    */
  lemma WindowHoldsBack(m: Mirror, watched: Watched, bus: Bus, order: seq<string>, env: seq<seq<ClientEvent>>,
      now: nat)
    requires IsOrder(order, bus) && |env| == |order| + 3 && Nobody(env)
    requires m.lastFlush.Some? && now < m.lastFlush.value + 33 && !StateReplayPending(m.slots)
    requires |m.pending.Keys + MirrorOf(bus).Keys| < 256
    ensures Pumped(m, watched, bus, order, env, now).slots == m.slots
  {
    assert Interrupted(m, []) == m;
    ScanHoldsBack(m, watched, bus, order, env, |order|, m.pending.Keys + MirrorOf(bus).Keys);
  }

  /** In every run, no batch sent to everyone holds more than 256 values. */
  lemma BatchesStaySmall(bus: Bus, watched: Watched, events: seq<Event>, i: nat, k: nat)
    requires IsRun(bus, watched, events)
    requires var w := After(bus, watched, events);
      i < |w.mirror.slots| && w.mirror.slots[i].Some? && k < |w.mirror.slots[i].value.sent|
    ensures var s := After(bus, watched, events).mirror.slots[i].value.sent[k];
      s.frame.State? && !s.replay ==> |s.frame.updates| <= 256
    ensures |After(bus, watched, events).mirror.slots| == 4
  {
    RunSound(bus, watched, events);
    assert SmallBatches(After(bus, watched, events).mirror.slots[i].value);
  }

  // ── The selected machines ──────────────────────────────────────────────────

  /** A non-negative number as 32 bits: rounded down, the largest if it is too large. */
  lemma ToU32Is(v: real)
    requires v >= 0.0
    ensures v < 4294967296.0 ==> ToU32(v) as real <= v < ToU32(v) as real + 1.0
    ensures v >= 4294967296.0 ==> ToU32(v) == 4294967295
  {
  }

  /** Before anything happens there is no client, and every control is dark. */
  lemma StartsEmpty(bus: Bus)
    ensures Started(bus).mirror.slots == [None, None, None, None]
    ensures |Started(bus).leds| == 98 && forall id | 0 <= id < 98 :: Started(bus).leds[id] == RgbColor(0, 0, 0)
  {
  }

  lemma {:induction false} KnownIds(updates: seq<LedUpdate>, id: nat)
    ensures Names(Known(updates), id) <==> id < 98 && Names(updates, id)
    decreases |updates|
  {
    if updates == [] {
    } else {
      var front, last := updates[..|updates| - 1], updates[|updates| - 1];
      assert updates == front + [last];
      assert Names(Known(front), id) <==> id < 98 && Names(front, id) by { KnownIds(front, id); }
      NamesMore(front, last, id);
      NamesMore(Known(front), last, id);
      if last.id >= 98 { assert Known(updates) == Known(front); }
    }
  }

  /** What a replay puts on a waiting client's channel: the whole shadow if there is any, then the context. */
  lemma ReplayPutsStateFirst(m: Mirror, context: ContextSnapshot, i: nat)
    requires i < |m.slots| && m.slots[i].Some? && m.slots[i].value.needsStateReplay
    ensures var was, now := m.slots[i].value, Replayed(m, context).slots[i].value;
      && now.needsReplay == was.needsReplay && !now.needsStateReplay
      && now.sent == was.sent + (if m.shadow == map[] then [] else [Sent(State(m.shadow), true)])
                   + [Sent(Context(context), true)]
  {
    var c := m.slots[i].value;
    assert StateReplayPending(m.slots);
    ReplayUnfolds(c, m.shadow, context);
    if m.shadow != map[] {
      var p :| p in m.shadow;
      assert |m.shadow| != 0;
    }
  }
}
