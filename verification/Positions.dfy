/** Wrapped positions in a ring. */
module Positions {
  lemma NextMultiple(a: nat, b: nat, m: nat)
    requires a < b
    ensures a * m + m <= b * m
  {
    assert b * m == a * m + m + (b - a - 1) * m;
  }

  lemma SameQuotient(a: nat, r: nat, b: nat, s: nat, m: nat)
    requires r < m && s < m && a * m + r == b * m + s
    ensures a == b && r == s
  {
    if a < b {
      NextMultiple(a, b, m);
    } else if b < a {
      NextMultiple(b, a, m);
    }
  }

  lemma ModOf(q: nat, r: nat, cap: nat)
    requires r < cap
    ensures (q * cap + r) % cap == r && (q * cap + r) / cap == q
  {
    var x := q * cap + r;
    assert x == (x / cap) * cap + x % cap;
    SameQuotient(x / cap, x % cap, q, r, cap);
  }

  /** Inside a window no longer than the ring, advancing wraps at most once. */
  lemma Advance(start: nat, k: nat, cap: nat)
    requires cap > 0 && k <= cap
    ensures (start + k) % cap == if start % cap + k < cap then start % cap + k else start % cap + k - cap
  {
    var q, r := start / cap, start % cap;
    assert start == q * cap + r;
    if r + k < cap {
      ModOf(q, r + k, cap);
    } else if r + k < 2 * cap {
      assert start + k == (q + 1) * cap + (r + k - cap);
      ModOf(q + 1, r + k - cap, cap);
    }
  }

  lemma Wrapped(x: nat, len: nat)
    requires 0 < len && x < 2 * len
    ensures x % len == if x < len then x else x - len
  {
    if x < len { ModOf(0, x, len); } else { ModOf(1, x - len, len); }
  }

  /** Moving a wrapped position and moving the total it stands for come to the same. */
  lemma MovedPosition(total: nat, pos: nat, k: nat, cap: nat)
    requires cap > 0 && k <= cap && pos == total % cap
    ensures (pos + k) % cap == (total + k) % cap
  {
    Advance(total, k, cap);
    if pos + k < 2 * cap { Wrapped(pos + k, cap); }
  }
}
