/** The few facts about remainders that a ring index and the lottery rest on, and powers of two. */
module Modular {

  lemma {:induction false} MultipleBelow(n: nat, k: int)
    requires 0 < n && 0 - n < n * k < n
    ensures k == 0
  {
  }

  lemma {:induction false} RemainderIsUnique(a: int, n: nat, q: int, r: nat)
    requires n > 0 && r < n && a == n * q + r
    ensures a % n == r
  {
    var (p, s) := (a / n, a % n);
    assert a == n * p + s && 0 <= s < n;
    assert n * (p - q) == n * p - n * q;
    MultipleBelow(n, p - q);
  }

  lemma {:induction false} ShiftByMultiple(a: int, n: nat, k: int)
    requires n > 0
    ensures (a + n * k) % n == a % n
  {
    assert a == n * (a / n) + a % n;
    assert n * (a / n + k) == n * (a / n) + n * k;
    RemainderIsUnique(a + n * k, n, a / n + k, a % n);
  }

  lemma {:induction false} NextPeriod(n: nat, a: int)
    requires n > 0
    ensures (a + n) % n == a % n
  {
    ShiftByMultiple(a, n, 1);
  }

  lemma {:induction false} SameRemainder(n: nat, a: int, b: int)
    requires n > 0 && a % n == b % n
    ensures exists k :: b == a + n * k
  {
    assert a == n * (a / n) + a % n && b == n * (b / n) + b % n;
    assert b == a + n * (b / n - a / n);
  }

  /** Two ids less than a period apart share a slot only if they are equal. */
  lemma {:induction false} SameSlotSameId(n: nat, a: int, b: int)
    requires n > 0 && a % n == b % n && 0 - n < b - a < n
    ensures a == b
  {
    SameRemainder(n, a, b);
    var k :| b == a + n * k;
    MultipleBelow(n, k);
  }

  /** Every id shares its slot with an id of the period above the floor. */
  lemma {:induction false} Representative(n: nat, floor: nat, id: nat) returns (k: nat)
    requires n > 0
    ensures floor < k <= floor + n && k % n == id % n
  {
    var d := id - floor - 1;
    k := floor + 1 + d % n;
    assert d == n * (d / n) + d % n;
    assert id == k + n * (d / n);
    ShiftByMultiple(k, n, d / n);
  }

  /** The slot before an id's slot, wrapping around at zero, is the slot of the id before it. */
  lemma {:induction false} PreviousSlot(n: nat, id: nat)
    requires n > 1 && id > 0
    ensures (id - 1) % n == if id % n > 0 then id % n - 1 else n - 1
  {
    var (q, r) := (id / n, id % n);
    assert id == n * q + r;
    if r > 0 {
      RemainderIsUnique(id - 1, n, q, r - 1);
    } else {
      assert n * (q - 1) == n * q - n;
      RemainderIsUnique(id - 1, n, q - 1, n - 1);
    }
  }

  lemma {:induction false} QuotientRemains(a: nat, n: nat)
    requires n > 0
    ensures (a / n) * n <= a < (a / n + 1) * n
  {
    assert a == (a / n) * n + a % n;
  }

  function PowerOfTwo(k: nat): (p: nat)
    ensures p > 0
  {
    if k == 0 then 1 else 2 * PowerOfTwo(k - 1)
  }
}
