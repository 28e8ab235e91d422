/** The payment lottery over random numbers: among equally many numbers of every remainder, nobody is favoured. */
module Fairness {
  import opened Types
  import opened Modular
  import opened Lottery

  // ---------- counting over windows ----------

  /** How many of the `length` numbers from `base` on have the property. */
  ghost function Count(f: nat -> bool, base: nat, length: nat): nat {
    if length == 0 then 0 else Count(f, base, length - 1) + if f(base + length - 1) then 1 else 0
  }

  ghost predicate Periodic(f: nat -> bool, period: nat) {
    forall r: nat :: f(r + period) == f(r)
  }

  lemma {:induction false} CountSplit(f: nat -> bool, base: nat, a: nat, b: nat)
    ensures Count(f, base, a + b) == Count(f, base, a) + Count(f, base + a, b)
    decreases b
  {
    if b > 0 {
      CountSplit(f, base, a, b - 1);
      assert base + (a + b) - 1 == base + a + b - 1;
    }
  }

  /** Over one period it does not matter where the window starts. */
  lemma {:induction false} CountAnywhere(f: nat -> bool, base: nat, period: nat)
    requires Periodic(f, period)
    ensures Count(f, base, period) == Count(f, 0, period)
    decreases base
  {
    if base > 0 {
      CountAnywhere(f, base - 1, period);
      CountSplit(f, base - 1, 1, period);
      CountSplit(f, base - 1, period, 1);
      assert Count(f, base - 1, 1) == Count(f, base - 1 + period, 1) by {
        assert Count(f, base - 1, 0) == 0 && Count(f, base - 1 + period, 0) == 0;
        assert f(base - 1 + period) == f(base - 1);
      }
    }
  }

  /** Any `n` periods in a row count `n` times. */
  lemma {:induction false} CountPeriods(f: nat -> bool, base: nat, period: nat, n: nat)
    requires Periodic(f, period)
    ensures Count(f, base, n * period) == n * Count(f, 0, period)
    decreases n
  {
    if n > 0 {
      assert n * period == period + (n - 1) * period;
      CountSplit(f, base, period, (n - 1) * period);
      CountAnywhere(f, base, period);
      CountPeriods(f, base + period, period, n - 1);
      assert n * Count(f, 0, period) == Count(f, 0, period) + (n - 1) * Count(f, 0, period);
    }
  }

  /** The numbers of a window that have the property. */
  ghost function Hits(f: nat -> bool, base: nat, length: nat): set<nat> {
    set r: nat | base <= r < base + length && f(r)
  }

  lemma {:induction false} CountIsSize(f: nat -> bool, base: nat, length: nat)
    ensures |Hits(f, base, length)| == Count(f, base, length)
    decreases length
  {
    if length == 0 {
      assert Hits(f, base, 0) == {};
    } else {
      var last := base + length - 1;
      CountIsSize(f, base, length - 1);
      assert Hits(f, base, length) == Hits(f, base, length - 1) + if f(last) then {last} else {};
    }
  }

  lemma {:induction false} HitsInPeriods(f: nat -> bool, base: nat, period: nat, n: nat)
    requires Periodic(f, period)
    ensures |Hits(f, base, n * period)| == n * |Hits(f, 0, period)|
  {
    CountPeriods(f, base, period, n);
    CountIsSize(f, base, n * period);
    CountIsSize(f, 0, period);
  }

  // ---------- the transaction ----------

  /** The random number reduced by the total falls among the nolan of transaction `i`; zero counts as one. */
  predicate FallsOn(txs: seq<Transaction>, total: Currency, i: nat, random: nat)
    requires total > 0 && i < |txs|
  {
    var nolan := if random % total == 0 then 1 else random % total;
    FeesUpTo(txs, i) < nolan <= FeesUpTo(txs, i + 1)
  }

  ghost function Falls(txs: seq<Transaction>, total: Currency, i: nat): nat -> bool
    requires total > 0 && i < |txs|
  {
    (random: nat) => FallsOn(txs, total, i, random)
  }

  lemma {:induction false} FallsPeriodically(txs: seq<Transaction>, total: Currency, i: nat)
    requires total > 0 && i < |txs|
    ensures Periodic(Falls(txs, total, i), total)
  {
    forall r: nat ensures Falls(txs, total, i)(r + total) == Falls(txs, total, i)(r) {
      NextPeriod(total, r);
    }
  }

  lemma {:induction false} FallsOnDraws(txs: seq<Transaction>, total: Currency, i: nat)
    requires total > 0 && i < |txs|
    ensures Hits(Falls(txs, total, i), 0, total) == Draws(txs, total, i)
  {
    forall r: nat | r < total ensures FallsOn(txs, total, i, r) <==> r in Draws(txs, total, i) {
      SmallRemainder(r, total);
      var owner := Owner(txs, NolanOf(r), 0);
      if FallsOn(txs, total, i, r) { OwnerIsUnique(txs, i, owner, NolanOf(r)); }
    }
  }

  lemma {:induction false} SmallRemainder(r: nat, n: nat)
    requires r < n
    ensures r % n == r
  {
    RemainderIsUnique(r, n, 0, r);
  }

  /** What the search pays out when it stops at this transaction. */
  function PaidFor(rules: Rules, tx: Transaction, random: Hash): PublicKey
    requires tx.kind.ATR? ==> tx.data.Wrapped?
  {
    if tx.kind.ATR? then RoutingWinner(tx.data.original, 0, rules.rehash(random))
    else RoutingWinner(tx, FeeOf(tx), rules.rehash(random))
  }

  /** The search stops at the transaction on which the random number falls. */
  lemma {:induction false} SearchStopsThere(rules: Rules, b: Block, random: Hash, i: nat)
    requires AtrWrapped(b.transactions) && b.figures.totalFees > 0 && i < |b.transactions|
    requires FallsOn(b.transactions, b.figures.totalFees, i, random)
    ensures WinningRouter(rules, b, random) == PaidFor(rules, b.transactions[i], random)
  {
    var (txs, nolan) := (b.transactions, NolanOf(Draw(random, b.figures.totalFees)));
    OwnerIsUnique(txs, i, Owner(txs, nolan, 0), nolan);
  }

  /**
   * The whole search is fair over random numbers: of any `n * totalFees` numbers in a row, transaction `i`
   * gets exactly `n` times its share of the draws, which is its fee up to one, and is paid for each of them.
   */
  lemma {:induction false} SearchIsFair(rules: Rules, b: Block, i: nat, base: nat, n: nat)
    requires AtrWrapped(b.transactions) && i < |b.transactions|
    requires b.figures.totalFees == FeesUpTo(b.transactions, |b.transactions|) > 0
    ensures var (txs, total) := (b.transactions, b.figures.totalFees);
      var hits := Hits(Falls(txs, total, i), base, n * total);
      && |hits| == n * |Draws(txs, total, i)|
      && n * (FeeOf(txs[i]) - 1) <= |hits| <= n * (FeeOf(txs[i]) + 1)
      && forall random | random in hits :: WinningRouter(rules, b, random) == PaidFor(rules, txs[i], random)
  {
    var (txs, total) := (b.transactions, b.figures.totalFees);
    FallsPeriodically(txs, total, i);
    FallsOnDraws(txs, total, i);
    HitsInPeriods(Falls(txs, total, i), base, total, n);
    LotteryIsFair(txs, total, i);
    Scaled(n, FeeOf(txs[i]) - 1, |Draws(txs, total, i)|, FeeOf(txs[i]) + 1);
    forall random | random in Hits(Falls(txs, total, i), base, n * total)
      ensures WinningRouter(rules, b, random) == PaidFor(rules, txs[i], random)
    {
      SearchStopsThere(rules, b, random, i);
    }
  }

  lemma {:induction false} Scaled(n: nat, a: int, b: int, c: int)
    requires a <= b <= c
    ensures n * a <= n * b <= n * c
  {
  }

  // ---------- the hop ----------

  lemma {:induction false} HalfOfQuotient(a: nat, p: nat)
    requires p > 0
    ensures a / p / 2 == a / (2 * p)
  {
    var (q, r) := (a / p, a % p);
    assert a == p * q + r;
    var (h, o) := (q / 2, q % 2);
    assert p * q == p * (2 * h + o) == 2 * p * h + p * o;
    QuotientIs(a, 2 * p, h, p * o + r);
  }

  lemma {:induction false} QuotientIs(a: nat, n: nat, q: nat, r: nat)
    requires n > 0 && r < n && a == n * q + r
    ensures a / n == q
  {
    RemainderIsUnique(a, n, q, r);
    var k := a / n - q;
    assert n * k == n * (a / n) - n * q == 0;
    MultipleBelow(n, k);
  }

  /** The `k`-th hop after the first works for the fee divided by two to the `k`. */
  lemma {:induction false} WorkHalves(fees: Currency, k: nat)
    ensures HopWork(fees, k) == fees / PowerOfTwo(k)
  {
    if k > 0 {
      WorkHalves(fees, k - 1);
      HalfOfQuotient(fees, PowerOfTwo(k - 1));
    }
  }

  /** Without a path the sender is paid, and without a fee nobody. */
  lemma {:induction false} UnroutedWinner(tx: Transaction, fees: Currency, random: Hash)
    ensures tx.path == [] && tx.inputs != [] ==> RoutingWinner(tx, fees, random) == tx.inputs[0].publicKey
    ensures tx.path == [] && tx.inputs == [] ==> RoutingWinner(tx, fees, random) == BURN_KEY
    ensures tx.path != [] && fees == 0 ==> RoutingWinner(tx, fees, random) == BURN_KEY
  {
  }

  /** The random number reduced by the aggregate work falls on hop `k`. */
  predicate FallsOnHop(fees: Currency, hops: nat, k: nat, random: nat)
    requires fees > 0 && k < hops && WorkThrough(fees, hops - 1) > 0
  {
    var draw := random % WorkThrough(fees, hops - 1);
    draw <= WorkThrough(fees, k) && (k > 0 ==> WorkThrough(fees, k - 1) < draw)
  }

  /** The receiver of the hop on which the random number falls wins. */
  lemma {:induction false} HopIsPaid(tx: Transaction, fees: Currency, random: Hash, k: nat)
    requires fees > 0 && k < |tx.path| && WorkThrough(fees, |tx.path| - 1) > 0
    requires FallsOnHop(fees, |tx.path|, k, random)
    ensures RoutingWinner(tx, fees, random) == tx.path[k].receiver
  {
    var hops := |tx.path|;
    var draw := Draw(random, WorkThrough(fees, hops - 1));
    HopIsUnique(fees, draw, k, HopFor(fees, draw, hops, 0));
  }

  ghost function HopFalls(fees: Currency, hops: nat, k: nat): nat -> bool
    requires fees > 0 && k < hops && WorkThrough(fees, hops - 1) > 0
  {
    (random: nat) => FallsOnHop(fees, hops, k, random)
  }

  /** The draws that hop `k` wins: its own work, and draw zero for the first. */
  function HopShare(fees: Currency, hops: nat, k: nat): int
    requires k < hops && WorkThrough(fees, hops - 1) > 0
  {
    var most := WorkThrough(fees, hops - 1) - 1;
    if k == 0 then Min(fees, most) + 1 else Min(WorkThrough(fees, k), most) - Min(WorkThrough(fees, k - 1), most)
  }

  lemma {:induction false} HopHits(fees: Currency, hops: nat, k: nat)
    requires fees > 0 && k < hops && WorkThrough(fees, hops - 1) > 0
    ensures |Hits(HopFalls(fees, hops, k), 0, WorkThrough(fees, hops - 1))| == HopShare(fees, hops, k)
  {
    var total := WorkThrough(fees, hops - 1);
    var high := Min(WorkThrough(fees, k), total - 1);
    var hits := Hits(HopFalls(fees, hops, k), 0, total);
    forall r: nat | r < total ensures r % total == r { SmallRemainder(r, total); }
    if k == 0 {
      assert hits == Interval(0, high) + {0};
      IntervalSize(0, high);
      assert Interval(0, high) !! {0};
    } else {
      WorkGrows(fees, k - 1, k);
      var low := Min(WorkThrough(fees, k - 1), total - 1);
      assert hits == Interval(low, high);
      IntervalSize(low, high);
    }
  }

  /**
   * Of any `n` times the aggregate work of random numbers in a row, each hop wins exactly `n` times its share,
   * and its receiver is who is paid.
   */
  lemma {:induction false} HopsAreFair(tx: Transaction, fees: Currency, k: nat, base: nat, n: nat)
    requires fees > 0 && k < |tx.path|
    ensures WorkThrough(fees, |tx.path| - 1) > 0
    ensures var (hops, total) := (|tx.path|, WorkThrough(fees, |tx.path| - 1));
      var hits := Hits(HopFalls(fees, hops, k), base, n * total);
      && |hits| == n * HopShare(fees, hops, k)
      && forall random | random in hits :: RoutingWinner(tx, fees, random) == tx.path[k].receiver
  {
    var hops := |tx.path|;
    WorkGrows(fees, 0, hops - 1);
    var total := WorkThrough(fees, hops - 1);
    forall r: nat ensures HopFalls(fees, hops, k)(r + total) == HopFalls(fees, hops, k)(r) {
      NextPeriod(total, r);
    }
    HitsInPeriods(HopFalls(fees, hops, k), base, total, n);
    HopHits(fees, hops, k);
    forall random | random in Hits(HopFalls(fees, hops, k), base, n * total)
      ensures RoutingWinner(tx, fees, random) == tx.path[k].receiver
    {
      HopIsPaid(tx, fees, random, k);
    }
  }
}
