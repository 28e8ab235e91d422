/**
 * The payment lottery: a random number picks a nolan out of a block's fees, the nolan picks a
 * transaction, and a second random number picks one hop of that transaction's routing path.
 */
module Lottery {
  import opened Sums
  import opened Types

  // ---------- picking the transaction ----------

  /** cumulative_fees of transaction `n - 1`: the fees of the first `n` transactions. */
  function FeesUpTo(txs: seq<Transaction>, n: nat): Currency
    requires n <= |txs|
  {
    Along(txs[..n], FeeOf)
  }

  lemma {:induction false} FeesStep(txs: seq<Transaction>, n: nat)
    requires n < |txs|
    ensures FeesUpTo(txs, n + 1) == FeesUpTo(txs, n) + FeeOf(txs[n])
  {
    assert txs[..n + 1] == txs[..n] + [txs[n]];
    AlongConcat(txs[..n], [txs[n]], FeeOf);
  }

  lemma {:induction false} FeesGrow(txs: seq<Transaction>, m: nat, n: nat)
    requires m <= n <= |txs|
    ensures FeesUpTo(txs, m) <= FeesUpTo(txs, n)
    decreases n
  {
    if m < n {
      FeesStep(txs, n - 1);
      FeesGrow(txs, m, n - 1);
    }
  }

  /** The 256-bit random number reduced to a draw below `total`. */
  function Draw(random: nat, total: nat): (r: nat)
    requires total > 0
    ensures r < total
  {
    random % total
  }

  /** The nolan that a draw picks: draws 0 and 1 both pick the first one. */
  function NolanOf(draw: nat): (nolan: Currency)
    ensures 0 < nolan && draw <= nolan
  {
    if draw > 1 then draw else 1
  }

  /** Transaction `i` owns the nolan, or `i` is past the end and nobody owns it. */
  ghost predicate Owns(txs: seq<Transaction>, i: nat, nolan: Currency) {
    i <= |txs| && FeesUpTo(txs, i) < nolan && (i < |txs| ==> nolan <= FeesUpTo(txs, i + 1))
  }

  lemma {:induction false} OwnerIsUnique(txs: seq<Transaction>, i: nat, j: nat, nolan: Currency)
    requires Owns(txs, i, nolan) && Owns(txs, j, nolan)
    ensures i == j
  {
    if i < j {
      FeesGrow(txs, i + 1, j);
    } else if j < i {
      FeesGrow(txs, j + 1, i);
    }
  }

  /** The index at which the search for a cumulative fee of at least `nolan` stops. */
  function Owner(txs: seq<Transaction>, nolan: Currency, start: nat): (i: nat)
    requires 0 < nolan && start <= |txs| && FeesUpTo(txs, start) < nolan
    ensures Owns(txs, i, nolan)
    decreases |txs| - start
  {
    if start == |txs| then start
    else if FeesUpTo(txs, start + 1) >= nolan then start
    else Owner(txs, nolan, start + 1)
  }

  /** The number of draws in `0..total` that end at index `i` (`|txs|` stands for the burn key). */
  ghost function Draws(txs: seq<Transaction>, total: Currency, i: nat): set<nat>
    requires total > 0
  {
    set r: nat | r < total && Owner(txs, NolanOf(r), 0) == i
  }

  ghost function Interval(low: nat, high: nat): set<nat> {
    set r: nat | r <= high && Above(low, r)
  }

  predicate Above(low: nat, r: nat) {
    low < r
  }

  lemma {:induction false} IntervalSize(low: nat, high: nat)
    requires low <= high
    ensures |Interval(low, high)| == high - low
    decreases high
  {
    if low < high {
      IntervalSize(low, high - 1);
      assert Interval(low, high) == Interval(low, high - 1) + {high};
    } else {
      assert Interval(low, high) == {};
    }
  }

  function Min(a: nat, b: nat): nat {
    if a < b then a else b
  }

  /** How many draws end at `i`: the nolans it owns below the total, and draw 0 for the first payer. */
  function Share(txs: seq<Transaction>, total: Currency, i: nat): int
    requires total > 0 && i <= |txs|
  {
    var end := if i < |txs| then FeesUpTo(txs, i + 1) else total;
    Min(end, total - 1) - Min(FeesUpTo(txs, i), total - 1)
    + if FeesUpTo(txs, i) == 0 < end then 1 else 0
  }

  /** The exact odds of every transaction, and of the burn key, for any recorded block total. */
  lemma {:induction false} LotteryShare(txs: seq<Transaction>, total: Currency, i: nat)
    requires total > 0 && i <= |txs|
    ensures |Draws(txs, total, i)| == Share(txs, total, i)
  {
    var begin := FeesUpTo(txs, i);
    var end := if i < |txs| then FeesUpTo(txs, i + 1) else total;
    if i < |txs| { FeesGrow(txs, i, i + 1); }
    var (low, high) := (Min(begin, total - 1), Min(end, total - 1));
    forall r: nat | r < total
      ensures r in Draws(txs, total, i) <==> begin < NolanOf(r) <= end
    {
      var owner := Owner(txs, NolanOf(r), 0);
      if begin < NolanOf(r) <= end {
        OwnerIsUnique(txs, i, owner, NolanOf(r));
      }
    }
    var zero: set<nat> := if begin == 0 < end then {0} else {};
    assert Draws(txs, total, i) == Interval(low, high) + zero;
    if begin <= end { IntervalSize(low, high); } else { assert Interval(low, high) == {}; }
    assert Interval(low, high) !! zero;
  }

  /**
   * Fairness: when the block total is the running sum of the transaction fees, every transaction is
   * picked as often as its fee says, up to one draw; one that pays nothing is never picked; and no
   * draw is burned.
   */
  lemma {:induction false} LotteryIsFair(txs: seq<Transaction>, total: Currency, i: nat)
    requires total > 0 && total == FeesUpTo(txs, |txs|) && i < |txs|
    ensures FeeOf(txs[i]) - 1 <= |Draws(txs, total, i)| <= FeeOf(txs[i]) + 1
    ensures FeeOf(txs[i]) == 0 ==> Draws(txs, total, i) == {}
    ensures Draws(txs, total, |txs|) == {}
  {
    LotteryShare(txs, total, i);
    LotteryShare(txs, total, |txs|);
    FeesStep(txs, i);
    FeesGrow(txs, i + 1, |txs|);
  }

  /**
   * Fees that no transaction of the block carries (dust collected from expired slips) are burned:
   * beyond the carried fees, the draws that end at the burn key number the missing nolans less one.
   */
  lemma {:induction false} UncarriedFeesAreBurned(txs: seq<Transaction>, total: Currency)
    requires total > FeesUpTo(txs, |txs|) > 0
    ensures |Draws(txs, total, |txs|)| == total - FeesUpTo(txs, |txs|) - 1
  {
    LotteryShare(txs, total, |txs|);
  }

  // ---------- picking the hop ----------

  /** Routing work of hop `k`: the whole fee for the first hop, half of the previous one after that. */
  function HopWork(fees: Currency, k: nat): Currency {
    if k == 0 then fees else HopWork(fees, k - 1) / 2
  }

  /** work_by_hop[k]: the work of the hops up to and including `k`. */
  function WorkThrough(fees: Currency, k: nat): Currency {
    if k == 0 then fees else WorkThrough(fees, k - 1) + HopWork(fees, k)
  }

  lemma {:induction false} WorkGrows(fees: Currency, j: nat, k: nat)
    requires j <= k
    ensures WorkThrough(fees, j) <= WorkThrough(fees, k)
    decreases k
  {
    if j < k { WorkGrows(fees, j, k - 1); }
  }

  /** However long the path, its aggregate work stays below twice the fee. */
  lemma {:induction false} AggregateBelowTwiceFee(fees: Currency, k: nat)
    ensures WorkThrough(fees, k) + HopWork(fees, k) <= 2 * fees
  {
    if k > 0 { AggregateBelowTwiceFee(fees, k - 1); }
  }

  /** The hop a draw lands on: the first whose cumulative work is not below the draw. */
  function HopFor(fees: Currency, draw: nat, hops: nat, start: nat): (k: nat)
    requires start < hops && draw <= WorkThrough(fees, hops - 1)
    requires start > 0 ==> WorkThrough(fees, start - 1) < draw
    ensures k < hops && draw <= WorkThrough(fees, k)
    ensures k > 0 ==> WorkThrough(fees, k - 1) < draw
    decreases hops - start
  {
    if draw <= WorkThrough(fees, start) then start else HopFor(fees, draw, hops, start + 1)
  }

  /** get_winning_routing_node; `fees` is zero for a transaction that was only deserialized. */
  function RoutingWinner(tx: Transaction, fees: Currency, random: Hash): PublicKey {
    if tx.path == [] then
      if tx.inputs == [] then BURN_KEY else tx.inputs[0].publicKey
    else if fees == 0 then BURN_KEY
    else
      var last := |tx.path| - 1;
      WorkGrows(fees, 0, last);
      tx.path[HopFor(fees, Draw(random, WorkThrough(fees, last)), |tx.path|, 0)].receiver
  }

  /** The work table that the search below walks through. */
  method WorkTable(fees: Currency, hops: nat) returns (workByHop: seq<Currency>)
    requires hops > 0
    ensures |workByHop| == hops
    ensures forall k: nat {:trigger workByHop[k]} :: k < hops ==> workByHop[k] == WorkThrough(fees, k)
  {
    var aggregate, work := fees, fees;
    workByHop := [fees];
    for i := 1 to hops
      invariant aggregate == WorkThrough(fees, i - 1) && work == HopWork(fees, i - 1)
      invariant |workByHop| == i
      invariant forall k: nat {:trigger workByHop[k]} :: k < i ==> workByHop[k] == WorkThrough(fees, k)
    {
      work := work / 2;
      aggregate := aggregate + work;
      assert aggregate == WorkThrough(fees, i);
      workByHop := workByHop + [aggregate];
    }
  }

  lemma {:induction false} HopIsUnique(fees: Currency, draw: nat, i: nat, j: nat)
    requires draw <= WorkThrough(fees, i) && (i > 0 ==> WorkThrough(fees, i - 1) < draw)
    requires draw <= WorkThrough(fees, j) && (j > 0 ==> WorkThrough(fees, j - 1) < draw)
    ensures i == j
  {
    if i < j { WorkGrows(fees, i, j - 1); } else if j < i { WorkGrows(fees, j, i - 1); }
  }

  /** The loop form: it fills the work table, then searches it, and never falls off the end. */
  method GetWinningRoutingNode(tx: Transaction, fees: Currency, random: Hash) returns (winner: PublicKey)
    ensures winner == RoutingWinner(tx, fees, random)
  {
    if tx.path == [] {
      return if tx.inputs == [] then BURN_KEY else tx.inputs[0].publicKey;
    }
    if fees == 0 {
      return BURN_KEY;
    }
    var hops := |tx.path|;
    var workByHop := WorkTable(fees, hops);
    WorkGrows(fees, 0, hops - 1);
    var draw := Draw(random, workByHop[hops - 1]);
    var i := 0;
    while workByHop[i] < draw
      invariant i < hops
      invariant i > 0 ==> WorkThrough(fees, i - 1) < draw
      decreases hops - i
    {
      i := i + 1;
    }
    HopIsUnique(fees, draw, i, HopFor(fees, draw, hops, 0));
    winner := tx.path[i].receiver;
  }

  /** The draws that the first of `hops` hops wins. */
  ghost function FirstHopDraws(fees: Currency, hops: nat): set<nat>
    requires hops > 0
  {
    set draw: nat | draw < WorkThrough(fees, hops - 1) && HopFor(fees, draw, hops, 0) == 0
  }

  /**
   * On every routed, fee-paying transaction the first hop wins more than half of the draws,
   * no matter how many hops follow it.
   */
  lemma {:induction false} FirstHopHasTheMajority(fees: Currency, hops: nat)
    requires fees > 0 && hops > 0
    ensures WorkThrough(fees, hops - 1) > 0
    ensures 2 * |FirstHopDraws(fees, hops)| > WorkThrough(fees, hops - 1)
  {
    var total := WorkThrough(fees, hops - 1);
    WorkGrows(fees, 0, hops - 1);
    AggregateBelowTwiceFee(fees, hops - 1);
    var top := Min(fees, total - 1);
    assert FirstHopDraws(fees, hops) == Interval(0, top) + {0};
    IntervalSize(0, top);
    assert Interval(0, top) !! {0};
  }

  // ---------- the whole search ----------

  /** Every rebroadcast wraps the transaction that it carries on. */
  predicate AtrWrapped(txs: seq<Transaction>) {
    forall i :: 0 <= i < |txs| && txs[i].kind.ATR? ==> txs[i].data.Wrapped?
  }

  /**
   * The winner of a block. A rebroadcast hands its prize to the transaction inside it, which has just
   * been deserialized and so reports no fees.
   */
  function WinningRouter(rules: Rules, b: Block, random: Hash): PublicKey
    requires AtrWrapped(b.transactions)
  {
    if b.figures.totalFees == 0 then BURN_KEY else
      var i := Owner(b.transactions, NolanOf(Draw(random, b.figures.totalFees)), 0);
      if i == |b.transactions| then BURN_KEY
      else if b.transactions[i].kind.ATR? then
        RoutingWinner(b.transactions[i].data.original, 0, rules.rehash(random))
      else
        RoutingWinner(b.transactions[i], FeeOf(b.transactions[i]), rules.rehash(random))
  }

  /** The search loop; its assertion that the winner has cumulative fees can never fail. */
  method FindWinningRouter(rules: Rules, b: Block, random: Hash) returns (winner: PublicKey)
    requires AtrWrapped(b.transactions)
    ensures winner == WinningRouter(rules, b, random)
  {
    if b.figures.totalFees == 0 {
      return BURN_KEY;
    }
    var nolan := NolanOf(Draw(random, b.figures.totalFees));
    var cumulative := 0;
    var found := false;
    var i := 0;
    while i < |b.transactions| && !found
      invariant i <= |b.transactions|
      invariant !found ==> cumulative == FeesUpTo(b.transactions, i) < nolan
      invariant found ==> i < |b.transactions| && Owns(b.transactions, i, nolan)
      invariant found ==> cumulative == FeesUpTo(b.transactions, i + 1)
      decreases |b.transactions| - i, !found
    {
      FeesStep(b.transactions, i);
      cumulative := cumulative + FeeOf(b.transactions[i]);
      if cumulative >= nolan {
        found := true;
      } else {
        i := i + 1;
      }
    }
    OwnerIsUnique(b.transactions, i, Owner(b.transactions, nolan, 0), nolan);
    if !found {
      return BURN_KEY;
    }
    var tx := b.transactions[i];
    if tx.kind.ATR? {
      winner := GetWinningRoutingNode(tx.data.original, 0, rules.rehash(random));
    } else {
      assert cumulative != 0;
      winner := GetWinningRoutingNode(tx, FeeOf(tx), rules.rehash(random));
    }
  }
}
