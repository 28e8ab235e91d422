/** What the 5% cap on rebroadcast payouts does to the balance of a scan, and which fees count as carried. */
module Capping {
  import opened Sums
  import opened Types
  import opened Rebroadcast
  import opened Payouts
  import opened Consensus

  // ---------- payload amounts ----------

  /** The multiplied amount that a rebroadcast spends. */
  function PayloadIn(r: Transaction): Currency {
    if HasPayload(r) then r.inputs[PayloadIndex(r)].amount else 0
  }

  /** All value that goes out sits in the payload slip. */
  ghost predicate OnlyPayload(r: Transaction) {
    && HasPayload(r)
    && !r.outputs[PayloadIndex(r)].kind.Bound?
    && forall i :: 0 <= i < |r.outputs| && i != PayloadIndex(r) ==> r.outputs[i].kind.Bound?
  }

  /** What was spent is what was taken in and rebroadcast, plus the payout. */
  ghost predicate Multiplied(s: Scan) {
    && Along(s.rebroadcasts, PayloadIn) + s.dust == s.nolan + s.payout
    && forall r | r in s.rebroadcasts :: HasPayload(r) && OnlyPayload(r)
  }

  lemma {:induction false} SingleStepMultiplies(acc: Scan, tx: Transaction, s: Slip, t: Terms)
    requires t.multiplier >= 1 && Multiplied(acc)
    ensures Multiplied(SingleStep(acc, tx, s, t))
  {
    var gross := s.amount * t.multiplier;
    if gross > t.fee {
      AlongAppend(acc.rebroadcasts, SingleRebroadcast(tx, s, gross, t.fee), PayloadIn);
    }
  }

  lemma {:induction false} GroupStepMultiplies(acc: Scan, tx: Transaction, a: Slip, s: Slip, c: Slip, t: Terms)
    requires t.multiplier >= 1 && Multiplied(acc) && a.kind.Bound? && !s.kind.Bound? && c.kind.Bound?
    ensures Multiplied(GroupStep(acc, tx, a, s, c, t))
  {
    var gross := s.amount * t.multiplier;
    if gross > t.fee {
      var r := RebroadcastOf(tx, [a, s.(amount := gross), c], [a, s.(amount := gross, kind := SlipType.ATR), c]);
      assert PayloadIndex(r) == 1 && OnlyPayload(r);
      AlongAppend(acc.rebroadcasts, r, PayloadIn);
    }
  }

  lemma {:induction false} ProcessMultiplies(acc: Scan, tx: Transaction, outputs: seq<Slip>, j: nat, t: Terms)
    requires t.multiplier >= 1 && j <= |outputs| && Multiplied(acc)
    ensures Multiplied(Process(acc, tx, outputs, j, t))
    decreases |outputs| - j
  {
    if j == |outputs| {
    } else if GroupAt(outputs, j) {
      GroupStepMultiplies(acc, tx, outputs[j], outputs[j + 1], outputs[j + 2], t);
      ProcessMultiplies(GroupStep(acc, tx, outputs[j], outputs[j + 1], outputs[j + 2], t), tx, outputs, j + 3, t);
    } else {
      SingleStepMultiplies(acc, tx, outputs[j], t);
      ProcessMultiplies(SingleStep(acc, tx, outputs[j], t), tx, outputs, j + 1, t);
    }
  }

  lemma {:induction false} ScanMultiplies(acc: Scan, txs: seq<Transaction>, k: nat, p: Pricing)
    requires p.multiplier >= 1 && k <= |txs| && Multiplied(acc)
    ensures Multiplied(ScanFrom(acc, txs, k, p))
    decreases |txs| - k
  {
    if k < |txs| {
      var outputs := Eligible(txs[k].outputs, p.utxo, 0);
      ProcessMultiplies(acc, txs[k], outputs, 0, TermsFor(p, txs[k]));
      ScanMultiplies(Process(acc, txs[k], outputs, 0, TermsFor(p, txs[k])), txs, k + 1, p);
    }
  }

  // ---------- rescaling ----------

  lemma {:induction false} BoundValuesNothing(slips: seq<Slip>)
    requires forall i :: 0 <= i < |slips| ==> slips[i].kind.Bound?
    ensures Values(slips) == 0
  {
    if slips != [] { BoundValuesNothing(slips[1..]); }
  }

  lemma {:induction false} RescaledValue(r: Transaction, multiplier: nat)
    requires OnlyPayload(r)
    ensures OutputValue(Rescaled(r, multiplier)) == PayloadIn(r) * multiplier
  {
    var k := PayloadIndex(r);
    var outputs := Rescaled(r, multiplier).outputs;
    assert outputs == outputs[..k] + [outputs[k]] + outputs[k + 1..];
    AlongConcat(outputs[..k] + [outputs[k]], outputs[k + 1..], Value);
    AlongConcat(outputs[..k], [outputs[k]], Value);
    AlongOne(outputs[k], Value);
    BoundValuesNothing(outputs[..k]);
    BoundValuesNothing(outputs[k + 1..]);
  }

  /** The rescaled outputs exceed their payout by exactly the amounts they spend. */
  lemma {:induction false} RescaledBalance(txs: seq<Transaction>, multiplier: nat)
    requires multiplier >= 1 && forall r | r in txs :: HasPayload(r) && OnlyPayload(r)
    ensures Along(RescaledAll(txs, multiplier), OutputValue) == RescaledPayout(txs, multiplier) + Along(txs, PayloadIn)
  {
    if txs != [] {
      var first := txs[0];
      assert first in txs;
      RescaledValue(first, multiplier);
      RescaledBalance(txs[1..], multiplier);
      var all := RescaledAll(txs, multiplier);
      assert all[1..] == RescaledAll(txs[1..], multiplier);
      assert PayloadIn(first) * multiplier == PayloadIn(first) * (multiplier - 1) + PayloadIn(first);
    }
  }

  /**
   * The cap rescales amounts that were multiplied already and waives the fees, so it creates the
   * uncapped payout less the dust: the capped scan balances exactly when those two are equal, whatever
   * the cap and whatever kinds of slips expire.
   */
  lemma {:induction false} CapBalance(rules: Rules, b: Block, ctx: Context)
    requires CapTaken(rules, b, RawScan(rules, b, ctx))
    ensures forall r | r in RawScan(rules, b, ctx).rebroadcasts :: HasPayload(r)
    ensures var raw := RawScan(rules, b, ctx);
      && Imbalance(CappedScan(rules, b, raw)) == raw.payout - raw.dust
      && (Imbalance(CappedScan(rules, b, raw)) == 0 <==> raw.payout == raw.dust)
  {
    var raw := RawScan(rules, b, ctx);
    RawScanHasPayloads(rules, b, ctx);
    RawScanMultiplies(rules, b, ctx);
    RescaledBalance(raw.rebroadcasts, CapMultiplier(rules, b, raw));
  }

  lemma {:induction false} RawScanMultiplies(rules: Rules, b: Block, ctx: Context)
    ensures Multiplied(RawScan(rules, b, ctx))
  {
    assert Multiplied(EMPTY_SCAN);
    if Rebroadcasting(rules, b, ctx) {
      ScanMultiplies(EMPTY_SCAN, ctx.expiring.value.transactions, 0, PricingFor(rules, ctx));
    }
  }

  // ---------- cumulative fees ----------

  /** Fees booked for expired NFT slips that no rebroadcast carries. */
  function BookedForBound(rules: Rules, b: Block, ctx: Context): Currency {
    if Rebroadcasting(rules, b, ctx)
    then ScanBoundFees(ctx.expiring.value.transactions, 0, PricingFor(rules, ctx), true) else 0
  }

  /**
   * The cumulative fees are those of the block's normal transactions and golden tickets and those that
   * its rebroadcasts carry; dust is not among them, with or without the cap.
   */
  lemma {:induction false} CumulativeFeesAreCarried(rules: Rules, b: Block, ctx: Context)
    requires rules.Valid() && Readable(b, ctx)
    ensures var cv := ConsensusOf(rules, b, ctx);
      cv.figures.totalFeesCumulative ==
      Along(b.transactions, NewFee) + Along(cv.hashed, FeeOf) + BookedForBound(rules, b, ctx)
  {
    if Rebroadcasting(rules, b, ctx) {
      ScanBalance(ctx.expiring.value.transactions, PricingFor(rules, ctx));
    }
  }
}
