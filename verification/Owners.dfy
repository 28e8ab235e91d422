/** What the owners of expiring slips get: every rebroadcast carries on the slips it is made of, and its history. */
module Owners {
  import opened Types
  import opened Modular
  import opened Lottery
  import opened Rebroadcast
  import opened Expiry
  import opened Payouts
  import opened Consensus
  import opened Capping
  import opened Extension
  import opened Validation
  import opened Supply

  // ---------- one rebroadcast ----------

  /** The transaction that was paid for once: the one inside a rebroadcast, or the transaction itself. */
  function Original(tx: Transaction): Transaction {
    if tx.kind.ATR? && tx.data.Wrapped? then tx.data.original else tx
  }

  predicate Keeps(r: Slip, s: Slip, amount: Currency, kind: SlipType) {
    r.publicKey == s.publicKey && r.amount == amount && r.kind == kind
  }

  /** A slip that is worth more than the fee goes back to its owner, multiplied and less the fee. */
  predicate CarriesSlip(r: Transaction, s: Slip, fee: Currency, multiplier: nat) {
    && s.amount * multiplier > fee
    && r.inputs == [s.(amount := s.amount * multiplier)]
    && |r.outputs| == 1 && Keeps(r.outputs[0], s, s.amount * multiplier - fee, SlipType.ATR)
  }

  /** An NFT group goes back to its owners, its payload multiplied and undiminished. */
  predicate CarriesGroup(r: Transaction, a: Slip, s: Slip, c: Slip, fee: Currency, multiplier: nat) {
    && a.kind.Bound? && !s.kind.Bound? && c.kind.Bound?
    && s.amount * multiplier > fee
    && r.inputs == [a, s.(amount := s.amount * multiplier), c]
    && |r.outputs| == 3 && Keeps(r.outputs[0], a, a.amount, SlipType.Bound)
    && Keeps(r.outputs[1], s, s.amount * multiplier, SlipType.ATR) && Keeps(r.outputs[2], c, c.amount, SlipType.Bound)
  }

  /** The rebroadcast is made of outputs of the transaction, and holds the transaction's original. */
  ghost predicate CarriesOn(r: Transaction, tx: Transaction, fee: Currency, multiplier: nat) {
    && r.kind.ATR? && r.signature == tx.signature
    && ((tx.kind.ATR? ==> tx.data.Wrapped?) ==> r.data.Wrapped? && Original(r) == Original(tx))
    && ((exists s :: s in tx.outputs && CarriesSlip(r, s, fee, multiplier))
        || exists a, s, c :: a in tx.outputs && s in tx.outputs && c in tx.outputs
             && CarriesGroup(r, a, s, c, fee, multiplier))
  }

  ghost predicate CarriesSome(r: Transaction, txs: seq<Transaction>, rate: Currency, multiplier: nat) {
    exists tx :: tx in txs && CarriesOn(r, tx, SerializedSize(tx) * rate, multiplier)
  }

  // ---------- the whole scan ----------

  lemma {:induction false} ProcessCarries(
    acc: Scan, txs: seq<Transaction>, tx: Transaction, outputs: seq<Slip>, j: nat, rate: Currency, multiplier: nat)
    requires multiplier >= 1 && j <= |outputs| && tx in txs && forall s | s in outputs :: s in tx.outputs
    requires forall r | r in acc.rebroadcasts :: CarriesSome(r, txs, rate, multiplier)
    ensures var t := Terms(SerializedSize(tx) * rate, multiplier);
      forall r | r in Process(acc, tx, outputs, j, t).rebroadcasts :: CarriesSome(r, txs, rate, multiplier)
    decreases |outputs| - j
  {
    var t := Terms(SerializedSize(tx) * rate, multiplier);
    if j == |outputs| {
    } else if GroupAt(outputs, j) {
      var (a, s, c) := (outputs[j], outputs[j + 1], outputs[j + 2]);
      var next := GroupStep(acc, tx, a, s, c, t);
      var r := next.rebroadcasts;
      if s.amount * multiplier > t.fee {
        assert CarriesGroup(r[|r| - 1], a, s, c, t.fee, multiplier);
        assert CarriesOn(r[|r| - 1], tx, t.fee, multiplier);
      }
      ProcessCarries(next, txs, tx, outputs, j + 3, rate, multiplier);
    } else {
      var s := outputs[j];
      var next := SingleStep(acc, tx, s, t);
      var r := next.rebroadcasts;
      if s.amount * multiplier > t.fee {
        assert CarriesSlip(r[|r| - 1], s, t.fee, multiplier);
        assert CarriesOn(r[|r| - 1], tx, t.fee, multiplier);
      }
      ProcessCarries(next, txs, tx, outputs, j + 1, rate, multiplier);
    }
  }

  /** Every rebroadcast of a scan carries on slips of one transaction of the expiring block. */
  lemma {:induction false} ScanCarries(acc: Scan, txs: seq<Transaction>, k: nat, p: Pricing)
    requires p.multiplier >= 1 && k <= |txs|
    requires forall r | r in acc.rebroadcasts :: CarriesSome(r, txs, p.feePerByte, p.multiplier)
    ensures forall r | r in ScanFrom(acc, txs, k, p).rebroadcasts :: CarriesSome(r, txs, p.feePerByte, p.multiplier)
    decreases |txs| - k
  {
    if k < |txs| {
      var outputs := Eligible(txs[k].outputs, p.utxo, 0);
      EligibleMembers(txs[k].outputs, p.utxo, 0);
      ProcessCarries(acc, txs, txs[k], outputs, 0, p.feePerByte, p.multiplier);
      ScanCarries(Process(acc, txs[k], outputs, 0, TermsFor(p, txs[k])), txs, k + 1, p);
    }
  }

  // ---------- nobody is left out ----------

  lemma {:induction false} ProcessOnlyAdds(acc: Scan, tx: Transaction, outputs: seq<Slip>, j: nat, t: Terms)
    requires t.multiplier >= 1 && j <= |outputs|
    ensures acc.rebroadcasts <= Process(acc, tx, outputs, j, t).rebroadcasts
    decreases |outputs| - j
  {
    if j == |outputs| {
    } else if GroupAt(outputs, j) {
      ProcessOnlyAdds(GroupStep(acc, tx, outputs[j], outputs[j + 1], outputs[j + 2], t), tx, outputs, j + 3, t);
    } else {
      ProcessOnlyAdds(SingleStep(acc, tx, outputs[j], t), tx, outputs, j + 1, t);
    }
  }

  lemma {:induction false} ScanOnlyAdds(acc: Scan, txs: seq<Transaction>, k: nat, p: Pricing)
    requires p.multiplier >= 1 && k <= |txs|
    ensures acc.rebroadcasts <= ScanFrom(acc, txs, k, p).rebroadcasts
    decreases |txs| - k
  {
    if k < |txs| {
      var outputs := Eligible(txs[k].outputs, p.utxo, 0);
      ProcessOnlyAdds(acc, txs[k], outputs, 0, TermsFor(p, txs[k]));
      ScanOnlyAdds(Process(acc, txs[k], outputs, 0, TermsFor(p, txs[k])), txs, k + 1, p);
    }
  }

  lemma {:induction false} ProcessServes(acc: Scan, tx: Transaction, outputs: seq<Slip>, j: nat, t: Terms, s: Slip)
    requires t.multiplier >= 1 && j <= |outputs| && NoBoundSlips(outputs)
    requires s in outputs[j..] && s.amount * t.multiplier > t.fee
    ensures exists r :: r in Process(acc, tx, outputs, j, t).rebroadcasts && CarriesSlip(r, s, t.fee, t.multiplier)
    decreases |outputs| - j
  {
    assert outputs[j] in outputs && !GroupAt(outputs, j);
    var next := SingleStep(acc, tx, outputs[j], t);
    if outputs[j] == s {
      var r := next.rebroadcasts[|acc.rebroadcasts|];
      assert CarriesSlip(r, s, t.fee, t.multiplier);
      ProcessOnlyAdds(next, tx, outputs, j + 1, t);
      assert r in Process(next, tx, outputs, j + 1, t).rebroadcasts;
    } else {
      ProcessServes(next, tx, outputs, j + 1, t, s);
    }
  }

  lemma {:induction false} EligibleHolds(slips: seq<Slip>, utxo: set<Slip>, i: nat, s: Slip)
    requires i <= |slips| && NoBoundSlips(slips) && s in slips[i..] && Spendable(s, utxo)
    ensures s in Eligible(slips, utxo, i)
    decreases |slips| - i
  {
    assert slips[i] in slips && !GroupAt(slips, i);
    if slips[i] != s { EligibleHolds(slips, utxo, i + 1, s); }
  }

  /** Every unspent slip that is worth more than the fee is rebroadcast, NFT groups aside. */
  lemma {:induction false} OwnerIsServed(acc: Scan, txs: seq<Transaction>, k: nat, p: Pricing, i: nat, s: Slip)
    requires p.multiplier >= 1 && k <= i < |txs| && NoBoundSlips(txs[i].outputs)
    requires s in txs[i].outputs && Spendable(s, p.utxo)
    requires s.amount * p.multiplier > SerializedSize(txs[i]) * p.feePerByte
    ensures var rs := ScanFrom(acc, txs, k, p).rebroadcasts;
      exists r :: r in rs && CarriesSlip(r, s, SerializedSize(txs[i]) * p.feePerByte, p.multiplier)
    decreases |txs| - k
  {
    var outputs := Eligible(txs[k].outputs, p.utxo, 0);
    var t := TermsFor(p, txs[k]);
    var next := Process(acc, txs[k], outputs, 0, t);
    if k < i {
      OwnerIsServed(next, txs, k + 1, p, i, s);
    } else {
      assert txs[k].outputs[0..] == txs[k].outputs && outputs[0..] == outputs;
      EligibleHolds(txs[k].outputs, p.utxo, 0, s);
      EligibleMembers(txs[k].outputs, p.utxo, 0);
      ProcessServes(acc, txs[k], outputs, 0, t, s);
      ScanOnlyAdds(next, txs, k + 1, p);
    }
  }

  // ---------- the first original ----------

  /** Every rebroadcast holds a transaction that is no rebroadcast itself. */
  predicate HoldOriginals(txs: seq<Transaction>) {
    forall i :: 0 <= i < |txs| && txs[i].kind.ATR? ==> txs[i].data.Wrapped? && !txs[i].data.original.kind.ATR?
  }

  lemma {:induction false} ScannedHoldOriginals(txs: seq<Transaction>, p: Pricing)
    requires p.multiplier >= 1 && HoldOriginals(txs)
    ensures HoldOriginals(ScanFrom(EMPTY_SCAN, txs, 0, p).rebroadcasts)
  {
    ScanCarries(EMPTY_SCAN, txs, 0, p);
    var rs := ScanFrom(EMPTY_SCAN, txs, 0, p).rebroadcasts;
    forall i | 0 <= i < |rs| ensures rs[i].data.Wrapped? && !rs[i].data.original.kind.ATR? {
      assert CarriesSome(rs[i], txs, p.feePerByte, p.multiplier);
      var tx :| tx in txs && CarriesOn(rs[i], tx, SerializedSize(tx) * p.feePerByte, p.multiplier);
    }
  }

  lemma {:induction false} SignedHoldOriginals(a: seq<Transaction>, b: seq<Transaction>)
    requires SameSigned(a, b) && HoldOriginals(b)
    ensures HoldOriginals(a)
  {
    forall i | 0 <= i < |a| ensures a[i].kind == b[i].kind && a[i].data == b[i].data {
      SignedIff(a[i], b[i]);
    }
  }

  lemma {:induction false} HashedScan(rules: Rules, b: Block, ctx: Context)
    requires rules.Valid() && Readable(b, ctx)
    ensures ConsensusOf(rules, b, ctx).hashed == RawScan(rules, b, ctx).rebroadcasts
  {
  }

  lemma {:induction false} RawScanHoldsOriginals(rules: Rules, b: Block, ctx: Context)
    requires ctx.expiring.Some? ==> HoldOriginals(ctx.expiring.value.transactions)
    ensures HoldOriginals(RawScan(rules, b, ctx).rebroadcasts)
  {
    if Rebroadcasting(rules, b, ctx) {
      ScannedHoldOriginals(ctx.expiring.value.transactions, PricingFor(rules, ctx));
    }
  }

  /**
   * However often a transaction is rebroadcast, its first original stays inside: if the chain's rebroadcasts
   * hold transactions that are none themselves, so do those of the next accepted block. Hence winners can be
   * drawn from every accepted block.
   */
  lemma {:induction false} OriginalsAreKept(rules: Rules, st: State, b: Block)
    requires rules.Valid() && st.chain != [] && Accepted(rules, st, b)
    requires forall i :: 0 <= i < |st.chain| ==> HoldOriginals(st.chain[i].transactions)
    ensures HoldOriginals(b.transactions) && AtrWrapped(b.transactions)
  {
    var ctx := ContextAt(rules, st);
    var found := OfKind(b.transactions, TransactionType.ATR);
    HashedScan(rules, b, ctx);
    RawScanHoldsOriginals(rules, b, ctx);
    SignedHoldOriginals(found, RawScan(rules, b, ctx).rebroadcasts);
    forall i | 0 <= i < |b.transactions| && b.transactions[i].kind.ATR?
      ensures b.transactions[i].data.Wrapped? && !b.transactions[i].data.original.kind.ATR?
    {
      assert b.transactions[i] in found;
    }
  }

  // ---------- what the treasury pays ----------

  /** Of what is rebroadcast, the payout is `multiplier - 1` times as much. */
  ghost predicate PaysShare(s: Scan, multiplier: nat) {
    s.dust <= s.nolan && s.payout == (s.nolan - s.dust) * (multiplier - 1)
  }

  lemma {:induction false} StepPaysShare(nolan: nat, amount: nat, multiplier: nat)
    requires multiplier >= 1
    ensures (nolan + amount) * (multiplier - 1) == nolan * (multiplier - 1) + (amount * multiplier - amount)
  {
  }

  lemma {:induction false} ProcessPaysShare(acc: Scan, tx: Transaction, outputs: seq<Slip>, j: nat, t: Terms)
    requires t.multiplier >= 1 && j <= |outputs| && PaysShare(acc, t.multiplier)
    ensures PaysShare(Process(acc, tx, outputs, j, t), t.multiplier)
    decreases |outputs| - j
  {
    if j == |outputs| {
    } else if GroupAt(outputs, j) {
      StepPaysShare(acc.nolan - acc.dust, outputs[j + 1].amount, t.multiplier);
      ProcessPaysShare(GroupStep(acc, tx, outputs[j], outputs[j + 1], outputs[j + 2], t), tx, outputs, j + 3, t);
    } else {
      StepPaysShare(acc.nolan - acc.dust, outputs[j].amount, t.multiplier);
      ProcessPaysShare(SingleStep(acc, tx, outputs[j], t), tx, outputs, j + 1, t);
    }
  }

  lemma {:induction false} ScanPaysShare(acc: Scan, txs: seq<Transaction>, k: nat, p: Pricing)
    requires p.multiplier >= 1 && k <= |txs| && PaysShare(acc, p.multiplier)
    ensures PaysShare(ScanFrom(acc, txs, k, p), p.multiplier)
    decreases |txs| - k
  {
    if k < |txs| {
      var outputs := Eligible(txs[k].outputs, p.utxo, 0);
      ProcessPaysShare(acc, txs[k], outputs, 0, TermsFor(p, txs[k]));
      ScanPaysShare(Process(acc, txs[k], outputs, 0, TermsFor(p, txs[k])), txs, k + 1, p);
    }
  }

  /** The treasury holds the nolan that is estimated to loop around the chain this many times. */
  predicate TreasuryTimes(rules: Rules, ctx: Context, times: nat) {
    var staked := rules.genesisPeriod * PreviousFigures(ctx).avgNolanRebroadcast;
    if staked == 0 then times == 0 else times * staked <= PreviousTreasury(ctx) < (times + 1) * staked
  }

  lemma {:induction false} MultiplierIsTimes(rules: Rules, ctx: Context, times: nat)
    ensures TreasuryTimes(rules, ctx, times) <==> PayoutMultiplier(rules, ctx) == times + 1
  {
    var staked := rules.genesisPeriod * PreviousFigures(ctx).avgNolanRebroadcast;
    if staked > 0 { TimesIff(PreviousTreasury(ctx), staked, times); }
  }

  lemma {:induction false} TimesIff(a: nat, n: nat, p: nat)
    requires n > 0
    ensures p * n <= a < (p + 1) * n <==> a / n == p
  {
    QuotientRemains(a, n);
    QuotientIsUnique(a, n, p, a / n);
  }

  lemma {:induction false} QuotientIsUnique(a: nat, n: nat, p: nat, q: nat)
    requires n > 0 && q * n <= a < (q + 1) * n
    ensures p * n <= a < (p + 1) * n <==> p == q
  {
    if p > q { assert p * n >= (q + 1) * n; }
    if p < q { assert (p + 1) * n <= q * n; }
  }

  /** The uncapped payout is as many times what is rebroadcast. */
  lemma {:induction false} PayoutFollowsTreasury(rules: Rules, b: Block, ctx: Context, times: nat)
    requires TreasuryTimes(rules, ctx, times)
    ensures var raw := RawScan(rules, b, ctx);
      raw.dust <= raw.nolan && raw.payout == (raw.nolan - raw.dust) * times
  {
    MultiplierIsTimes(rules, ctx, times);
    if Rebroadcasting(rules, b, ctx) {
      ScanPaysShare(EMPTY_SCAN, ctx.expiring.value.transactions, 0, PricingFor(rules, ctx));
    }
  }

  /**
   * The cap does not cap. When the uncapped payout exceeds the treasury's share, the rescaled payout stays
   * within that share if and only if the share is less than the nolan taken in, and then it is nothing;
   * otherwise the rescaled payout is at least the uncapped one.
   */
  lemma {:induction false} CapHoldsIff(rules: Rules, b: Block, ctx: Context)
    requires CapTaken(rules, b, RawScan(rules, b, ctx))
    ensures forall r | r in RawScan(rules, b, ctx).rebroadcasts :: HasPayload(r)
    ensures var (raw, share) := (RawScan(rules, b, ctx), rules.treasuryShare(b.treasury));
      var paid := CappedScan(rules, b, raw).payout;
      && (paid <= share <==> share < raw.nolan)
      && (if share < raw.nolan then paid == 0 else paid >= raw.payout)
  {
    var (raw, share) := (RawScan(rules, b, ctx), rules.treasuryShare(b.treasury));
    RawScanHasPayloads(rules, b, ctx);
    CappedPayout(rules, b, raw);
    PayloadsCoverPayout(rules, b, ctx);
    TimesShare(share, raw.nolan, Payloads(raw), raw.payout);
  }

  lemma {:induction false} PayloadsCoverPayout(rules: Rules, b: Block, ctx: Context)
    ensures var raw := RawScan(rules, b, ctx);
      Payloads(raw) >= raw.payout && (raw.payout > 0 ==> raw.nolan > 0)
  {
    var raw := RawScan(rules, b, ctx);
    var times := PayoutMultiplier(rules, ctx) - 1;
    MultiplierIsTimes(rules, ctx, times);
    PayoutFollowsTreasury(rules, b, ctx, times);
    RawScanMultiplies(rules, b, ctx);
    assert raw.nolan - raw.dust == 0 ==> (raw.nolan - raw.dust) * times == 0;
  }

  lemma {:induction false} TimesShare(share: nat, nolan: nat, payloads: nat, payout: nat)
    requires nolan > 0 && payloads >= payout > share
    ensures share < nolan <==> share / nolan == 0
    ensures share >= nolan ==> (share / nolan) * payloads >= payout
    ensures payloads * 0 == 0
  {
    var q := share / nolan;
    if share >= nolan {
      assert q >= 1;
      assert q * payloads == payloads + (q - 1) * payloads;
    }
  }

  // ---------- accepted blocks ----------

  ghost predicate Rebroadcasts(tx: Transaction, expired: Block, rate: Currency, multiplier: nat) {
    exists r :: SignAlike(tx, r) && CarriesSome(r, expired.transactions, rate, multiplier)
  }

  lemma {:induction false} SignedLikeSome(a: seq<Transaction>, b: seq<Transaction>, i: nat)
    requires SameSigned(a, b) && i < |a|
    ensures b[i] in b && SignAlike(a[i], b[i])
  {
    SignedIff(a[i], b[i]);
  }

  /** The scan that the block's rebroadcasts are compared with. */
  lemma {:induction false} ComparedScan(rules: Rules, st: State, b: Block)
    requires rules.Valid() && st.chain != [] && Accepted(rules, st, b)
    ensures var rs := RawScan(rules, b, ContextAt(rules, st)).rebroadcasts;
      SameSigned(OfKind(b.transactions, TransactionType.ATR), rs)
  {
    HashedScan(rules, b, ContextAt(rules, st));
  }

  /** Some block leaves the window, and this is, up to what is not signed, a rebroadcast of slips of it. */
  ghost predicate FromExpired(ctx: Context, tx: Transaction, multiplier: nat) {
    ctx.expiring.Some? && Rebroadcasts(tx, ctx.expiring.value, PreviousFigures(ctx).avgFeePerByte, multiplier)
  }

  /** Every rebroadcast of an accepted block carries on slips of the block that leaves the window. */
  lemma {:induction false} AcceptedRebroadcasts(rules: Rules, st: State, b: Block, tx: Transaction, times: nat)
    requires rules.Valid() && st.chain != [] && Accepted(rules, st, b) && tx in b.transactions && tx.kind.ATR?
    requires TreasuryTimes(rules, ContextAt(rules, st), times)
    ensures FromExpired(ContextAt(rules, st), tx, times + 1)
  {
    ComparedScan(rules, st, b);
    ScannedFrom(rules, b, ContextAt(rules, st), tx, times);
  }

  lemma {:induction false} ScannedFrom(rules: Rules, b: Block, ctx: Context, tx: Transaction, times: nat)
    requires tx in b.transactions && tx.kind.ATR? && TreasuryTimes(rules, ctx, times)
    requires var rs := RawScan(rules, b, ctx).rebroadcasts;
      SameSigned(OfKind(b.transactions, TransactionType.ATR), rs)
    ensures FromExpired(ctx, tx, times + 1)
  {
    var found := OfKind(b.transactions, TransactionType.ATR);
    var rs := RawScan(rules, b, ctx).rebroadcasts;
    assert tx in found;
    var i :| 0 <= i < |found| && found[i] == tx;
    SignedLikeSome(found, rs, i);
    MultiplierIsTimes(rules, ctx, times);
    ScanCarries(EMPTY_SCAN, ctx.expiring.value.transactions, 0, PricingFor(rules, ctx));
  }

  /** An unspent slip of this transaction that is worth more than its fee. */
  ghost predicate Worthwhile(tx: Transaction, s: Slip, utxo: set<Slip>, rate: Currency, multiplier: nat) {
    && NoBoundSlips(tx.outputs) && s in tx.outputs && Spendable(s, utxo)
    && s.amount * multiplier > SerializedSize(tx) * rate
  }

  lemma {:induction false} RawScanServes(rules: Rules, b: Block, ctx: Context, times: nat, tx: Transaction, s: Slip)
    requires Rebroadcasting(rules, b, ctx) && TreasuryTimes(rules, ctx, times)
    requires tx in ctx.expiring.value.transactions
    requires Worthwhile(tx, s, ctx.utxo, PreviousFigures(ctx).avgFeePerByte, times + 1)
    ensures var rs := RawScan(rules, b, ctx).rebroadcasts;
      exists r :: r in rs && CarriesSlip(r, s, SerializedSize(tx) * PreviousFigures(ctx).avgFeePerByte, times + 1)
  {
    var txs := ctx.expiring.value.transactions;
    var i :| 0 <= i < |txs| && txs[i] == tx;
    MultiplierIsTimes(rules, ctx, times);
    OwnerIsServed(EMPTY_SCAN, txs, 0, PricingFor(rules, ctx), i, s);
  }

  lemma {:induction false} FoundLike(txs: seq<Transaction>, hashed: seq<Transaction>, r: Transaction)
    returns (tx: Transaction)
    requires SameSigned(OfKind(txs, TransactionType.ATR), hashed) && r in hashed
    ensures tx in txs && tx.kind.ATR? && SignAlike(tx, r)
  {
    var found := OfKind(txs, TransactionType.ATR);
    var k :| 0 <= k < |hashed| && hashed[k] == r;
    tx := found[k];
    assert tx in found;
    SignedIff(tx, r);
  }

  /** An expiring transaction holds an unspent slip that is worth more than its fee. */
  ghost predicate Owed(ctx: Context, origin: Transaction, s: Slip, multiplier: nat) {
    && ctx.expiring.Some? && origin in ctx.expiring.value.transactions
    && Worthwhile(origin, s, ctx.utxo, PreviousFigures(ctx).avgFeePerByte, multiplier)
  }

  /** A transaction of the block is, up to what is not signed, a rebroadcast of this slip. */
  ghost predicate Serves(b: Block, s: Slip, fee: Currency, multiplier: nat) {
    exists tx, r ::
      tx in b.transactions && tx.kind.ATR? && SignAlike(tx, r) && CarriesSlip(r, s, fee, multiplier)
  }

  /** And every unspent slip of that block that is worth more than its fee is carried on, NFT groups aside. */
  lemma {:induction false} AcceptedBlockServes(
    rules: Rules, st: State, b: Block, times: nat, origin: Transaction, s: Slip, fee: Currency)
    requires rules.Valid() && st.chain != [] && Accepted(rules, st, b)
    requires TreasuryTimes(rules, ContextAt(rules, st), times) && Owed(ContextAt(rules, st), origin, s, times + 1)
    requires fee == SerializedSize(origin) * st.Tip().figures.avgFeePerByte
    ensures Serves(b, s, fee, times + 1)
  {
    ComparedScan(rules, st, b);
    AcceptedExpires(rules, st, b);
    ServedBy(rules, b, ContextAt(rules, st), times, origin, s, fee);
  }

  lemma {:induction false} AcceptedExpires(rules: Rules, st: State, b: Block)
    requires rules.Valid() && st.chain != [] && Accepted(rules, st, b) && ContextAt(rules, st).expiring.Some?
    ensures Rebroadcasting(rules, b, ContextAt(rules, st))
  {
  }

  lemma {:induction false} ServedBy(
    rules: Rules, b: Block, ctx: Context, times: nat, origin: Transaction, s: Slip, fee: Currency)
    requires Rebroadcasting(rules, b, ctx) && TreasuryTimes(rules, ctx, times) && Owed(ctx, origin, s, times + 1)
    requires fee == SerializedSize(origin) * PreviousFigures(ctx).avgFeePerByte
    requires var rs := RawScan(rules, b, ctx).rebroadcasts;
      SameSigned(OfKind(b.transactions, TransactionType.ATR), rs)
    ensures Serves(b, s, fee, times + 1)
  {
    RawScanServes(rules, b, ctx, times, origin, s);
    var rs := RawScan(rules, b, ctx).rebroadcasts;
    var r :| r in rs && CarriesSlip(r, s, fee, times + 1);
    var tx := FoundLike(b.transactions, rs, r);
  }
}
