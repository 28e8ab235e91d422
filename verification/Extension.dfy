/** Whether a chain can go on: when some header makes the next block acceptable. */
module Extension {
  import opened Sums
  import opened Types
  import opened Rebroadcast
  import opened Payouts
  import opened Consensus
  import opened Capping
  import opened Validation
  import opened Creation
  import opened Supply

  // ---------- what consensus values depend on ----------

  /** Alike in all that consensus values depend on, once there is a previous block. */
  ghost predicate SameCore(rules: Rules, a: Block, b: Block, ctx: Context) {
    && ctx.previous.Some? && a.id == b.id && a.timestamp == b.timestamp && a.transactions == b.transactions
    && (a.treasury == b.treasury || RawScan(rules, a, ctx).payout == 0)
  }

  lemma {:induction false} SameScan(rules: Rules, a: Block, b: Block, ctx: Context)
    requires SameCore(rules, a, b, ctx)
    ensures RawScan(rules, a, ctx) == RawScan(rules, b, ctx)
    ensures forall r | r in RawScan(rules, a, ctx).rebroadcasts :: HasPayload(r)
    ensures CappedScan(rules, a, RawScan(rules, a, ctx)) == CappedScan(rules, b, RawScan(rules, a, ctx))
  {
    RawScanHasPayloads(rules, a, ctx);
  }

  lemma {:induction false} SamePay(rules: Rules, a: Block, b: Block, ctx: Context, t: Tally)
    requires Readable(a, ctx) && Readable(b, ctx) && a.id == b.id && a.transactions == b.transactions
    ensures PayoutsOf(rules, a, ctx, t) == PayoutsOf(rules, b, ctx, t)
  {
  }

  lemma {:induction false} SameFigures(
    rules: Rules, a: Block, b: Block, ctx: Context, t: Tally, raw: Scan, scan: Scan, pay: Payouts)
    requires rules.Valid() && raw.dust <= raw.fees && ctx.previous.Some? && a.timestamp == b.timestamp
    ensures FiguresOf(rules, a, ctx, t, raw, scan, pay) == FiguresOf(rules, b, ctx, t, raw, scan, pay)
  {
  }

  lemma {:induction false} SameConsensus(rules: Rules, a: Block, b: Block, ctx: Context)
    requires rules.Valid() && Readable(a, ctx) && SameCore(rules, a, b, ctx)
    ensures Readable(b, ctx) && ConsensusOf(rules, a, ctx) == ConsensusOf(rules, b, ctx)
  {
    var (t, raw) := (TallyOf(a.transactions), RawScan(rules, a, ctx));
    SameScan(rules, a, b, ctx);
    RawScanDust(rules, a, ctx);
    SamePay(rules, a, b, ctx, t);
    SameFigures(rules, a, b, ctx, t, raw, CappedScan(rules, a, raw), PayoutsOf(rules, a, ctx, t));
  }

  // ---------- the payout as a function of the treasury ----------

  /** The multiplied amounts that a scan's rebroadcasts spend. */
  function Payloads(raw: Scan): Currency {
    Along(raw.rebroadcasts, PayloadIn)
  }

  /** What the treasury pays for the scanned rebroadcasts if the next block states treasury `t`. */
  function PayoutAt(rules: Rules, raw: Scan, t: Currency): Currency {
    if raw.payout <= rules.treasuryShare(t) then raw.payout
    else if raw.nolan > 0 then Payloads(raw) * (rules.treasuryShare(t) / raw.nolan)
    else 0
  }

  /** Rescaling pays the payloads once for every unit by which the multiplier exceeds one. */
  lemma {:induction false} RescaledIsLinear(txs: seq<Transaction>, multiplier: nat)
    requires multiplier >= 1 && forall tx | tx in txs :: HasPayload(tx)
    ensures RescaledPayout(txs, multiplier) == Along(txs, PayloadIn) * (multiplier - 1)
  {
    if txs != [] {
      assert txs[0] in txs;
      RescaledIsLinear(txs[1..], multiplier);
      Distribute(PayloadIn(txs[0]), Along(txs[1..], PayloadIn), multiplier - 1);
    }
  }

  lemma {:induction false} Distribute(a: nat, b: nat, m: nat)
    ensures (a + b) * m == a * m + b * m
  {
  }

  lemma {:induction false} CappedPayout(rules: Rules, b: Block, raw: Scan)
    requires forall tx | tx in raw.rebroadcasts :: HasPayload(tx)
    ensures CappedScan(rules, b, raw).payout == PayoutAt(rules, raw, b.treasury)
  {
    if CapTaken(rules, b, raw) {
      RescaledIsLinear(raw.rebroadcasts, CapMultiplier(rules, b, raw));
    }
  }

  // ---------- treasuries that fit ----------

  /** Treasury `t` is what is left of `total` once the payout at `t` is made. */
  predicate Fits(rules: Rules, raw: Scan, total: Currency, t: Currency) {
    t + PayoutAt(rules, raw, t) == total
  }

  /** Taking the payloads `m` times out of the total leaves a treasury whose cap allows just that. */
  predicate FitsCapped(rules: Rules, raw: Scan, total: Currency, m: nat) {
    m * Payloads(raw) <= total && raw.nolan > 0 &&
    var share := rules.treasuryShare(total - m * Payloads(raw));
    share < raw.payout && share / raw.nolan == m
  }

  /**
   * What a producer can check: nothing is owed, or the share of what is left covers all that is owed, or
   * some multiple of the payloads leaves a treasury whose cap allows just that multiple.
   */
  predicate Fundable(rules: Rules, raw: Scan, total: Currency) {
    || raw.payout == 0
    || (raw.payout <= total && raw.payout <= rules.treasuryShare(total - raw.payout))
    || exists m :: 0 <= m <= total && FitsCapped(rules, raw, total, m)
  }

  lemma {:induction false} PayloadsPositive(raw: Scan)
    requires PaidForNolan(raw) && raw.rebroadcasts != []
    ensures Payloads(raw) > 0
  {
    assert raw.rebroadcasts[0] in raw.rebroadcasts;
  }

  lemma {:induction false} AtMostProduct(m: nat, p: nat)
    requires p > 0
    ensures m <= m * p
  {
  }

  lemma {:induction false} CappedTreasury(rules: Rules, raw: Scan, total: Currency, t: Currency)
    requires Fits(rules, raw, total, t) && raw.nolan > 0 && Payloads(raw) > 0 && rules.treasuryShare(t) < raw.payout
    ensures var m := rules.treasuryShare(t) / raw.nolan; 0 <= m <= total && FitsCapped(rules, raw, total, m)
  {
    var m := rules.treasuryShare(t) / raw.nolan;
    AtMostProduct(m, Payloads(raw));
    assert m * Payloads(raw) == Payloads(raw) * m;
  }

  /** Some treasury fits exactly when the condition holds. */
  lemma {:induction false} FundableIff(rules: Rules, raw: Scan, total: Currency)
    requires PaidForNolan(raw) && (raw.payout > 0 ==> raw.rebroadcasts != [])
    ensures (exists t: nat :: Fits(rules, raw, total, t)) <==> Fundable(rules, raw, total)
  {
    if raw.payout == 0 {
      assert Fits(rules, raw, total, total);
    } else {
      PayloadsPositive(raw);
      if t: nat :| Fits(rules, raw, total, t) {
        if rules.treasuryShare(t) < raw.payout { CappedTreasury(rules, raw, total, t); }
      }
      if raw.payout <= total && raw.payout <= rules.treasuryShare(total - raw.payout) {
        assert Fits(rules, raw, total, total - raw.payout);
      }
      if m: nat :| m <= total && FitsCapped(rules, raw, total, m) {
        assert m * Payloads(raw) == Payloads(raw) * m;
        assert Fits(rules, raw, total, total - m * Payloads(raw));
      }
    }
  }

  // ---------- the next block ----------

  /** The part of a block that `validate` compares and a producer may choose. */
  datatype Heading = Heading(figures: Figures, treasury: Currency, graveyard: Currency, unpaid: Currency)

  function WithHeading(c: Block, h: Heading): Block {
    c.(figures := h.figures, treasury := h.treasury, graveyard := h.graveyard, previousUnpaid := h.unpaid)
  }

  /** What the treasury holds before it pays for rebroadcasts. */
  function TreasuryBefore(rules: Rules, b: Block, ctx: Context): Currency
    requires Readable(b, ctx)
  {
    PreviousTreasury(ctx) + PayoutsOf(rules, b, ctx, TallyOf(b.transactions)).treasury
  }

  lemma {:induction false} PayoutFigures(rules: Rules, b: Block, ctx: Context)
    requires rules.Valid() && Readable(b, ctx)
    ensures var f := ConsensusOf(rules, b, ctx).figures;
      && f.payoutAtr == PayoutAt(rules, RawScan(rules, b, ctx), b.treasury)
      && f.payoutTreasury == PayoutsOf(rules, b, ctx, TallyOf(b.transactions)).treasury
  {
    RawScanHasPayloads(rules, b, ctx);
    CappedPayout(rules, b, RawScan(rules, b, ctx));
  }

  /** Scan, payouts and contents are the same under every heading. */
  lemma {:induction false} HeadingIsFree(rules: Rules, c: Block, h: Heading, ctx: Context)
    requires rules.Valid() && Readable(c, ctx)
    ensures var b := WithHeading(c, h);
      && Readable(b, ctx) && RawScan(rules, b, ctx) == RawScan(rules, c, ctx)
      && TreasuryBefore(rules, b, ctx) == TreasuryBefore(rules, c, ctx)
      && (ContentsValidate(rules, b, ctx) <==> ContentsValidate(rules, c, ctx))
  {
    SamePay(rules, c, WithHeading(c, h), ctx, TallyOf(c.transactions));
  }

  /** A heading with that treasury validates exactly if the treasury fits. */
  lemma {:induction false} HeadingFits(rules: Rules, c: Block, h: Heading, ctx: Context)
    requires rules.Valid() && Readable(c, ctx) && ctx.previous.Some?
    requires Readable(WithHeading(c, h), ctx) && HeaderValidates(rules, WithHeading(c, h), ctx)
    ensures Fits(rules, RawScan(rules, c, ctx), TreasuryBefore(rules, c, ctx), h.treasury)
  {
    HeadingIsFree(rules, c, h, ctx);
    PayoutFigures(rules, WithHeading(c, h), ctx);
  }

  lemma {:induction false} FittingHeading(rules: Rules, c: Block, t: Currency, ctx: Context) returns (h: Heading)
    requires rules.Valid() && Readable(c, ctx) && ctx.previous.Some?
    requires Fits(rules, RawScan(rules, c, ctx), TreasuryBefore(rules, c, ctx), t)
    ensures Readable(WithHeading(c, h), ctx) && HeaderValidates(rules, WithHeading(c, h), ctx) && h.treasury == t
  {
    var p := ctx.previous.value;
    var bare := WithHeading(c, Heading(NO_FIGURES, t, 0, 0));
    HeadingIsFree(rules, c, Heading(NO_FIGURES, t, 0, 0), ctx);
    var cv := ConsensusOf(rules, bare, ctx);
    h := Heading(cv.figures, t, p.graveyard + cv.figures.payoutGraveyard,
      if cv.ticketIndex.Some? then 0 else p.figures.totalFees);
    SameConsensus(rules, bare, WithHeading(c, h), ctx);
    PayoutFigures(rules, bare, ctx);
  }

  /** Transactions that pass all checks in which the heading plays no part. */
  ghost predicate Admissible(rules: Rules, st: State, c: Block)
    requires rules.Valid() && st.chain != [] && Readable(c, ContextAt(rules, st))
  {
    && c.transactions != []
    && (forall tx | tx in c.transactions :: !tx.kind.Issuance?)
    && ContentsValidate(rules, c, ContextAt(rules, st))
    && NoDoubleSpend(rules, c.transactions, st.utxo)
  }

  /**
   * Some header makes a block with these transactions acceptable if and only if the transactions are
   * admissible and the treasury can fund the rebroadcasts of the block that expires.
   */
  lemma {:induction false} NextBlockIff(rules: Rules, st: State, c: Block)
    requires rules.Valid() && st.chain != [] && c.id == |st.chain| + 1 && Readable(c, ContextAt(rules, st))
    ensures var ctx := ContextAt(rules, st);
      (exists h :: Accepted(rules, st, WithHeading(c, h))) <==>
      Admissible(rules, st, c) && Fundable(rules, RawScan(rules, c, ctx), TreasuryBefore(rules, c, ctx))
  {
    var ctx := ContextAt(rules, st);
    var (raw, total) := (RawScan(rules, c, ctx), TreasuryBefore(rules, c, ctx));
    RawPayoutNeedsNolan(rules, c, ctx);
    FundableIff(rules, raw, total);
    if h :| Accepted(rules, st, WithHeading(c, h)) {
      HeadingIsFree(rules, c, h, ctx);
      HeadingFits(rules, c, h, ctx);
    }
    if Admissible(rules, st, c) && Fundable(rules, raw, total) {
      var t: nat :| Fits(rules, raw, total, t);
      var h := FittingHeading(rules, c, t, ctx);
      HeadingIsFree(rules, c, h, ctx);
      assert Accepted(rules, st, WithHeading(c, h));
    }
  }
}
