/** `generate_consensus_values`: the figures a block must carry, given the chain below it. */
module Consensus {
  import opened Sums
  import opened Types
  import opened Smoothing
  import opened Rebroadcast
  import opened Payouts

  // ---------- the sweep over the block's own transactions ----------

  /** Only normal transactions and golden tickets count toward the new fees. */
  function NewFee(tx: Transaction): Currency {
    if tx.kind.Normal? || tx.kind.GoldenTicket? then FeeOf(tx) else 0
  }

  function NewBytes(tx: Transaction): nat {
    if tx.kind.Normal? || tx.kind.GoldenTicket? then SerializedSize(tx) else 0
  }

  function NonFee(tx: Transaction): nat {
    if tx.kind.Fee? then 0 else 1
  }

  /** The index of the last transaction of a kind. */
  function LastOf(txs: seq<Transaction>, kind: TransactionType): (r: Option<nat>)
    ensures r.Some? ==> r.value < |txs| && txs[r.value].kind == kind
  {
    if txs == [] then None
    else if txs[|txs| - 1].kind == kind then Some(|txs| - 1)
    else LastOf(txs[..|txs| - 1], kind)
  }

  lemma {:induction false} LastOfExists(txs: seq<Transaction>, kind: TransactionType)
    ensures LastOf(txs, kind).Some? <==> exists i :: 0 <= i < |txs| && txs[i].kind == kind
  {
    if txs != [] && txs[|txs| - 1].kind != kind {
      LastOfExists(txs[..|txs| - 1], kind);
    }
  }

  /** There is none behind it. */
  lemma {:induction false} LastOfIsLast(txs: seq<Transaction>, kind: TransactionType, j: nat)
    requires LastOf(txs, kind).Some? && LastOf(txs, kind).value < j < |txs|
    ensures txs[j].kind != kind
  {
    if j < |txs| - 1 { LastOfIsLast(txs[..|txs| - 1], kind, j); }
  }

  /** Transactions of other kinds at the end of a block do not move the last index of a kind. */
  lemma {:induction false} LastOfAppend(txs: seq<Transaction>, more: seq<Transaction>, kind: TransactionType)
    requires forall tx | tx in more :: tx.kind != kind
    ensures LastOf(txs + more, kind) == LastOf(txs, kind)
  {
    if more == [] {
      assert txs + more == txs;
    } else {
      assert (txs + more)[..|txs + more| - 1] == txs + more[..|more| - 1];
      assert (txs + more)[|txs + more| - 1] == more[|more| - 1];
      LastOfAppend(txs, more[..|more| - 1], kind);
    }
  }

  datatype Tally = Tally(feesNew: Currency, bytesNew: nat, nonFee: nat, ticket: Option<nat>, fee: Option<nat>)

  function TallyOf(txs: seq<Transaction>): Tally {
    Tally(Along(txs, NewFee), Along(txs, NewBytes), Along(txs, NonFee),
      LastOf(txs, TransactionType.GoldenTicket), LastOf(txs, TransactionType.Fee))
  }

  method SweepTransactions(txs: seq<Transaction>) returns (t: Tally)
    ensures t == TallyOf(txs)
  {
    t := Tally(0, 0, 0, None, None);
    for i := 0 to |txs|
      invariant t == TallyOf(txs[..i])
    {
      var tx := txs[i];
      ghost var done := txs[..i];
      assert txs[..i + 1] == done + [tx] && txs[..i + 1][..i] == done;
      AlongAppend(done, tx, NewFee);
      AlongAppend(done, tx, NewBytes);
      AlongAppend(done, tx, NonFee);
      if tx.kind.Fee? {
        t := t.(fee := Some(i));
      } else {
        t := t.(nonFee := t.nonFee + 1);
      }
      if tx.kind.GoldenTicket? || tx.kind.Normal? {
        t := t.(bytesNew := t.bytesNew + SerializedSize(tx), feesNew := t.feesNew + FeeOf(tx));
      }
      if tx.kind.GoldenTicket? {
        t := t.(ticket := Some(i));
      }
    }
    assert txs[..|txs|] == txs;
  }

  // ---------- rebroadcasts ----------

  /** The previous block's figures, all zero when there is none. */
  const NO_FIGURES := Figures(0, 0, 0, 0, 0, 0, 0, 0, 0, 0, 0, 0, 0, 0, 0, 0, 0, 0, 0, 0, 0, 0)

  function PreviousFigures(ctx: Context): Figures {
    if ctx.previous.Some? then ctx.previous.value.figures else NO_FIGURES
  }

  function PreviousTreasury(ctx: Context): Currency {
    if ctx.previous.Some? then ctx.previous.value.treasury else 0
  }

  /** One plus the treasury divided by the nolan that is estimated to loop around the chain. */
  function PayoutMultiplier(rules: Rules, ctx: Context): (m: nat)
    ensures m >= 1
  {
    var staked := rules.genesisPeriod * PreviousFigures(ctx).avgNolanRebroadcast;
    1 + if staked > 0 then PreviousTreasury(ctx) / staked else 0
  }

  function PricingFor(rules: Rules, ctx: Context): Pricing {
    Pricing(PreviousFigures(ctx).avgFeePerByte, PayoutMultiplier(rules, ctx), ctx.utxo)
  }

  predicate Rebroadcasting(rules: Rules, b: Block, ctx: Context) {
    b.id > rules.genesisPeriod + 1 && ctx.expiring.Some?
  }

  function RawScan(rules: Rules, b: Block, ctx: Context): Scan {
    if Rebroadcasting(rules, b, ctx)
    then ScanFrom(EMPTY_SCAN, ctx.expiring.value.transactions, 0, PricingFor(rules, ctx))
    else EMPTY_SCAN
  }

  lemma {:induction false} RawScanHasPayloads(rules: Rules, b: Block, ctx: Context)
    ensures forall tx | tx in RawScan(rules, b, ctx).rebroadcasts :: HasPayload(tx)
  {
    if Rebroadcasting(rules, b, ctx) {
      ScanHasPayloads(EMPTY_SCAN, ctx.expiring.value.transactions, 0, PricingFor(rules, ctx));
    }
  }

  predicate CapTaken(rules: Rules, b: Block, raw: Scan) {
    raw.payout > rules.treasuryShare(b.treasury)
  }

  /** What the cap multiplies the (already multiplied) inputs by. */
  function CapMultiplier(rules: Rules, b: Block, raw: Scan): (m: nat)
    ensures m >= 1
  {
    1 + if raw.nolan > 0 then rules.treasuryShare(b.treasury) / raw.nolan else 0
  }

  /** The 5% cap: payouts too large for the treasury are rescaled and the fees are waived. */
  function CappedScan(rules: Rules, b: Block, raw: Scan): Scan
    requires forall tx | tx in raw.rebroadcasts :: HasPayload(tx)
  {
    if CapTaken(rules, b, raw) then
      var multiplier := CapMultiplier(rules, b, raw);
      raw.(payout := RescaledPayout(raw.rebroadcasts, multiplier),
           fees := 0,
           rebroadcasts := RescaledAll(raw.rebroadcasts, multiplier))
    else raw
  }

  // ---------- all values ----------

  datatype ConsensusValues = ConsensusValues(
    figures: Figures,
    hashed: seq<Transaction>,        // what rebroadcast_hash was folded over
    rebroadcastSlips: nat,
    rebroadcasts: seq<Transaction>,
    feeTransaction: Option<Transaction>,
    ticketIndex: Option<nat>,
    feeIndex: Option<nat>)

  /** Every golden ticket carries a ticket, and winners can be drawn. */
  predicate Readable(b: Block, ctx: Context) {
    && ctx.Drawable()
    && forall tx | tx in b.transactions :: tx.kind.GoldenTicket? ==> tx.data.Ticket?
  }

  function Average(rules: Rules, average: Currency, sample: Currency): Currency
    requires rules.Valid()
  {
    SmoothStaysBetween(average, sample, rules.genesisPeriod);
    Smooth(average, sample, rules.genesisPeriod)
  }

  function NextBurnfee(rules: Rules, b: Block, ctx: Context): Currency {
    if ctx.previous.None? then b.figures.burnfee else
      var p := ctx.previous.value;
      var fee := rules.nextBurnfee(p.figures.burnfee, b.timestamp, p.timestamp);
      if fee == 0 then 1 else fee
  }

  function NextDifficulty(b: Block, ctx: Context, hasTicket: bool): nat {
    if ctx.previous.None? then b.figures.difficulty else
      var p := ctx.previous.value;
      if HasGoldenTicket(p.transactions) then
        if hasTicket then p.figures.difficulty + 1 else p.figures.difficulty
      else if !hasTicket && p.figures.difficulty > 0 then p.figures.difficulty - 1
      else p.figures.difficulty
  }

  /** The data of the last golden ticket. */
  function TicketOf(txs: seq<Transaction>): (r: Option<Payload>)
    ensures r.Some? ==> exists tx :: tx in txs && tx.kind.GoldenTicket? && r == Some(tx.data)
  {
    var last := LastOf(txs, TransactionType.GoldenTicket);
    if last.Some? then
      assert txs[last.value] in txs;
      Some(txs[last.value].data)
    else None
  }

  function PayoutsOf(rules: Rules, b: Block, ctx: Context, t: Tally): Payouts
    requires Readable(b, ctx)
  {
    PayoutsFor(rules, ctx, TicketOf(b.transactions), b.id, t.nonFee + 1)
  }

  function FiguresOf(rules: Rules, b: Block, ctx: Context, t: Tally, raw: Scan, scan: Scan, pay: Payouts): Figures
    requires rules.Valid() && raw.dust <= raw.fees
  {
    var p := PreviousFigures(ctx);
    var total := t.feesNew + scan.fees;
    var perByte := if t.bytesNew > 0 then t.feesNew / t.bytesNew else 0;
    var routing := pay.router1 + pay.router2;
    Figures(
      total, t.feesNew, scan.fees, t.feesNew + raw.fees - raw.dust,
      Average(rules, p.avgTotalFees, total),
      Average(rules, p.avgTotalFeesNew, t.feesNew),
      Average(rules, p.avgTotalFeesAtr, scan.fees),
      routing, pay.miner, pay.treasury, pay.graveyard, scan.payout,
      Average(rules, p.avgPayoutRouting, routing),
      Average(rules, p.avgPayoutMining, pay.miner),
      Average(rules, 0, pay.treasury),
      Average(rules, 0, pay.graveyard),
      Average(rules, 0, scan.payout),
      Average(rules, p.avgFeePerByte, perByte),
      perByte,
      Average(rules, p.avgNolanRebroadcast, raw.nolan),
      NextBurnfee(rules, b, ctx),
      NextDifficulty(b, ctx, t.ticket.Some?))
  }

  function FeeTransaction(b: Block, pay: Payouts): Transaction {
    Transaction(TransactionType.Fee, b.timestamp, [], pay.winners, Bytes(0), [], 1, 0)
  }

  lemma {:induction false} RawScanDust(rules: Rules, b: Block, ctx: Context)
    ensures RawScan(rules, b, ctx).dust <= RawScan(rules, b, ctx).fees
  {
    if Rebroadcasting(rules, b, ctx) {
      ScanBalance(ctx.expiring.value.transactions, PricingFor(rules, ctx));
    }
  }

  /** The consensus values, as one function of the block and its context. */
  function ConsensusOf(rules: Rules, b: Block, ctx: Context): ConsensusValues
    requires rules.Valid() && Readable(b, ctx)
  {
    var t := TallyOf(b.transactions);
    var raw := RawScan(rules, b, ctx);
    RawScanHasPayloads(rules, b, ctx);
    RawScanDust(rules, b, ctx);
    var scan := CappedScan(rules, b, raw);
    var pay := PayoutsOf(rules, b, ctx, t);
    ConsensusValues(
      FiguresOf(rules, b, ctx, t, raw, scan, pay),
      raw.rebroadcasts, raw.slips, scan.rebroadcasts,
      if t.ticket.Some? then Some(FeeTransaction(b, pay)) else None,
      t.ticket, t.fee)
  }

  /** The figures are those of a scan, its capped form, and the payouts. */
  lemma {:induction false} FiguresOfConsensus(rules: Rules, b: Block, ctx: Context) returns (raw: Scan, scan: Scan)
    requires rules.Valid() && Readable(b, ctx)
    ensures raw == RawScan(rules, b, ctx) && raw.dust <= raw.fees
    ensures var t := TallyOf(b.transactions);
      ConsensusOf(rules, b, ctx).figures == FiguresOf(rules, b, ctx, t, raw, scan, PayoutsOf(rules, b, ctx, t))
  {
    raw := RawScan(rules, b, ctx);
    RawScanHasPayloads(rules, b, ctx);
    RawScanDust(rules, b, ctx);
    scan := CappedScan(rules, b, raw);
  }

  /** The scan of the expiring block, if one expires, and the cap on what it pays out. */
  method ScanAndCap(rules: Rules, b: Block, ctx: Context) returns (raw: Scan, scan: Scan)
    ensures raw == RawScan(rules, b, ctx) && forall tx | tx in raw.rebroadcasts :: HasPayload(tx)
    ensures scan == CappedScan(rules, b, raw)
  {
    raw := EMPTY_SCAN;
    if b.id > rules.genesisPeriod + 1 && ctx.expiring.Some? {
      raw := ScanExpiringBlock(ctx.expiring.value.transactions, PricingFor(rules, ctx));
    }
    RawScanHasPayloads(rules, b, ctx);
    scan := raw;
    if raw.payout > rules.treasuryShare(b.treasury) {
      var most := rules.treasuryShare(b.treasury);
      var multiplier := 1 + if raw.nolan > 0 then most / raw.nolan else 0;
      var adjusted, payout := RescaleRebroadcasts(raw.rebroadcasts, multiplier);
      scan := raw.(payout := payout, fees := 0, rebroadcasts := adjusted);
    }
  }

  /** The payouts under the last golden ticket, or without one. */
  method PayFees(rules: Rules, b: Block, ctx: Context, t: Tally) returns (pay: Payouts)
    requires Readable(b, ctx) && t == TallyOf(b.transactions)
    ensures pay == PayoutsOf(rules, b, ctx, t)
  {
    var ticket := None;
    if t.ticket.Some? {
      ticket := Some(b.transactions[t.ticket.value].data);
    }
    pay := SettleFees(rules, ctx, ticket, b.id, t.nonFee + 1);
  }

  /** The source's own form: a sweep, a scan, and branches over the payouts. */
  method GenerateConsensusValues(rules: Rules, b: Block, ctx: Context) returns (cv: ConsensusValues)
    requires rules.Valid() && Readable(b, ctx)
    ensures cv == ConsensusOf(rules, b, ctx)
  {
    var t := SweepTransactions(b.transactions);
    var raw, scan := ScanAndCap(rules, b, ctx);
    var pay := PayFees(rules, b, ctx, t);
    RawScanDust(rules, b, ctx);
    cv := ConsensusValues(
      FiguresOf(rules, b, ctx, t, raw, scan, pay),
      raw.rebroadcasts, raw.slips, scan.rebroadcasts,
      if t.ticket.Some? then Some(FeeTransaction(b, pay)) else None,
      t.ticket, t.fee);
  }
}
