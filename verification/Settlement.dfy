/** Who gets which share of the fees that a golden ticket settles, and which output pays it. */
module Settlement {
  import opened Types
  import opened Lottery
  import opened Rebroadcast
  import opened Payouts
  import opened Consensus
  import opened Validation
  import opened Supply

  // ---------- shares ----------

  /** The two halves of an amount, of which the second takes the odd nolan. */
  predicate Halves(total: Currency, a: Currency, b: Currency) {
    a + b == total && a <= b <= a + 1
  }

  function Smaller(a: Currency, b: Currency): Currency {
    if a < b then a else b
  }

  /** Two shares, each of them its half of the total or the cap, whichever is smaller. */
  ghost predicate SplitUnder(total: Currency, a: Currency, b: Currency, cap: Currency) {
    exists x, y :: Halves(total, x, y) && a == Smaller(x, cap) && b == Smaller(y, cap)
  }

  lemma {:induction false} HalvesOf(total: Currency)
    ensures Halves(total, total / 2, total - total / 2)
  {
  }

  /** Where the cap does not bind, the shares are the halves. */
  lemma {:induction false} UncappedSplit(total: Currency, a: Currency, b: Currency, cap: Currency)
    requires SplitUnder(total, a, b, cap) && total <= cap
    ensures Halves(total, a, b)
  {
  }

  /** There is only one way to split. */
  lemma {:induction false} SplitIsUnique(
    total: Currency, a: Currency, b: Currency, c: Currency, d: Currency, cap: Currency)
    requires SplitUnder(total, a, b, cap) && SplitUnder(total, c, d, cap)
    ensures a == c && b == d
  {
  }

  // ---------- outputs ----------

  /** Someone to be paid, and by which kind of slip. */
  datatype Payee = Payee(key: PublicKey, amount: Currency, kind: SlipType)

  /** One slip for everyone who has a key and an amount, numbered in order. */
  function PaidOut(payees: seq<Payee>, index: nat, blockId: nat, ordinal: nat): seq<Slip> {
    if payees == [] then []
    else if payees[0].key != BURN_KEY && payees[0].amount > 0 then
      [Slip(payees[0].key, payees[0].amount, index, blockId, ordinal, payees[0].kind)]
      + PaidOut(payees[1..], index + 1, blockId, ordinal)
    else PaidOut(payees[1..], index, blockId, ordinal)
  }

  /** Whether the fees of the block before the previous one are settled as well. */
  predicate SettlesTwo(ctx: Context) {
    ctx.previous.Some? && !HasGoldenTicket(ctx.previous.value.transactions) && ctx.beforePrevious.Some?
  }

  /**
   * The winners: the solver of the ticket, the router drawn from the previous block with the ticket's random
   * number hashed once, and the one drawn from the block before it with that number hashed twice more.
   */
  function Payees(rules: Rules, ctx: Context, ticket: Payload, miner: Currency, router1: Currency, router2: Currency):
    seq<Payee>
    requires ctx.Drawable() && ticket.Ticket? && ctx.previous.Some?
  {
    var once := rules.rehash(ticket.random);
    var thrice := rules.rehash(rules.rehash(once));
    [Payee(ticket.solver, miner, SlipType.MinerOutput),
     Payee(WinningRouter(rules, ctx.previous.value, once), router1, SlipType.RouterOutput),
     Payee(if SettlesTwo(ctx) then WinningRouter(rules, ctx.beforePrevious.value, thrice) else BURN_KEY,
       router2, SlipType.RouterOutput)]
  }

  lemma {:induction false} ThreePayees(
    a: Payee, b: Payee, c: Payee, blockId: nat, ordinal: nat, s: Shares, solver: PublicKey)
    requires a == Payee(solver, s.miner, SlipType.MinerOutput) && b == Payee(s.key1, s.router1, SlipType.RouterOutput)
    requires c == Payee(s.key2, s.router2, SlipType.RouterOutput)
    ensures WinnerSlips(s, solver, blockId, ordinal) == PaidOut([a, b, c], 0, blockId, ordinal)
  {
    var n := if solver != BURN_KEY && s.miner > 0 then 1 else 0;
    var m := n + if s.key1 != BURN_KEY && s.router1 > 0 then 1 else 0;
    assert [a, b, c][1..] == [b, c] && [b, c][1..] == [c] && [c][1..] == [];
    assert PaidOut([c], m, blockId, ordinal) == RouterSlip(s.key2, s.router2, m, blockId, ordinal);
    assert PaidOut([b, c], n, blockId, ordinal) ==
      RouterSlip(s.key1, s.router1, n, blockId, ordinal) + RouterSlip(s.key2, s.router2, m, blockId, ordinal);
  }

  // ---------- the law of settlement ----------

  /** The payouts of a ticket: both pairs of shares, and who is paid by which output. */
  ghost predicate PaysAsPromised(rules: Rules, ctx: Context, ticket: Payload, pay: Payouts, blockId: nat, ordinal: nat)
    requires ctx.Drawable() && ticket.Ticket? && ctx.previous.Some?
  {
    var p := ctx.previous.value;
    var cap := rules.feeCap(p.figures.avgTotalFees);
    && SplitUnder(p.figures.totalFees, pay.miner, pay.router1, cap)
    && (if SettlesTwo(ctx)
        then SplitUnder(ctx.beforePrevious.value.figures.totalFees, pay.treasury, pay.router2, cap)
        else pay.treasury == 0 && pay.router2 == 0)
    && pay.winners == PaidOut(Payees(rules, ctx, ticket, pay.miner, pay.router1, pay.router2), 0, blockId, ordinal)
  }

  lemma {:induction false} SharesSplit(rules: Rules, ctx: Context, ticket: Payload)
    requires ctx.Drawable() && ticket.Ticket? && ctx.previous.Some?
    ensures var (s, p) := (SharesOf(rules, ctx, ticket), ctx.previous.value);
      var cap := rules.feeCap(p.figures.avgTotalFees);
      && SplitUnder(p.figures.totalFees, s.miner, s.router1, cap)
      && if SettlesTwo(ctx) then SplitUnder(ctx.beforePrevious.value.figures.totalFees, s.treasury, s.router2, cap)
         else s.treasury == 0 && s.router2 == 0
  {
    HalvesOf(ctx.previous.value.figures.totalFees);
    if SettlesTwo(ctx) { HalvesOf(ctx.beforePrevious.value.figures.totalFees); }
  }

  /**
   * The previous block's fees are split between miner and router and, if that block had no ticket, those of
   * the block before it between treasury and router; each half is cut to the cap, and each winner with a key
   * has an output of its own.
   */
  lemma {:induction false} TicketPaysAsPromised(rules: Rules, ctx: Context, ticket: Payload, blockId: nat, ordinal: nat)
    requires ctx.Drawable() && ticket.Ticket? && ctx.previous.Some?
    ensures PaysAsPromised(rules, ctx, ticket, TicketPayouts(rules, ctx, ticket, blockId, ordinal), blockId, ordinal)
  {
    var s := SharesOf(rules, ctx, ticket);
    SharesSplit(rules, ctx, ticket);
    var payees := Payees(rules, ctx, ticket, s.miner, s.router1, s.router2);
    assert payees == [payees[0], payees[1], payees[2]];
    ThreePayees(payees[0], payees[1], payees[2], blockId, ordinal, s, ticket.solver);
  }

  // ---------- accepted blocks ----------

  /** The last fee transaction of the block, if there is one, pays these payees. */
  ghost predicate LastFeePays(b: Block, payees: seq<Payee>) {
    var k := LastOf(b.transactions, TransactionType.Fee);
    k.Some? ==>
      var fee := b.transactions[k.value];
      && fee.inputs == [] && fee.timestamp == b.timestamp && SlipsAlike(fee.outputs, PaidOut(payees, 0, 0, 0))
  }

  lemma {:induction false} PaidOutAnywhere(payees: seq<Payee>, index: nat, blockId: nat, ordinal: nat)
    ensures SlipsAlike(PaidOut(payees, index, blockId, ordinal), PaidOut(payees, index, 0, 0))
    decreases payees
  {
    if payees != [] {
      PaidOutAnywhere(payees[1..], index, blockId, ordinal);
      PaidOutAnywhere(payees[1..], index + 1, blockId, ordinal);
    }
  }

  /** The figures of the block report the promised shares, and its fee transaction pays them. */
  ghost predicate BlockPays(
    rules: Rules, ctx: Context, b: Block, ticket: Payload, router1: Currency, router2: Currency)
    requires ctx.Drawable() && ticket.Ticket? && ctx.previous.Some?
  {
    var (f, p) := (b.figures, ctx.previous.value);
    var cap := rules.feeCap(p.figures.avgTotalFees);
    && f.payoutRouting == router1 + router2
    && SplitUnder(p.figures.totalFees, f.payoutMining, router1, cap)
    && (if SettlesTwo(ctx)
        then SplitUnder(ctx.beforePrevious.value.figures.totalFees, f.payoutTreasury, router2, cap)
        else f.payoutTreasury == 0 && router2 == 0)
    && LastFeePays(b, Payees(rules, ctx, ticket, f.payoutMining, router1, router2))
  }

  /** What the figures and the fee transaction have to do with the payouts. */
  ghost predicate ReportsShares(b: Block, pay: Payouts) {
    && b.figures.payoutMining == pay.miner && b.figures.payoutTreasury == pay.treasury
    && b.figures.payoutRouting == pay.router1 + pay.router2
    && var k := LastOf(b.transactions, TransactionType.Fee);
      k.Some? ==>
        var fee := b.transactions[k.value];
        fee.inputs == [] && fee.timestamp == b.timestamp && SlipsAlike(fee.outputs, pay.winners)
  }

  lemma {:induction false} ReportedBlockPays(
    rules: Rules, ctx: Context, b: Block, ticket: Payload, pay: Payouts, ordinal: nat)
    requires ctx.Drawable() && ticket.Ticket? && ctx.previous.Some?
    requires PaysAsPromised(rules, ctx, ticket, pay, b.id, ordinal) && ReportsShares(b, pay)
    ensures BlockPays(rules, ctx, b, ticket, pay.router1, pay.router2)
  {
    PaidOutAnywhere(Payees(rules, ctx, ticket, pay.miner, pay.router1, pay.router2), 0, b.id, ordinal);
  }

  lemma {:induction false} PayoutsUnderTicket(rules: Rules, b: Block, ctx: Context, ticket: Payload, ordinal: nat)
    requires Readable(b, ctx) && TicketOf(b.transactions) == Some(ticket) && ticket.Ticket?
    requires ordinal == TallyOf(b.transactions).nonFee + 1
    ensures PayoutsOf(rules, b, ctx, TallyOf(b.transactions)) == TicketPayouts(rules, ctx, ticket, b.id, ordinal)
  {
  }

  /** The ticket that counts is the last one in the block. */
  ghost predicate LastTicket(txs: seq<Transaction>, ticket: Payload) {
    exists i :: 0 <= i < |txs| && txs[i].kind.GoldenTicket? && txs[i].data == ticket
      && forall j :: i < j < |txs| ==> !txs[j].kind.GoldenTicket?
  }

  lemma {:induction false} TicketIsLast(txs: seq<Transaction>)
    requires HasGoldenTicket(txs)
    ensures TicketOf(txs).Some? && LastTicket(txs, TicketOf(txs).value)
  {
    LastOfExists(txs, TransactionType.GoldenTicket);
    var i := LastOf(txs, TransactionType.GoldenTicket).value;
    forall j | i < j < |txs| ensures !txs[j].kind.GoldenTicket? {
      LastOfIsLast(txs, TransactionType.GoldenTicket, j);
    }
  }

  /** An accepted block with a ticket reports and pays exactly the promised shares, to exactly these winners. */
  lemma {:induction false} AcceptedBlockPays(rules: Rules, st: State, b: Block)
    returns (ticket: Payload, router1: Currency, router2: Currency)
    requires rules.Valid() && st.chain != [] && Accepted(rules, st, b) && HasGoldenTicket(b.transactions)
    ensures LastTicket(b.transactions, ticket) && ticket.Ticket? && ContextAt(rules, st).Drawable()
    ensures BlockPays(rules, ContextAt(rules, st), b, ticket, router1, router2)
  {
    var ctx := ContextAt(rules, st);
    TicketIsLast(b.transactions);
    ticket := TicketOf(b.transactions).value;
    ValidatedBlockPays(rules, ctx, b, ticket);
    var pay := PayoutsOf(rules, b, ctx, TallyOf(b.transactions));
    router1, router2 := pay.router1, pay.router2;
  }

  lemma {:induction false} ValidatedBlockPays(rules: Rules, ctx: Context, b: Block, ticket: Payload)
    requires rules.Valid() && Readable(b, ctx) && ValuesValidate(rules, b, ctx) && ctx.previous.Some?
    requires TicketOf(b.transactions) == Some(ticket) && ticket.Ticket?
    ensures var pay := PayoutsOf(rules, b, ctx, TallyOf(b.transactions));
      BlockPays(rules, ctx, b, ticket, pay.router1, pay.router2)
  {
    var ordinal := TallyOf(b.transactions).nonFee + 1;
    PayoutsUnderTicket(rules, b, ctx, ticket, ordinal);
    ReportedPayouts(rules, b, ctx, PayoutsOf(rules, b, ctx, TallyOf(b.transactions)));
    TicketPaysAsPromised(rules, ctx, ticket, b.id, ordinal);
    ReportedBlockPays(rules, ctx, b, ticket, PayoutsOf(rules, b, ctx, TallyOf(b.transactions)), ordinal);
  }

  /** The payouts under the block's ticket are those that its figures report. */
  lemma {:induction false} ReportedFigures(
    rules: Rules, b: Block, ctx: Context, t: Tally, raw: Scan, scan: Scan, pay: Payouts)
    requires rules.Valid() && raw.dust <= raw.fees && b.figures == FiguresOf(rules, b, ctx, t, raw, scan, pay)
    ensures b.figures.payoutMining == pay.miner && b.figures.payoutTreasury == pay.treasury
    ensures b.figures.payoutRouting == pay.router1 + pay.router2
  {
  }

  lemma {:induction false} ExpectedFee(rules: Rules, b: Block, ctx: Context)
    requires rules.Valid() && Readable(b, ctx) && TicketOf(b.transactions).Some?
    ensures var cv := ConsensusOf(rules, b, ctx);
      && cv.feeTransaction == Some(FeeTransaction(b, PayoutsOf(rules, b, ctx, TallyOf(b.transactions))))
      && cv.feeIndex == LastOf(b.transactions, TransactionType.Fee)
  {
  }

  lemma {:induction false} ReportedPayouts(rules: Rules, b: Block, ctx: Context, pay: Payouts)
    requires rules.Valid() && Readable(b, ctx) && TicketOf(b.transactions).Some?
    requires pay == PayoutsOf(rules, b, ctx, TallyOf(b.transactions))
    requires HeaderValidates(rules, b, ctx) && ContentsValidate(rules, b, ctx)
    ensures ReportsShares(b, pay)
  {
    var raw, scan := FiguresOfConsensus(rules, b, ctx);
    ReportedFigures(rules, b, ctx, TallyOf(b.transactions), raw, scan, pay);
    ExpectedFee(rules, b, ctx);
    var k := LastOf(b.transactions, TransactionType.Fee);
    if k.Some? { SignedIff(b.transactions[k.value], FeeTransaction(b, pay)); }
  }

  // ---------- without a ticket ----------

  /** Nobody is paid; what has waited for two blocks falls into the graveyard. */
  ghost predicate PaysNobody(ctx: Context, b: Block)
    requires ctx.previous.Some?
  {
    var (f, p) := (b.figures, ctx.previous.value);
    && f.payoutMining == 0 && f.payoutRouting == 0 && f.payoutTreasury == 0
    && f.payoutGraveyard == if SettlesTwo(ctx) then p.previousUnpaid else 0
  }

  lemma {:induction false} PayoutsWithoutTicket(rules: Rules, b: Block, ctx: Context, t: Tally)
    requires Readable(b, ctx) && !HasGoldenTicket(b.transactions) && ctx.previous.Some?
    ensures PayoutsOf(rules, b, ctx, t) ==
      NO_PAYOUTS.(graveyard := if SettlesTwo(ctx) then ctx.previous.value.previousUnpaid else 0)
  {
    LastOfExists(b.transactions, TransactionType.GoldenTicket);
  }

  lemma {:induction false} FiguresWithoutTicket(
    rules: Rules, b: Block, ctx: Context, t: Tally, raw: Scan, scan: Scan, pay: Payouts)
    requires rules.Valid() && raw.dust <= raw.fees && b.figures == FiguresOf(rules, b, ctx, t, raw, scan, pay)
    requires ctx.previous.Some?
    requires pay == NO_PAYOUTS.(graveyard := if SettlesTwo(ctx) then ctx.previous.value.previousUnpaid else 0)
    ensures PaysNobody(ctx, b)
  {
  }

  /** An accepted block without a ticket pays nobody. */
  lemma {:induction false} AcceptedBlockPaysNobody(rules: Rules, st: State, b: Block)
    requires rules.Valid() && st.chain != [] && Accepted(rules, st, b) && !HasGoldenTicket(b.transactions)
    ensures PaysNobody(ContextAt(rules, st), b)
  {
    var (ctx, t) := (ContextAt(rules, st), TallyOf(b.transactions));
    var raw, scan := FiguresOfConsensus(rules, b, ctx);
    PayoutsWithoutTicket(rules, b, ctx, t);
    FiguresWithoutTicket(rules, b, ctx, t, raw, scan, PayoutsOf(rules, b, ctx, t));
  }
}
