/** Who is paid for a block's fees, and when: the golden-ticket settlement of `generate_consensus_values`. */
module Payouts {
  import opened Sums
  import opened Types
  import opened Lottery

  /** The part of the chain that the consensus values of a new block depend on. */
  datatype Context = Context(
    previous: Option<Block>,
    beforePrevious: Option<Block>,
    expiring: Option<Block>,
    utxo: set<Slip>)
  {
    /** Winners can be drawn from both blocks whose fees may be settled. */
    predicate Drawable() {
      && (previous.Some? ==> AtrWrapped(previous.value.transactions))
      && (beforePrevious.Some? ==> AtrWrapped(beforePrevious.value.transactions))
    }
  }

  datatype Payouts = Payouts(
    miner: Currency,
    router1: Currency,
    router2: Currency,
    treasury: Currency,
    graveyard: Currency,
    winners: seq<Slip>)

  const NO_PAYOUTS := Payouts(0, 0, 0, 0, 0, [])

  function Capped(amount: Currency, cap: Currency): Currency {
    if amount > cap then cap else amount
  }

  /** The router's slip, or nothing when there is no payout or the winner is the burn key. */
  function RouterSlip(key: PublicKey, amount: Currency, index: nat, blockId: nat, ordinal: nat): seq<Slip> {
    if amount > 0 && key != BURN_KEY
    then [Slip(key, amount, index, blockId, ordinal, SlipType.RouterOutput)] else []
  }

  function MinerSlip(key: PublicKey, amount: Currency, blockId: nat, ordinal: nat): seq<Slip> {
    if key != BURN_KEY && amount > 0
    then [Slip(key, amount, 0, blockId, ordinal, SlipType.MinerOutput)] else []
  }

  /** A router payout whose winner is the burn key goes to the graveyard. */
  function Burned(key: PublicKey, amount: Currency): Currency {
    if key == BURN_KEY then amount else 0
  }

  /** The capped shares, what the caps cut off, and the two routers drawn. */
  datatype Shares = Shares(
    miner: Currency,
    router1: Currency,
    router2: Currency,
    treasury: Currency,
    cutOff: Currency,
    key1: PublicKey,
    key2: PublicKey)

  /**
   * Shares in a block with a golden ticket: the previous block's fees go to miner and router and,
   * if that block had no ticket itself, the fees of the block before it to treasury and router.
   */
  function SharesOf(rules: Rules, ctx: Context, ticket: Payload): Shares
    requires ctx.Drawable() && ticket.Ticket? && ctx.previous.Some?
  {
    var p := ctx.previous.value;
    var cap := rules.feeCap(p.figures.avgTotalFees);
    var random1 := rules.rehash(ticket.random);
    var random2 := rules.rehash(rules.rehash(random1));
    var half := p.figures.totalFees / 2;
    var rest := p.figures.totalFees - half;
    var miner := Capped(half, cap);
    var router1 := Capped(rest, cap);
    var key1 := WinningRouter(rules, p, random1);
    var second := !HasGoldenTicket(p.transactions) && ctx.beforePrevious.Some?;
    var fees2 := if second then ctx.beforePrevious.value.figures.totalFees else 0;
    var half2 := fees2 / 2;
    var treasury := Capped(half2, cap);
    var router2 := Capped(fees2 - half2, cap);
    var key2 := if second then WinningRouter(rules, ctx.beforePrevious.value, random2) else BURN_KEY;
    Shares(miner, router1, router2, treasury,
      (half - miner) + (rest - router1) + (half2 - treasury) + (fees2 - half2 - router2), key1, key2)
  }

  function WinnerSlips(s: Shares, solver: PublicKey, blockId: nat, ordinal: nat): seq<Slip> {
    var slips0 := MinerSlip(solver, s.miner, blockId, ordinal);
    var slips1 := slips0 + RouterSlip(s.key1, s.router1, |slips0|, blockId, ordinal);
    slips1 + RouterSlip(s.key2, s.router2, |slips1|, blockId, ordinal)
  }

  /** Payouts of a block with a golden ticket; what the caps cut off goes to the graveyard. */
  function TicketPayouts(rules: Rules, ctx: Context, ticket: Payload, blockId: nat, ordinal: nat): Payouts
    requires ctx.Drawable() && ticket.Ticket?
  {
    if ctx.previous.None? then NO_PAYOUTS else
      var s := SharesOf(rules, ctx, ticket);
      Payouts(s.miner, s.router1, s.router2, s.treasury,
        s.cutOff + Burned(s.key1, s.router1) + Burned(s.key2, s.router2),
        WinnerSlips(s, ticket.solver, blockId, ordinal))
  }

  /** Without a ticket, fees that have waited for two blocks fall into the graveyard. */
  function NoTicketGraveyard(ctx: Context): Currency {
    if ctx.previous.Some? && !HasGoldenTicket(ctx.previous.value.transactions) && ctx.beforePrevious.Some?
    then ctx.previous.value.previousUnpaid else 0
  }

  function PayoutsFor(rules: Rules, ctx: Context, ticket: Option<Payload>, blockId: nat, ordinal: nat): Payouts
    requires ctx.Drawable() && (ticket.Some? ==> ticket.value.Ticket?)
  {
    if ticket.Some? then TicketPayouts(rules, ctx, ticket.value, blockId, ordinal)
    else NO_PAYOUTS.(graveyard := NoTicketGraveyard(ctx))
  }

  // ---------- the same, step by step ----------

  /** What exceeds the cap is cut off. */
  method CutOff(expected: Currency, maximum: Currency) returns (paid: Currency, cut: Currency)
    ensures paid == Capped(expected, maximum) && paid + cut == expected
  {
    if expected > maximum {
      paid, cut := maximum, expected - maximum;
    } else {
      paid, cut := expected, 0;
    }
  }

  method DrawShares(rules: Rules, ctx: Context, ticket: Payload) returns (s: Shares)
    requires ctx.Drawable() && ticket.Ticket? && ctx.previous.Some?
    ensures s == SharesOf(rules, ctx, ticket)
  {
    var p := ctx.previous.value;
    var random := rules.rehash(ticket.random);
    var cap := rules.feeCap(p.figures.avgTotalFees);
    var expected := p.figures.totalFees / 2;
    var miner, cut1 := CutOff(expected, cap);
    var router1, cut2 := CutOff(p.figures.totalFees - expected, cap);
    var key1 := FindWinningRouter(rules, p, random);
    s := Shares(miner, router1, 0, 0, cut1 + cut2, key1, BURN_KEY);
    random := rules.rehash(random);
    random := rules.rehash(random);
    if !HasGoldenTicket(p.transactions) && ctx.beforePrevious.Some? {
      var q := ctx.beforePrevious.value;
      var half := q.figures.totalFees / 2;
      var treasury, cut3 := CutOff(half, cap);
      var router2, cut4 := CutOff(q.figures.totalFees - half, cap);
      var key2 := FindWinningRouter(rules, q, random);
      s := Shares(miner, router1, router2, treasury, cut1 + cut2 + cut3 + cut4, key1, key2);
    }
  }

  /** The outputs of the fee transaction, numbered as they come, and what is burned instead. */
  method PayWinners(s: Shares, solver: PublicKey, blockId: nat, ordinal: nat)
    returns (winners: seq<Slip>, burned: Currency)
    ensures winners == WinnerSlips(s, solver, blockId, ordinal)
    ensures burned == Burned(s.key1, s.router1) + Burned(s.key2, s.router2)
  {
    winners, burned := [], 0;
    var index := 0;
    if solver != BURN_KEY && s.miner > 0 {
      winners := winners + [Slip(solver, s.miner, index, blockId, ordinal, SlipType.MinerOutput)];
      index := index + 1;
    }
    if s.router1 > 0 {
      if s.key1 != BURN_KEY {
        winners := winners + [Slip(s.key1, s.router1, index, blockId, ordinal, SlipType.RouterOutput)];
        index := index + 1;
      } else {
        burned := burned + s.router1;
      }
    }
    if s.router2 > 0 {
      if s.key2 != BURN_KEY {
        winners := winners + [Slip(s.key2, s.router2, index, blockId, ordinal, SlipType.RouterOutput)];
      } else {
        burned := burned + s.router2;
      }
    }
  }

  /** The branches over the payouts, with a ticket and without. */
  method SettleFees(rules: Rules, ctx: Context, ticket: Option<Payload>, blockId: nat, ordinal: nat)
    returns (pay: Payouts)
    requires ctx.Drawable() && (ticket.Some? ==> ticket.value.Ticket?)
    ensures pay == PayoutsFor(rules, ctx, ticket, blockId, ordinal)
  {
    pay := NO_PAYOUTS;
    if ticket.Some? {
      if ctx.previous.Some? {
        var s := DrawShares(rules, ctx, ticket.value);
        var winners, burned := PayWinners(s, ticket.value.solver, blockId, ordinal);
        pay := Payouts(s.miner, s.router1, s.router2, s.treasury, s.cutOff + burned, winners);
      }
    } else if ctx.previous.Some? && !HasGoldenTicket(ctx.previous.value.transactions) && ctx.beforePrevious.Some? {
      pay := pay.(graveyard := ctx.previous.value.previousUnpaid);
    }
  }

  // ---------- settlement ----------

  /** The miner's share is lost when the ticket names the burn key. */
  function DroppedMinerShare(pay: Payouts, ticket: Payload): Currency
    requires ticket.Ticket?
  {
    if ticket.solver == BURN_KEY then pay.miner else 0
  }

  /** The fees that a golden ticket on top of this context settles. */
  function FeesSettled(ctx: Context): Currency {
    if ctx.previous.None? then 0 else
      ctx.previous.value.figures.totalFees
      + if !HasGoldenTicket(ctx.previous.value.transactions) && ctx.beforePrevious.Some?
        then ctx.beforePrevious.value.figures.totalFees else 0
  }

  lemma {:induction false} RouterSlipValue(key: PublicKey, amount: Currency, index: nat, blockId: nat, ordinal: nat)
    ensures Values(RouterSlip(key, amount, index, blockId, ordinal)) + Burned(key, amount) == amount
  {
    AlongOne(Slip(key, amount, index, blockId, ordinal, SlipType.RouterOutput), Value);
  }

  lemma {:induction false} MinerSlipValue(key: PublicKey, amount: Currency, blockId: nat, ordinal: nat)
    ensures Values(MinerSlip(key, amount, blockId, ordinal)) + (if key == BURN_KEY then amount else 0) == amount
  {
    AlongOne(Slip(key, amount, 0, blockId, ordinal, SlipType.MinerOutput), Value);
  }

  /** The slips hold the shares of everyone but the burn key. */
  lemma {:induction false} WinnerSlipsValue(s: Shares, solver: PublicKey, blockId: nat, ordinal: nat)
    ensures Values(WinnerSlips(s, solver, blockId, ordinal)) + Burned(solver, s.miner)
      + Burned(s.key1, s.router1) + Burned(s.key2, s.router2) == s.miner + s.router1 + s.router2
  {
    var slips0 := MinerSlip(solver, s.miner, blockId, ordinal);
    var slips1 := RouterSlip(s.key1, s.router1, |slips0|, blockId, ordinal);
    var slips2 := RouterSlip(s.key2, s.router2, |slips0 + slips1|, blockId, ordinal);
    AlongConcat(slips0 + slips1, slips2, Value);
    AlongConcat(slips0, slips1, Value);
    MinerSlipValue(solver, s.miner, blockId, ordinal);
    RouterSlipValue(s.key1, s.router1, |slips0|, blockId, ordinal);
    RouterSlipValue(s.key2, s.router2, |slips0 + slips1|, blockId, ordinal);
  }

  /**
   * Every nolan of the fees being settled ends in a fee-transaction output, the treasury, the
   * graveyard, or is the dropped miner share; for every cap and every mix of burn-key winners.
   */
  lemma {:induction false} TicketSettlesEverything(
    rules: Rules, ctx: Context, ticket: Payload, blockId: nat, ordinal: nat)
    requires ctx.Drawable() && ticket.Ticket?
    ensures var pay := TicketPayouts(rules, ctx, ticket, blockId, ordinal);
      Values(pay.winners) + pay.treasury + pay.graveyard + DroppedMinerShare(pay, ticket) == FeesSettled(ctx)
  {
    if ctx.previous.Some? {
      WinnerSlipsValue(SharesOf(rules, ctx, ticket), ticket.solver, blockId, ordinal);
    }
  }
}
