/** The averages and rates in the headers of accepted blocks, over single blocks and over runs. */
module Averages {
  import opened Sums
  import opened Types
  import opened Modular
  import opened Smoothing
  import opened Rebroadcast
  import opened Payouts
  import opened Consensus
  import opened Supply
  import opened Runs

  /** The averages that are carried from header to header. */
  datatype Name = TotalFees | NewFees | AtrFees | Routing | Mining | FeePerByte | Rebroadcasts

  function AverageOf(f: Figures, name: Name): Currency {
    match name
    case TotalFees => f.avgTotalFees
    case NewFees => f.avgTotalFeesNew
    case AtrFees => f.avgTotalFeesAtr
    case Routing => f.avgPayoutRouting
    case Mining => f.avgPayoutMining
    case FeePerByte => f.avgFeePerByte
    case Rebroadcasts => f.avgNolanRebroadcast
  }

  /** What a block adds to an average: its figure of that name, or the nolan that its scan takes in. */
  function SampleOf(rules: Rules, ctx: Context, b: Block, name: Name): Currency {
    match name
    case TotalFees => b.figures.totalFees
    case NewFees => b.figures.totalFeesNew
    case AtrFees => b.figures.totalFeesAtr
    case Routing => b.figures.payoutRouting
    case Mining => b.figures.payoutMining
    case FeePerByte => b.figures.feePerByte
    case Rebroadcasts => RawScan(rules, b, ctx).nolan
  }

  /** From `past` toward the sample, by the whole part of one period's share of the distance. */
  predicate MovesToward(past: Currency, sample: Currency, next: Currency, period: nat)
    requires period > 0
  {
    if sample >= past then next == past + (sample - past) / period else next == past - (past - sample) / period
  }

  lemma {:induction false} SmoothMoves(rules: Rules, past: Currency, sample: Currency)
    requires rules.Valid()
    ensures MovesToward(past, sample, Average(rules, past, sample), rules.genesisPeriod)
  {
  }

  lemma {:induction false} FiguresMove(
    rules: Rules, b: Block, ctx: Context, t: Tally, raw: Scan, scan: Scan, pay: Payouts, name: Name)
    requires rules.Valid() && raw.dust <= raw.fees && b.figures == FiguresOf(rules, b, ctx, t, raw, scan, pay)
    requires raw == RawScan(rules, b, ctx)
    ensures AverageOf(b.figures, name) ==
      Average(rules, AverageOf(PreviousFigures(ctx), name), SampleOf(rules, ctx, b, name))
  {
  }

  /** In an accepted block every average moves from the parent's toward the figure of its name. */
  lemma {:induction false} AveragesMove(rules: Rules, st: State, b: Block, name: Name)
    requires rules.Valid() && st.chain != [] && Accepted(rules, st, b)
    ensures MovesToward(AverageOf(st.Tip().figures, name), SampleOf(rules, ContextAt(rules, st), b, name),
      AverageOf(b.figures, name), rules.genesisPeriod)
  {
    var past := AverageOf(st.Tip().figures, name);
    NextAverage(rules, st, b, name);
    SmoothMoves(rules, past, SampleOf(rules, ContextAt(rules, st), b, name));
  }

  lemma {:induction false} NextAverage(rules: Rules, st: State, b: Block, name: Name)
    requires rules.Valid() && st.chain != [] && Accepted(rules, st, b)
    ensures AverageOf(b.figures, name) ==
      Average(rules, AverageOf(st.Tip().figures, name), SampleOf(rules, ContextAt(rules, st), b, name))
  {
    var (ctx, t) := (ContextAt(rules, st), TallyOf(b.transactions));
    var raw, scan := FiguresOfConsensus(rules, b, ctx);
    FiguresMove(rules, b, ctx, t, raw, scan, PayoutsOf(rules, b, ctx, t), name);
  }

  // ---------- figures that are not carried ----------

  /** The fee totals and the fee rate of an accepted block follow from its own transactions. */
  ghost predicate RatesAreRight(b: Block) {
    var (f, bytes) := (b.figures, Along(b.transactions, NewBytes));
    && f.totalFees == f.totalFeesNew + f.totalFeesAtr
    && f.totalFeesNew == Along(b.transactions, NewFee)
    && (bytes == 0 ==> f.feePerByte == 0)
    && (bytes > 0 ==> f.feePerByte * bytes <= f.totalFeesNew < (f.feePerByte + 1) * bytes)
  }

  /** Three averages forget: they move toward their figure from zero, whatever the parent's header says. */
  ghost predicate ForgetfulAverages(rules: Rules, f: Figures)
    requires rules.Valid()
  {
    && MovesToward(0, f.payoutTreasury, f.avgPayoutTreasury, rules.genesisPeriod)
    && MovesToward(0, f.payoutGraveyard, f.avgPayoutGraveyard, rules.genesisPeriod)
    && MovesToward(0, f.payoutAtr, f.avgPayoutAtr, rules.genesisPeriod)
  }

  lemma {:induction false} FiguresRate(
    rules: Rules, b: Block, ctx: Context, t: Tally, raw: Scan, scan: Scan, pay: Payouts)
    requires rules.Valid() && raw.dust <= raw.fees && b.figures == FiguresOf(rules, b, ctx, t, raw, scan, pay)
    requires t.feesNew == Along(b.transactions, NewFee) && t.bytesNew == Along(b.transactions, NewBytes)
    ensures RatesAreRight(b) && ForgetfulAverages(rules, b.figures)
  {
    if t.bytesNew > 0 { QuotientRemains(t.feesNew, t.bytesNew); }
    SmoothMoves(rules, 0, pay.treasury);
    SmoothMoves(rules, 0, pay.graveyard);
    SmoothMoves(rules, 0, scan.payout);
  }

  lemma {:induction false} AcceptedRates(rules: Rules, st: State, b: Block)
    requires rules.Valid() && st.chain != [] && Accepted(rules, st, b)
    ensures RatesAreRight(b) && ForgetfulAverages(rules, b.figures)
  {
    var (ctx, t) := (ContextAt(rules, st), TallyOf(b.transactions));
    var raw, scan := FiguresOfConsensus(rules, b, ctx);
    FiguresRate(rules, b, ctx, t, raw, scan, PayoutsOf(rules, b, ctx, t));
  }

  // ---------- difficulty and burn fee ----------

  /** Up by one after a ticket upon a ticket, down by one (but not below zero) after none upon none. */
  ghost predicate DifficultyFollows(p: Block, b: Block) {
    var (first, second) := (HasGoldenTicket(p.transactions), HasGoldenTicket(b.transactions));
    var change: int := b.figures.difficulty - p.figures.difficulty;
    && -1 <= change <= 1
    && (change == 1 <==> first && second)
    && (change == -1 <==> !first && !second && p.figures.difficulty > 0)
  }

  /** The burn fee is the curve's, from the parent's and the time between the two, but never zero. */
  ghost predicate BurnFeeFollows(rules: Rules, p: Block, b: Block) {
    var onCurve := rules.nextBurnfee(p.figures.burnfee, b.timestamp, p.timestamp);
    b.figures.burnfee >= 1 && (onCurve >= 1 ==> b.figures.burnfee == onCurve)
      && (onCurve == 0 ==> b.figures.burnfee == 1)
  }

  lemma {:induction false} FiguresFollow(
    rules: Rules, p: Block, b: Block, ctx: Context, t: Tally, raw: Scan, scan: Scan, pay: Payouts)
    requires rules.Valid() && raw.dust <= raw.fees && b.figures == FiguresOf(rules, b, ctx, t, raw, scan, pay)
    requires ctx.previous == Some(p) && (t.ticket.Some? <==> HasGoldenTicket(b.transactions))
    ensures DifficultyFollows(p, b) && BurnFeeFollows(rules, p, b)
  {
  }

  lemma {:induction false} DifficultyAndBurnFee(rules: Rules, st: State, b: Block)
    requires rules.Valid() && st.chain != [] && Accepted(rules, st, b)
    ensures DifficultyFollows(st.Tip(), b) && BurnFeeFollows(rules, st.Tip(), b)
  {
    var (ctx, t) := (ContextAt(rules, st), TallyOf(b.transactions));
    var raw, scan := FiguresOfConsensus(rules, b, ctx);
    LastOfExists(b.transactions, TransactionType.GoldenTicket);
    FiguresFollow(rules, st.Tip(), b, ctx, t, raw, scan, PayoutsOf(rules, b, ctx, t));
  }

  // ---------- runs ----------

  /** Every block of the run brings the same sample. */
  ghost predicate SteadyRun(rules: Rules, st: State, bs: seq<Block>, name: Name, sample: Currency)
    requires rules.Valid() && st.chain != [] && LegalRun(rules, st, bs)
    decreases bs
  {
    bs == []
    || (SampleOf(rules, ContextAt(rules, st), bs[0], name) == sample
        && SteadyRun(rules, Step(rules, st, bs[0]), bs[1..], name, sample))
  }

  lemma {:induction false} RunSmooths(rules: Rules, st: State, bs: seq<Block>, name: Name, sample: Currency)
    requires rules.Valid() && st.chain != [] && LegalRun(rules, st, bs) && SteadyRun(rules, st, bs, name, sample)
    ensures RunOf(rules, st, bs).chain != []
    ensures AverageOf(RunOf(rules, st, bs).Tip().figures, name) ==
      SmoothRun(AverageOf(st.Tip().figures, name), sample, rules.genesisPeriod, |bs|)
    decreases bs
  {
    if bs != [] {
      NextAverage(rules, st, bs[0], name);
      RunSmooths(rules, Step(rules, st, bs[0]), bs[1..], name, sample);
    }
  }

  /**
   * Closer to the sample without overshooting; and after as many blocks as there are units between them at
   * rest, unmoved if that is less than a period, and otherwise one unit short of a period away.
   */
  predicate Settles(first: Currency, last: Currency, sample: Currency, period: nat, blocks: nat) {
    && (first <= sample ==> first <= last <= sample)
    && (first >= sample ==> first >= last >= sample)
    && (blocks >= Abs(first - sample) ==>
          if Abs(first - sample) < period then last == first else Abs(last - sample) == period - 1)
  }

  lemma {:induction false} SmoothRunRests(first: Currency, sample: Currency, period: nat, blocks: nat)
    requires period > 0
    ensures Settles(first, SmoothRun(first, sample, period, blocks), sample, period, blocks)
  {
    SmoothRunSettles(first, sample, period, blocks);
  }

  /** Over a run of accepted blocks with one and the same sample the average in the tip's header settles. */
  lemma {:induction false} AveragesSettle(rules: Rules, st: State, bs: seq<Block>, name: Name, sample: Currency)
    requires rules.Valid() && st.chain != [] && LegalRun(rules, st, bs) && SteadyRun(rules, st, bs, name, sample)
    ensures RunOf(rules, st, bs).chain != []
    ensures Settles(AverageOf(st.Tip().figures, name), AverageOf(RunOf(rules, st, bs).Tip().figures, name),
      sample, rules.genesisPeriod, |bs|)
  {
    RunSmooths(rules, st, bs, name, sample);
    SmoothRunRests(AverageOf(st.Tip().figures, name), sample, rules.genesisPeriod, |bs|);
  }
}
