/** Blocks of one transaction that `validate` accepts, and a run of them from a genesis block. */
module Staging {
  import opened Sums
  import opened Types
  import opened Smoothing
  import opened Lottery
  import opened Utxo
  import opened Rebroadcast
  import opened Expiry
  import opened Payouts
  import opened Consensus
  import opened Validation
  import opened Supply
  import opened Conservation
  import opened Runs
  import opened Extension

  /** The caps of the source, and transactions that validate when they spend slips of the utxoset. */
  function FivePercent(period: nat): Rules {
    Rules(period, x => x + x / 2, t => t / 20, (f, _, _) => f, x => x,
      (tx: Transaction, utxo) => AllSpendable(tx.inputs, utxo))
  }

  /** All that the examples use of them. */
  ghost predicate Standard(rules: Rules, period: nat) {
    && rules.Valid() && rules.genesisPeriod == period && rules.feeCap(100) >= 50
    && (forall t: nat :: rules.treasuryShare(t) == t / 20)
    && forall tx: Transaction, utxo :: rules.validates(tx, utxo) <==> AllSpendable(tx.inputs, utxo)
  }

  lemma {:induction false} FivePercentIsStandard(period: nat)
    requires period >= 1
    ensures Standard(FivePercent(period), period)
  {
  }

  // ---------- blocks of one transaction ----------

  lemma {:induction false} OneTransaction(tx: Transaction)
    ensures TicketOf([tx]) == if tx.kind.GoldenTicket? then Some(tx.data) else None
    ensures LastOf([tx], TransactionType.GoldenTicket) == if tx.kind.GoldenTicket? then Some(0) else None
    ensures LastOf([tx], TransactionType.Fee) == if tx.kind.Fee? then Some(0) else None
    ensures OfKind([tx], TransactionType.Fee) == if tx.kind.Fee? then [tx] else []
    ensures OfKind([tx], TransactionType.ATR) == if tx.kind.ATR? then [tx] else []
    ensures Spent([tx]) == Positive(tx.inputs) && Created([tx]) == Positive(tx.outputs)
  {
    assert [tx][1..] == [] && [tx][..0] == [];
  }

  /** The next block, with this one transaction and a header as `validate` wants it. */
  ghost predicate Successor(rules: Rules, st: State, tx: Transaction, b: Block)
    requires rules.Valid() && st.chain != []
  {
    var ctx := ContextAt(rules, st);
    && b.id == |st.chain| + 1 && b.transactions == [tx] && Readable(b, ctx)
    && HeaderMatches(b, ctx, ConsensusOf(rules, b, ctx))
  }

  /** A scan that rebroadcasts nothing and collects `dust`. */
  function DustScan(dust: Currency): Scan {
    Scan(dust, 0, 0, dust, dust, [])
  }

  /** Whatever the next block holds, it rebroadcasts nothing and collects `dust`. */
  ghost predicate Collects(rules: Rules, st: State, dust: Currency)
    requires st.chain != []
  {
    var ctx := ContextAt(rules, st);
    && (forall b: Block | b.id == |st.chain| + 1 :: RawScan(rules, b, ctx) == DustScan(dust))
    && (ctx.expiring.Some? ==> NoBoundOutputs(ctx.expiring.value.transactions)) && ctx.Drawable()
  }

  /** No rebroadcast, and with its slips where they should be. */
  ghost predicate Simple(st: State, tx: Transaction) {
    && (tx.kind.GoldenTicket? ==> tx.data.Ticket?) && !tx.kind.ATR? && !tx.kind.Issuance? && !tx.kind.SPV?
    && LocatedAt(tx.outputs, |st.chain| + 1, 0) && NoRepeats(Looked(tx.inputs))
  }

  lemma {:induction false} SuccessorExists(rules: Rules, st: State, tx: Transaction, dust: Currency) returns (b: Block)
    requires rules.Valid() && st.chain != [] && Collects(rules, st, dust) && Simple(st, tx)
    ensures Successor(rules, st, tx, b)
  {
    var ctx := ContextAt(rules, st);
    var c := Block(|st.chain| + 1, 1, 0, 7, 0, 0, 0, 0, NO_FIGURES, [tx]);
    var h := FittingHeading(rules, c, TreasuryBefore(rules, c, ctx), ctx);
    b := WithHeading(c, h);
  }

  lemma {:induction false} SuccessorContents(rules: Rules, st: State, tx: Transaction, b: Block, dust: Currency)
    requires rules.Valid() && st.chain != [] && Collects(rules, st, dust) && Simple(st, tx)
    requires Successor(rules, st, tx, b)
    ensures ContentsValidate(rules, b, ContextAt(rules, st))
  {
    OneTransaction(tx);
  }

  lemma {:induction false} SuccessorIsLegal(rules: Rules, st: State, tx: Transaction, b: Block, dust: Currency)
    requires rules.Valid() && Sound(st) && Collects(rules, st, dust) && Simple(st, tx)
    requires Successor(rules, st, tx, b)
    ensures Legal(rules, st, b)
  {
    SuccessorContents(rules, st, tx, b, dust);
    OneTransaction(tx);
    EntriesOfOne(rules, tx, st.utxo);
    assert OutputsAt([tx][1..], |st.chain| + 1, 1) && SoundBlock(b, |st.chain|);
  }

  lemma {:induction false} TallyOfOne(tx: Transaction)
    requires tx.kind.Normal?
    ensures var t := TallyOf([tx]); t.feesNew == FeeOf(tx) && t.bytesNew == SerializedSize(tx) && t.ticket == None
  {
    OneTransaction(tx);
    AlongOne(tx, NewFee);
    AlongOne(tx, NewBytes);
  }

  /** How the figures of a block with one payment follow from the previous ones. */
  ghost predicate Follows(rules: Rules, p: Figures, f: Figures, fee: Currency, size: nat, dust: Currency)
    requires rules.Valid() && size > 0
  {
    && f.payoutTreasury == 0 && f.payoutAtr == 0 && f.totalFees == fee + dust
    && f.avgNolanRebroadcast == Smooth(p.avgNolanRebroadcast, dust, rules.genesisPeriod)
    && f.avgFeePerByte == Smooth(p.avgFeePerByte, fee / size, rules.genesisPeriod)
  }

  lemma {:induction false} PaymentFigures(rules: Rules, b: Block, ctx: Context, t: Tally, pay: Payouts, dust: Currency)
    requires rules.Valid() && t.bytesNew > 0 && pay.treasury == 0
    ensures Follows(rules, PreviousFigures(ctx),
      FiguresOf(rules, b, ctx, t, DustScan(dust), DustScan(dust), pay), t.feesNew, t.bytesNew, dust)
  {
  }

  lemma {:induction false} NoTicketTreasury(rules: Rules, b: Block, ctx: Context, t: Tally)
    requires Readable(b, ctx) && TicketOf(b.transactions) == None
    ensures PayoutsOf(rules, b, ctx, t).treasury == 0
  {
  }

  lemma {:induction false} ConsensusFigures(rules: Rules, b: Block, ctx: Context, dust: Currency)
    requires rules.Valid() && Readable(b, ctx) && RawScan(rules, b, ctx) == DustScan(dust)
    ensures var t := TallyOf(b.transactions);
      ConsensusOf(rules, b, ctx).figures ==
      FiguresOf(rules, b, ctx, t, DustScan(dust), DustScan(dust), PayoutsOf(rules, b, ctx, t))
  {
  }

  lemma {:induction false} SuccessorFigures(rules: Rules, st: State, tx: Transaction, b: Block, dust: Currency)
    requires rules.Valid() && st.chain != [] && Collects(rules, st, dust) && tx.kind.Normal?
    requires Successor(rules, st, tx, b) && SerializedSize(tx) > 0
    ensures Follows(rules, st.Tip().figures, b.figures, FeeOf(tx), SerializedSize(tx), dust)
    ensures b.treasury == st.Tip().treasury
  {
    var (ctx, t) := (ContextAt(rules, st), TallyOf([tx]));
    TallyOfOne(tx);
    OneTransaction(tx);
    NoTicketTreasury(rules, b, ctx, t);
    ConsensusFigures(rules, b, ctx, dust);
    PaymentFigures(rules, b, ctx, t, PayoutsOf(rules, b, ctx, t), dust);
  }

  /** The value inside the window that the transaction spends. */
  ghost function Takes(rules: Rules, st: State, tx: Transaction): Currency {
    Over(Elements(Positive(tx.inputs)) * NextWindow(rules, st), Value)
  }

  lemma {:induction false} SuccessorDrift(rules: Rules, st: State, tx: Transaction, b: Block, dust: Currency)
    requires rules.Valid() && Sound(st) && Collects(rules, st, dust) && Simple(st, tx)
    requires Successor(rules, st, tx, b) && BackwardChain(st.chain) && LooksBack(b)
    ensures BlockDrift(rules, st, b) == UserOutput(tx) + NewFee(tx) - Takes(rules, st, tx)
      + FeeDrift(rules, b, ContextAt(rules, st)) - DroppedShare(b)
  {
    OneTransaction(tx);
    AlongOne(tx, UserOutput);
    AlongOne(tx, NewFee);
    assert TakenAlong(st.utxo, [tx], Floor(rules, b.id)) == Takes(rules, st, tx) by { assert [tx][1..] == []; }
    NftDriftVanishes(rules, st, b);
    assert OutputsAt([tx][1..], |st.chain| + 1, 1) && SoundBlock(b, |st.chain|);
    NothingIsPurged(rules, st, b);
  }

  lemma {:induction false} SuccessorSupply(rules: Rules, st: State, tx: Transaction, dust: Currency) returns (b: Block)
    requires rules.Valid() && Sound(st) && Collects(rules, st, dust) && Simple(st, tx) && BackwardChain(st.chain)
    requires forall s | s in Positive(tx.inputs) :: s.blockId <= |st.chain|
    ensures Legal(rules, st, b) && b.transactions == [tx]
    ensures TotalSupply(rules, Step(rules, st, b)) - TotalSupply(rules, st) ==
      UserOutput(tx) + NewFee(tx) - Takes(rules, st, tx) + FeeDrift(rules, b, ContextAt(rules, st)) - DroppedShare(b)
  {
    b := SuccessorExists(rules, st, tx, dust);
    SuccessorIsLegal(rules, st, tx, b, dust);
    OneTransaction(tx);
    SupplyStep(rules, st, b);
    SuccessorDrift(rules, st, tx, b, dust);
  }

  /** Without ticket, the fee transactions are off by whatever they pay. */
  lemma {:induction false} NoTicketFees(rules: Rules, b: Block, ctx: Context, tx: Transaction)
    requires Readable(b, ctx) && b.transactions == [tx] && !tx.kind.GoldenTicket?
    ensures FeeDrift(rules, b, ctx) == (if tx.kind.Fee? then Values(tx.outputs) else 0) && DroppedShare(b) == 0
  {
    OneTransaction(tx);
    AlongOne(tx, OutputValue);
  }

  /** A block without a ticket and without fee transactions is ordinary if its other parts are. */
  lemma {:induction false} NoTicketIsOrdinary(rules: Rules, st: State, b: Block, raw: Scan)
    requires rules.Valid() && st.chain != [] && Readable(b, ContextAt(rules, st))
    requires raw == RawScan(rules, b, ContextAt(rules, st)) && !CapTaken(rules, b, raw)
    requires TicketOf(b.transactions) == None && OfKind(b.transactions, TransactionType.Fee) == []
    requires forall tx | tx in b.transactions :: !tx.kind.GoldenTicket?
    requires HonestUsers(rules, b.transactions, st.utxo) && AsScanned(b.transactions, raw.rebroadcasts)
    requires forall tx | tx in b.transactions && FromUser(tx) :: OrdinaryTx(tx, NextWindow(rules, st))
    requires ContextAt(rules, st).expiring.Some? ==> NoBoundOutputs(ContextAt(rules, st).expiring.value.transactions)
    ensures Ordinary(rules, st, b)
  {
  }

  // ---------- moving a slip ----------

  function Move(kind: TransactionType, from: Slip, to: Slip): Transaction {
    Transaction(kind, 0, [from], [to], Bytes(0), [], 1, 0)
  }

  lemma {:induction false} MoveShape(kind: TransactionType, from: Slip, to: Slip)
    requires from.amount > 0 && to.amount > 0 && !from.kind.Bound? && !to.kind.Bound?
    ensures var tx := Move(kind, from, to);
      && Positive(tx.inputs) == [from] && Positive(tx.outputs) == [to] && Looked(tx.inputs) == [from]
      && Values(tx.inputs) == from.amount && Values(tx.outputs) == to.amount && SerializedSize(tx) == 211
  {
    assert [from][1..] == [] && [to][1..] == [];
    AlongOne(from, Value);
    AlongOne(to, Value);
  }

  lemma {:induction false} WindMove(utxo: set<Slip>, kind: TransactionType, from: Slip, to: Slip)
    requires from.amount > 0 && to.amount > 0 && !from.kind.Bound? && !to.kind.Bound?
    ensures Wind(utxo, [Move(kind, from, to)]) == utxo - {from} + {to}
  {
    MoveShape(kind, from, to);
    assert [Move(kind, from, to)][1..] == [];
  }

  // ---------- a genesis block ----------

  /** One slip that is left alone until it expires, and one that pays for the blocks in between. */
  const OLD_SLIP := Slip(9, 10, 0, 1, 0, SlipType.Normal)
  const FIRST_FUND := Slip(8, 1000, 1, 1, 0, SlipType.Normal)
  const OLD_TX := Transaction(TransactionType.Issuance, 0, [], [OLD_SLIP, FIRST_FUND], Bytes(0), [], 1, 0)

  /** A first block with these figures; its header is not compared with anything. */
  function Genesis(t: Currency, figures: Figures): Block {
    Block(1, 0, 0, 0, 0, t, 0, 0, figures, [OLD_TX])
  }

  function Start(t: Currency, figures: Figures): State {
    State([Genesis(t, figures)], {OLD_SLIP, FIRST_FUND})
  }

  lemma {:induction false} TwoOutputs(tx: Transaction, a: Slip, c: Slip)
    requires tx.inputs == [] && tx.outputs == [a, c] && a.amount > 0 && c.amount > 0
    ensures Created([tx]) == [a, c] && Spent([tx]) == [] && Wind({}, [tx]) == {a, c}
  {
    OneTransaction(tx);
    assert tx.outputs[1..] == [c] && [c][1..] == [] && [tx][1..] == [];
    assert Positive([c]) == [c];
  }

  lemma {:induction false} StartIsReachable(rules: Rules, t: Currency, figures: Figures)
    requires rules.Valid()
    ensures Reachable(rules, Start(t, figures)) && Sound(Start(t, figures)) && BackwardChain(Start(t, figures).chain)
  {
    var g := Genesis(t, figures);
    TwoOutputs(OLD_TX, OLD_SLIP, FIRST_FUND);
    assert OutputsAt([OLD_TX][1..], 1, 1) && LocatedAt(OLD_TX.outputs, 1, 0);
    assert OutputsAt(g.transactions, 1, 0);
    assert GenesisBlock(g);
    assert Reaches(rules, g, [], Start(t, figures));
    ReachableIsSound(rules, Start(t, figures));
  }

  lemma {:induction false} NothingExpires(rules: Rules, st: State)
    requires st.chain != [] && |st.chain| <= rules.genesisPeriod && ContextAt(rules, st).Drawable()
    ensures Collects(rules, st, 0)
  {
  }

  // ---------- a run of payments ----------

  /** One transaction, no ticket and no rebroadcast, with outputs that have value. */
  ghost predicate Plain(b: Block) {
    && |b.transactions| == 1 && !b.transactions[0].kind.GoldenTicket? && !b.transactions[0].kind.ATR?
    && forall s | s in b.transactions[0].outputs :: s.amount > 0 && !s.kind.Bound?
  }

  /** The slip that pays, after block `n`. */
  function Fund(n: nat, amount: Currency): Slip {
    if n == 1 then FIRST_FUND else Slip(8, amount, 0, n, 0, SlipType.Normal)
  }

  /** After `n` blocks of the run: the old slip untouched, the fund in its place. */
  ghost predicate Stage(st: State, t: Currency, g: Figures, n: nat, amount: Currency) {
    && |st.chain| == n >= 1 && (n == 1 ==> amount == 1000) && 0 < amount
    && st.chain[0] == Genesis(t, g) && st.utxo == {OLD_SLIP, Fund(n, amount)} && st.Tip().treasury == t
    && (forall i :: 0 <= i < n ==> Plain(st.chain[i])) && BackwardChain(st.chain)
  }

  lemma {:induction false} PlainBlocks(b: Block)
    requires Plain(b)
    ensures AtrWrapped(b.transactions) && !HasGoldenTicket(b.transactions) && NoBoundOutputs(b.transactions)
  {
    assert b.transactions == [b.transactions[0]];
  }

  lemma {:induction false} StageIsDrawable(rules: Rules, st: State, t: Currency, g: Figures, n: nat, amount: Currency)
    requires Stage(st, t, g, n, amount)
    ensures ContextAt(rules, st).Drawable()
    ensures forall i :: 0 <= i < n ==> !HasGoldenTicket(st.chain[i].transactions)
    ensures ContextAt(rules, st).expiring.Some? ==> NoBoundOutputs(ContextAt(rules, st).expiring.value.transactions)
  {
    forall i | 0 <= i < n
      ensures AtrWrapped(st.chain[i].transactions) && !HasGoldenTicket(st.chain[i].transactions)
      ensures NoBoundOutputs(st.chain[i].transactions)
    {
      PlainBlocks(st.chain[i]);
    }
  }

  lemma {:induction false} FirstStage(rules: Rules, t: Currency, g: Figures)
    requires rules.Valid()
    ensures Reachable(rules, Start(t, g)) && Sound(Start(t, g)) && Stage(Start(t, g), t, g, 1, 1000)
  {
    StartIsReachable(rules, t, g);
  }

  /** The payment that block `n + 1` makes. */
  function Payment(n: nat, amount: Currency, left: Currency): Transaction {
    Move(TransactionType.Normal, Fund(n, amount), Fund(n + 1, left))
  }

  lemma {:induction false} PaymentShape(n: nat, amount: Currency, left: Currency)
    requires n >= 1 && 0 < left <= amount && (n == 1 ==> amount == 1000)
    ensures var tx := Payment(n, amount, left);
      && Positive(tx.inputs) == [Fund(n, amount)] && FeeOf(tx) == amount - left && SerializedSize(tx) == 211
      && LocatedAt(tx.outputs, n + 1, 0) && NoRepeats(Looked(tx.inputs))
  {
    MoveShape(TransactionType.Normal, Fund(n, amount), Fund(n + 1, left));
  }

  lemma {:induction false} StageUtxo(n: nat, amount: Currency, left: Currency)
    requires n >= 1 && 0 < left <= amount && (n == 1 ==> amount == 1000)
    ensures Wind({OLD_SLIP, Fund(n, amount)}, [Payment(n, amount, left)]) == {OLD_SLIP, Fund(n + 1, left)}
  {
    var utxo := {OLD_SLIP, Fund(n, amount)};
    WindMove(utxo, TransactionType.Normal, Fund(n, amount), Fund(n + 1, left));
    assert OLD_SLIP != Fund(n, amount);
    assert utxo - {Fund(n, amount)} + {Fund(n + 1, left)} == {OLD_SLIP, Fund(n + 1, left)};
  }

  lemma {:induction false} PaymentIsPlain(n: nat, amount: Currency, left: Currency, b: Block)
    requires n >= 1 && 0 < left <= amount && (n == 1 ==> amount == 1000)
    requires b.id == n + 1 && b.transactions == [Payment(n, amount, left)]
    ensures Plain(b) && LooksBack(b)
  {
    PaymentShape(n, amount, left);
    OneTransaction(b.transactions[0]);
  }

  lemma {:induction false} StageStep(
    rules: Rules, st: State, t: Currency, g: Figures, n: nat, amount: Currency, left: Currency, b: Block)
    requires Stage(st, t, g, n, amount) && 0 < left <= amount && n + 1 < 2 * rules.genesisPeriod + 1
    requires b.id == n + 1 && b.transactions == [Payment(n, amount, left)] && b.treasury == t
    ensures Stage(Step(rules, st, b), t, g, n + 1, left)
  {
    var chain := st.chain + [b];
    PaymentIsPlain(n, amount, left, b);
    StageUtxo(n, amount, left);
    forall i | 0 <= i < n + 1 ensures Plain(chain[i]) && LooksBack(chain[i]) {
      if i < n { assert chain[i] == st.chain[i] && Plain(st.chain[i]) && LooksBack(st.chain[i]); }
    }
    assert Purged(rules, chain) == {};
  }

  /** One more block, which pays a fee out of the fund and collects dust, before anything is purged. */
  lemma {:induction false} NextStage(
    rules: Rules, st: State, t: Currency, g: Figures, n: nat, amount: Currency, left: Currency, dust: Currency)
    returns (b: Block)
    requires rules.Valid() && Sound(st) && Stage(st, t, g, n, amount) && Collects(rules, st, dust)
    requires 0 < left <= amount && n + 1 < 2 * rules.genesisPeriod + 1
    ensures Legal(rules, st, b) && Stage(Step(rules, st, b), t, g, n + 1, left)
    ensures Follows(rules, st.Tip().figures, b.figures, amount - left, 211, dust)
  {
    var tx := Payment(n, amount, left);
    PaymentShape(n, amount, left);
    b := SuccessorExists(rules, st, tx, dust);
    SuccessorIsLegal(rules, st, tx, b, dust);
    SuccessorFigures(rules, st, tx, b, dust);
    StageStep(rules, st, t, g, n, amount, left, b);
  }

  /** Two payments after the genesis block, the first of which pays `fee`. */
  ghost predicate ThreeBlocks(rules: Rules, st: State, t: Currency, g: Figures, fee: Currency)
    requires rules.Valid()
  {
    && fee < 1000 && Stage(st, t, g, 3, 1000 - fee)
    && Follows(rules, g, st.chain[1].figures, fee, 211, 0)
    && Follows(rules, st.chain[1].figures, st.chain[2].figures, 0, 211, 0)
  }

  lemma {:induction false} ThreeBlocksExist(rules: Rules, t: Currency, g: Figures, fee: Currency) returns (st: State)
    requires rules.Valid() && rules.genesisPeriod == 2 && fee < 1000
    ensures Reachable(rules, st) && Sound(st) && ThreeBlocks(rules, st, t, g, fee)
  {
    FirstStage(rules, t, g);
    var s1 := Start(t, g);
    StageIsDrawable(rules, s1, t, g, 1, 1000);
    NothingExpires(rules, s1);
    var b2 := NextStage(rules, s1, t, g, 1, 1000, 1000 - fee, 0);
    ReachableStep(rules, s1, b2);
    StepIsSound(rules, s1, b2);
    st := ThirdBlock(rules, Step(rules, s1, b2), t, g, 1000 - fee);
  }

  lemma {:induction false} ThirdBlock(rules: Rules, s2: State, t: Currency, g: Figures, amount: Currency)
    returns (st: State)
    requires rules.Valid() && rules.genesisPeriod == 2 && Reachable(rules, s2) && Sound(s2)
    requires Stage(s2, t, g, 2, amount)
    ensures Reachable(rules, st) && Sound(st) && Stage(st, t, g, 3, amount) && st.chain[..2] == s2.chain
    ensures Follows(rules, s2.chain[1].figures, st.chain[2].figures, 0, 211, 0)
  {
    StageIsDrawable(rules, s2, t, g, 2, amount);
    NothingExpires(rules, s2);
    var b3 := NextStage(rules, s2, t, g, 2, amount, amount, 0);
    ReachableStep(rules, s2, b3);
    StepIsSound(rules, s2, b3);
    st := Step(rules, s2, b3);
  }

  // ---------- the scan of the genesis block ----------

  lemma {:induction false} OneTransactionScan(tx: Transaction, p: Pricing)
    requires p.multiplier >= 1
    ensures ScanFrom(EMPTY_SCAN, [tx], 0, p) ==
      Process(EMPTY_SCAN, tx, Eligible(tx.outputs, p.utxo, 0), 0, TermsFor(p, tx))
  {
  }

  /** Of the genesis block only the old slip is left. */
  lemma {:induction false} OldSlipIsEligible(utxo: set<Slip>)
    requires OLD_SLIP in utxo && FIRST_FUND !in utxo
    ensures Eligible(OLD_TX.outputs, utxo, 0) == [OLD_SLIP] && SerializedSize(OLD_TX) == 211
  {
    var outputs := OLD_TX.outputs;
    assert Eligible(outputs, utxo, 2) == [];
    assert Eligible(outputs, utxo, 1) == [];
  }

  lemma {:induction false} OldSlipScan(p: Pricing)
    requires p.multiplier >= 1 && OLD_SLIP in p.utxo && FIRST_FUND !in p.utxo
    ensures ScanFrom(EMPTY_SCAN, [OLD_TX], 0, p) ==
      SingleStep(EMPTY_SCAN, OLD_TX, OLD_SLIP, Terms(211 * p.feePerByte, p.multiplier))
  {
    OneTransactionScan(OLD_TX, p);
    OldSlipIsEligible(p.utxo);
    var t := Terms(211 * p.feePerByte, p.multiplier);
    var acc := SingleStep(EMPTY_SCAN, OLD_TX, OLD_SLIP, t);
    assert Process(acc, OLD_TX, [OLD_SLIP], 1, t) == acc;
  }

  /** At block four of period two, the genesis block expires. */
  lemma {:induction false} StageThreeScan(
    rules: Rules, st: State, t: Currency, g: Figures, amount: Currency, b: Block, terms: Terms)
    requires rules.genesisPeriod == 2 && Stage(st, t, g, 3, amount) && b.id == 4
    requires terms.fee == 211 * st.Tip().figures.avgFeePerByte
    requires terms.multiplier == PayoutMultiplier(rules, ContextAt(rules, st))
    ensures RawScan(rules, b, ContextAt(rules, st)) == SingleStep(EMPTY_SCAN, OLD_TX, OLD_SLIP, terms)
  {
    OldSlipScan(PricingFor(rules, ContextAt(rules, st)));
  }
}
