/** Concrete blocks on reachable states: accepted ones that break what one might expect, and ones that do not. */
module Examples {
  import opened Sums
  import opened Types
  import opened Smoothing
  import opened Utxo
  import opened Rebroadcast
  import opened Expiry
  import opened Payouts
  import opened Consensus
  import opened Capping
  import opened Validation
  import opened Supply
  import opened Conservation
  import opened Creation
  import opened Agreement
  import opened Runs
  import opened Extension
  import opened Staging

  // ---------- a treasury that pays for rebroadcasts ----------

  /** An average that two blocks without rebroadcasts bring down to `k`. */
  function RichFigures(k: nat): Figures {
    NO_FIGURES.(avgNolanRebroadcast := 4 * k)
  }

  /** A slip of ten nolan expires next, the treasury doubles it, and nothing else is due. */
  ghost predicate Rich(rules: Rules, st: State, t: Currency) {
    && Standard(rules, 2) && Sound(st) && BackwardChain(st.chain) && |st.chain| == 3 && st.Tip().treasury == t
    && st.Tip().figures.totalFees == 0 && st.chain[1].figures.totalFees == 0 && DOUBLED_SLIP !in st.utxo
    && !HasGoldenTicket(st.Tip().transactions) && NoBoundOutputs(st.chain[0].transactions)
    && ContextAt(rules, st).Drawable()
    && forall b: Block | b.id == 4 :: RawScan(rules, b, ContextAt(rules, st)) == RICH_SCAN
  }

  const DOUBLED := SingleRebroadcast(OLD_TX, OLD_SLIP, 20, 0)
  const DOUBLED_IN_BLOCK := DOUBLED.(outputs := Located(DOUBLED.outputs, 4, 0))

  /** What it spends: twice the slip that expires. It never existed. */
  const DOUBLED_SLIP := OLD_SLIP.(amount := 20)
  const NEW_SLIP := Slip(9, 20, 0, 4, 0, SlipType.ATR)
  const RICH_SCAN := Scan(10, 1, 10, 0, 0, [DOUBLED])

  lemma {:induction false} Halved(x: nat)
    ensures Smooth(2 * x, 0, 2) == x
  {
  }

  lemma {:induction false} TwiceHalved(rules: Rules, g: Figures, f: Figures, h: Figures, k: nat)
    requires rules.Valid() && rules.genesisPeriod == 2
    requires Follows(rules, g, f, 0, 211, 0) && Follows(rules, f, h, 0, 211, 0)
    requires g.avgNolanRebroadcast == 4 * k && g.avgFeePerByte == 0
    ensures h.avgNolanRebroadcast == k && h.avgFeePerByte == 0
  {
    assert 4 * k == 2 * (2 * k);
    Halved(2 * k);
    Halved(k);
    Halved(0);
  }

  lemma {:induction false} QuotientIsOne(a: nat, n: nat)
    requires 0 < n <= a < 2 * n
    ensures a / n == 1
  {
  }

  lemma {:induction false} DoubledQuotient(period: nat, k: nat, t: nat)
    requires period == 2 && 0 < 2 * k <= t < 4 * k
    ensures period * k > 0 && t / (period * k) == 1
  {
    QuotientIsOne(t, period * k);
  }

  lemma {:induction false} Doubles(rules: Rules, ctx: Context, k: nat, t: Currency)
    requires rules.genesisPeriod == 2 && 0 < 2 * k <= t < 4 * k
    requires PreviousFigures(ctx).avgNolanRebroadcast == k && PreviousTreasury(ctx) == t
    ensures PayoutMultiplier(rules, ctx) == 2
  {
    DoubledQuotient(rules.genesisPeriod, k, t);
  }

  lemma {:induction false} DoublingStep()
    ensures SingleStep(EMPTY_SCAN, OLD_TX, OLD_SLIP, Terms(0, 2)) == RICH_SCAN
  {
  }

  lemma {:induction false} ThreeBlocksScan(rules: Rules, st: State, t: Currency, k: nat, b: Block)
    requires rules.genesisPeriod == 2 && 0 < 2 * k <= t < 4 * k && Stage(st, t, RichFigures(k), 3, 1000) && b.id == 4
    requires st.Tip().figures.avgFeePerByte == 0 && st.Tip().figures.avgNolanRebroadcast == k
    ensures RawScan(rules, b, ContextAt(rules, st)) == RICH_SCAN
  {
    Doubles(rules, ContextAt(rules, st), k, t);
    StageThreeScan(rules, st, t, RichFigures(k), 1000, b, Terms(0, 2));
    DoublingStep();
  }

  /** The shape of the run, with its averages already settled. */
  ghost predicate Settled(st: State, t: Currency, k: nat) {
    && Stage(st, t, RichFigures(k), 3, 1000)
    && st.Tip().figures.avgFeePerByte == 0 && st.Tip().figures.avgNolanRebroadcast == k
    && st.Tip().figures.totalFees == 0 && st.chain[1].figures.totalFees == 0
  }

  lemma {:induction false} SettledExists(rules: Rules, t: Currency, k: nat) returns (st: State)
    requires rules.Valid() && rules.genesisPeriod == 2
    ensures Reachable(rules, st) && Sound(st) && Settled(st, t, k)
  {
    st := ThreeBlocksExist(rules, t, RichFigures(k), 0);
    TwiceHalved(rules, RichFigures(k), st.chain[1].figures, st.chain[2].figures, k);
  }

  lemma {:induction false} SettledIsRich(rules: Rules, st: State, t: Currency, k: nat)
    requires Standard(rules, 2) && Sound(st) && 0 < 2 * k <= t < 4 * k && Settled(st, t, k)
    ensures Rich(rules, st, t)
  {
    StageIsDrawable(rules, st, t, RichFigures(k), 3, 1000);
    PlainBlocks(st.chain[0]);
    forall b: Block | b.id == 4 ensures RawScan(rules, b, ContextAt(rules, st)) == RICH_SCAN {
      ThreeBlocksScan(rules, st, t, k, b);
    }
  }

  lemma {:induction false} RichFrom(rules: Rules, t: Currency, k: nat) returns (st: State)
    requires Standard(rules, 2) && 0 < 2 * k <= t < 4 * k
    ensures Reachable(rules, st) && Rich(rules, st, t)
  {
    st := SettledExists(rules, t, k);
    SettledIsRich(rules, st, t, k);
  }

  lemma {:induction false} RichExists(rules: Rules, t: Currency) returns (st: State)
    requires Standard(rules, 2) && t >= 2
    ensures rules.Valid() && Reachable(rules, st) && Rich(rules, st, t)
  {
    st := RichFrom(rules, t, t / 2);
  }

  /** At five percent, a treasury below 200 does not cover the payout of ten, and then covers none of it. */
  function Payout(treasury: Currency): Currency {
    if treasury < 200 then 0 else 10
  }

  lemma {:induction false} RichPayloads()
    ensures (forall r | r in RICH_SCAN.rebroadcasts :: HasPayload(r)) && Payloads(RICH_SCAN) == 20
  {
    AlongOne(DOUBLED, PayloadIn);
  }

  lemma {:induction false} RichCap(rules: Rules, b: Block)
    requires Standard(rules, 2)
    ensures forall r | r in RICH_SCAN.rebroadcasts :: HasPayload(r)
    ensures CapTaken(rules, b, RICH_SCAN) <==> b.treasury < 200
    ensures PayoutAt(rules, RICH_SCAN, b.treasury) == Payout(b.treasury)
    ensures CappedScan(rules, b, RICH_SCAN).payout == Payout(b.treasury)
    ensures CappedScan(rules, b, RICH_SCAN).fees == 0
  {
    RichPayloads();
    CappedPayout(rules, b, RICH_SCAN);
  }

  /** Whatever the next block holds, the previous two leave nothing to settle. */
  lemma {:induction false} RichPayouts(rules: Rules, st: State, t: Currency, b: Block, tally: Tally)
    requires Rich(rules, st, t) && st.chain != [] && Readable(b, ContextAt(rules, st))
    ensures var pay := PayoutsOf(rules, b, ContextAt(rules, st), tally); pay.treasury == 0 && pay.graveyard == 0
  {
    assert st.Tip() == st.chain[2] && st.Tip().previousUnpaid == st.chain[1].figures.totalFees;
  }

  lemma {:induction false} RichValues(rules: Rules, st: State, t: Currency, b: Block)
    requires Rich(rules, st, t) && b.id == 4 && st.chain != [] && Readable(b, ContextAt(rules, st))
    ensures var cv := ConsensusOf(rules, b, ContextAt(rules, st));
      && cv.figures.payoutAtr == Payout(b.treasury) && cv.figures.payoutTreasury == 0
      && cv.figures.payoutGraveyard == 0 && cv.hashed == [DOUBLED]
    ensures TreasuryBefore(rules, b, ContextAt(rules, st)) == t
  {
    RichCap(rules, b);
    RichPayouts(rules, st, t, b, TallyOf(b.transactions));
  }

  /** Between 200 and 209 there is nothing to fund the payout with: neither all of it nor none. */
  lemma {:induction false} RichIsFundable(rules: Rules, t: Currency)
    requires Standard(rules, 2)
    ensures Fundable(rules, RICH_SCAN, t) <==> t < 200 || t >= 210
  {
    RichPayloads();
    if t < 200 {
      assert FitsCapped(rules, RICH_SCAN, t, 0);
    } else if t < 210 {
      forall m: nat | m <= t ensures !FitsCapped(rules, RICH_SCAN, t, m) {
        if m > 0 && m * 20 <= t { SmallShare(t - m * 20, m); }
      }
    }
  }

  lemma {:induction false} SmallShare(t: nat, m: nat)
    requires t / 20 < 10 && m > 0
    ensures t / 20 / 10 != m
  {
  }

  lemma {:induction false} RichRefuses(rules: Rules, st: State, t: Currency, b: Block)
    requires Rich(rules, st, t) && 200 <= t < 210
    ensures rules.Valid() && st.chain != [] && !Accepted(rules, st, b)
  {
    if b.id == 4 && Readable(b, ContextAt(rules, st)) {
        RichValues(rules, st, t, b);
      RichIsFundable(rules, t);
      NextBlockIff(rules, st, b);
      assert WithHeading(b, Heading(b.figures, b.treasury, b.graveyard, b.previousUnpaid)) == b;
    }
  }

  /** With a treasury of 200 up to 209 the chain ends: no block that anyone could make is accepted. */
  lemma {:induction false} NoNextBlock(rules: Rules, t: Currency) returns (st: State)
    requires Standard(rules, 2) && 200 <= t < 210
    ensures rules.Valid() && Reachable(rules, st) && st.chain != [] && st.Tip().treasury == t
    ensures forall b :: !Accepted(rules, st, b)
  {
    st := RichExists(rules, t);
    forall b ensures !Accepted(rules, st, b) {
      RichRefuses(rules, st, t, b);
    }
  }

  lemma {:induction false} DoubledShape()
    ensures DOUBLED_IN_BLOCK.inputs == [DOUBLED_SLIP] && DOUBLED_IN_BLOCK.outputs == [NEW_SLIP]
    ensures Spent([DOUBLED_IN_BLOCK]) == [DOUBLED_SLIP] && Created([DOUBLED_IN_BLOCK]) == [NEW_SLIP]
    ensures Signed(DOUBLED_IN_BLOCK) == Signed(DOUBLED)
  {
    var tx := DOUBLED_IN_BLOCK;
    OneTransaction(tx);
    assert tx.outputs == [NEW_SLIP];
    assert [DOUBLED_SLIP][1..] == [] && [NEW_SLIP][1..] == [];
    assert Positive([DOUBLED_SLIP]) == [DOUBLED_SLIP] && Positive([NEW_SLIP]) == [NEW_SLIP];
    assert Unlocated(tx.outputs) == Unlocated(DOUBLED.outputs);
  }

  lemma {:induction false} DoubledIsSound(b: Block)
    requires b.id == 4 && b.transactions == [DOUBLED_IN_BLOCK]
    ensures SoundBlock(b, 3) && SpendsThePast(b) && LooksBack(b)
  {
    DoubledShape();
    assert OutputsAt(b.transactions[1..], 4, 1) && LocatedAt(b.transactions[0].outputs, 4, 0);
  }

  /** The rebroadcast does not validate, so its input is not even entered. */
  lemma {:induction false} DoubledIsNotEntered(rules: Rules, utxo: set<Slip>)
    requires Standard(rules, 2) && DOUBLED_SLIP !in utxo
    ensures NoDoubleSpend(rules, [DOUBLED_IN_BLOCK], utxo) && !AllSpendable(DOUBLED_IN_BLOCK.inputs, utxo)
  {
    DoubledShape();
    assert DOUBLED_SLIP in DOUBLED_IN_BLOCK.inputs;
    EntriesOfOne(rules, DOUBLED_IN_BLOCK, utxo);
  }

  /** A next block that holds the one rebroadcast and states what `validate` computes. */
  ghost predicate RichSuccessor(rules: Rules, st: State, b: Block)
    requires rules.Valid() && st.chain != []
  {
    && b.id == 4 && b.transactions == [DOUBLED_IN_BLOCK] && Readable(b, ContextAt(rules, st))
    && HeaderValidates(rules, b, ContextAt(rules, st))
  }

  lemma {:induction false} RichFits(rules: Rules, st: State, t: Currency, c: Block)
    requires Rich(rules, st, t) && c.id == 4 && Readable(c, ContextAt(rules, st))
    requires c.treasury + Payout(c.treasury) == t
    ensures var ctx := ContextAt(rules, st);
      Fits(rules, RawScan(rules, c, ctx), TreasuryBefore(rules, c, ctx), c.treasury)
  {
    RichCap(rules, c);
    RichValues(rules, st, t, c);
  }

  lemma {:induction false} RichSuccessorExists(rules: Rules, st: State, t: Currency, treasury: Currency)
    returns (b: Block)
    requires Rich(rules, st, t) && treasury + Payout(treasury) == t
    ensures RichSuccessor(rules, st, b) && b.treasury == treasury
  {
    var c := Block(4, 1, 0, 7, 0, treasury, 0, 0, NO_FIGURES, [DOUBLED_IN_BLOCK]);
    RichFits(rules, st, t, c);
    var h := FittingHeading(rules, c, treasury, ContextAt(rules, st));
    b := WithHeading(c, h);
  }

  lemma {:induction false} RichSuccessorValidates(rules: Rules, st: State, t: Currency, b: Block)
    requires Rich(rules, st, t) && st.chain != [] && RichSuccessor(rules, st, b)
    ensures ValuesValidate(rules, b, ContextAt(rules, st)) && b.figures.payoutAtr == Payout(b.treasury)
  {
    RichValues(rules, st, t, b);
    OneTransaction(DOUBLED_IN_BLOCK);
    DoubledContents(b, ConsensusOf(rules, b, ContextAt(rules, st)));
  }

  lemma {:induction false} DoubledContents(b: Block, cv: ConsensusValues)
    requires b.transactions == [DOUBLED_IN_BLOCK] && cv.hashed == [DOUBLED] && cv.feeIndex == None
    ensures ContentsMatch(b, cv)
  {
    DoubledShape();
    OneTransaction(DOUBLED_IN_BLOCK);
  }

  lemma {:induction false} RichSuccessorIsLegal(rules: Rules, st: State, t: Currency, b: Block)
    requires Rich(rules, st, t) && st.chain != [] && RichSuccessor(rules, st, b)
    ensures Legal(rules, st, b)
  {
    RichSuccessorValidates(rules, st, t, b);
    DoubledIsNotEntered(rules, st.utxo);
    DoubledIsSound(b);
  }

  lemma {:induction false} DoubledIsScanned(rules: Rules, utxo: set<Slip>)
    ensures AsScanned([DOUBLED_IN_BLOCK], [DOUBLED]) && HonestUsers(rules, [DOUBLED_IN_BLOCK], utxo)
  {
    DoubledShape();
    OneTransaction(DOUBLED_IN_BLOCK);
  }

  lemma {:induction false} RichSuccessorIsOrdinary(rules: Rules, st: State, t: Currency, b: Block)
    requires Rich(rules, st, t) && st.chain != [] && RichSuccessor(rules, st, b) && b.treasury >= 200
    ensures Ordinary(rules, st, b)
  {
    RichCap(rules, b);
    OneTransaction(DOUBLED_IN_BLOCK);
    DoubledIsScanned(rules, st.utxo);
    NoTicketIsOrdinary(rules, st, b, RICH_SCAN);
  }

  lemma {:induction false} UnwindingDoubled(rules: Rules, st: State, t: Currency, b: Block)
    requires Rich(rules, st, t) && b.id == 4 && b.transactions == [DOUBLED_IN_BLOCK]
    ensures !AllSpendable(DOUBLED_IN_BLOCK.inputs, st.utxo)
    ensures Unwind(Wind(st.utxo, b.transactions), b.transactions) == st.utxo + {DOUBLED_SLIP} != st.utxo
  {
    DoubledShape();
    DoubledIsNotEntered(rules, st.utxo);
    DoubledIsSound(b);
    UnwindingABlock(st, b);
    assert Elements(Spent(b.transactions)) == {DOUBLED_SLIP};
  }

  /**
   * A treasury of 210 or more pays ten nolan for a rebroadcast that does not validate. The block is accepted
   * and ordinary, and leaves the supply as it was; unwinding it leaves behind a slip that never existed.
   */
  lemma {:induction false} TreasuryMayPay(rules: Rules, t: Currency) returns (st: State, b: Block)
    requires Standard(rules, 2) && t >= 210
    ensures rules.Valid() && Reachable(rules, st) && Sound(st) && st.Tip().treasury == t
    ensures Legal(rules, st, b) && Ordinary(rules, st, b) && b.figures.payoutAtr == 10
    ensures TotalSupply(rules, Step(rules, st, b)) == TotalSupply(rules, st)
    ensures b.transactions == [DOUBLED_IN_BLOCK] && !AllSpendable(DOUBLED_IN_BLOCK.inputs, st.utxo)
    ensures Unwind(Wind(st.utxo, b.transactions), b.transactions) == st.utxo + {DOUBLED_SLIP} != st.utxo
  {
    st := RichExists(rules, t);
    b := RichSuccessorExists(rules, st, t, t - 10);
    RichSuccessorIsLegal(rules, st, t, b);
    RichSuccessorIsOrdinary(rules, st, t, b);
    RichSuccessorValidates(rules, st, t, b);
    OrdinaryBlockKeepsSupply(rules, st, b);
    UnwindingDoubled(rules, st, t, b);
  }

  /** A treasury below 200 takes the cap and pays nothing, but the rebroadcast carries twenty: ten are created. */
  lemma {:induction false} CapMovesTheSupply(rules: Rules, t: Currency) returns (st: State, b: Block)
    requires Standard(rules, 2) && 2 <= t < 200
    ensures rules.Valid() && Reachable(rules, st) && Sound(st) && st.Tip().treasury == t && Legal(rules, st, b)
    ensures CapTaken(rules, b, RawScan(rules, b, ContextAt(rules, st)))
    ensures TotalSupply(rules, Step(rules, st, b)) == TotalSupply(rules, st) + 10
  {
    st := RichExists(rules, t);
    b := RichSuccessorExists(rules, st, t, t);
    RichSuccessorIsLegal(rules, st, t, b);
    RichCap(rules, b);
    SupplyStep(rules, st, b);
    RichDrift(rules, st, t, b);
  }

  lemma {:induction false} RichDrift(rules: Rules, st: State, t: Currency, b: Block)
    requires Rich(rules, st, t) && st.chain != []
    requires b.id == 4 && b.transactions == [DOUBLED_IN_BLOCK] && Readable(b, ContextAt(rules, st))
    ensures BlockDrift(rules, st, b) == 10 - Payout(b.treasury)
  {
    DoubledShape();
    DoubledIsSound(b);
    RichCap(rules, b);
    NftDriftVanishes(rules, st, b);
    NothingIsPurged(rules, st, b);
    NoTicketFees(rules, b, ContextAt(rules, st), DOUBLED_IN_BLOCK);
    RichUserDrift(rules, st, t, b);
  }

  lemma {:induction false} RichUserDrift(rules: Rules, st: State, t: Currency, b: Block)
    requires Rich(rules, st, t) && b.id == 4 && b.transactions == [DOUBLED_IN_BLOCK]
    ensures UserDrift(rules, st, b) == 0
  {
    DoubledShape();
    DoubledIsSound(b);
    AlongOne(DOUBLED_IN_BLOCK, UserOutput);
    AlongOne(DOUBLED_IN_BLOCK, NewFee);
    TakenInBulk(rules, st, b);
    assert Elements(Spent(b.transactions)) * NextWindow(rules, st) == {};
  }

  lemma {:induction false} RichTreasury(rules: Rules, st: State, t: Currency, o: Order)
    requires Rich(rules, st, t) && st.chain != [] && Readable(Draft(o, ContextAt(rules, st)), ContextAt(rules, st))
    ensures NextTreasury(rules, o, ContextAt(rules, st)) == t
  {
    RichPayouts(rules, st, t, Draft(o, ContextAt(rules, st)), TallyOf(Submitted(o)));
  }

  lemma {:induction false} RichDisagrees(rules: Rules, st: State, t: Currency, o: Order)
    requires Rich(rules, st, t) && t >= 200 && st.chain != [] && ProperOrder(o)
    requires Readable(Draft(o, ContextAt(rules, st)), ContextAt(rules, st))
    ensures rules.Valid() && Readable(Finished(rules, o, ContextAt(rules, st)), ContextAt(rules, st))
    ensures !HeaderValidates(rules, Finished(rules, o, ContextAt(rules, st)), ContextAt(rules, st))
  {
    assert SoundBlock(st.Tip(), 2);
    CreateValidateAgreement(rules, o, ContextAt(rules, st));
    RichTreasury(rules, st, t, o);
  }

  /** Agreement does fail: whatever `create` is given, it pays nothing where `validate` expects ten to be paid. */
  lemma {:induction false} CreatedBlockMayBeRejected(rules: Rules, t: Currency, o: Order) returns (st: State)
    requires Standard(rules, 2) && t >= 200 && ProperOrder(o)
    ensures rules.Valid() && Reachable(rules, st) && st.chain != [] && st.Tip().treasury == t
    ensures var ctx := ContextAt(rules, st);
      Readable(Draft(o, ctx), ctx) ==>
      Readable(Finished(rules, o, ctx), ctx) && !HeaderValidates(rules, Finished(rules, o, ctx), ctx)
  {
    st := RichExists(rules, t);
    if Readable(Draft(o, ContextAt(rules, st)), ContextAt(rules, st)) { RichDisagrees(rules, st, t, o); }
  }

  lemma {:induction false} RichImbalance(rules: Rules, st: State, t: Currency, b: Block)
    requires Rich(rules, st, t) && st.chain != [] && b.id == 4 && b.treasury < 200
    ensures var raw := RawScan(rules, b, ContextAt(rules, st));
      && CapTaken(rules, b, raw)
      && (forall r | r in raw.rebroadcasts :: HasPayload(r))
      && Imbalance(CappedScan(rules, b, raw)) == 10
  {
    RichCap(rules, b);
    CapBalance(rules, b, ContextAt(rules, st));
  }

  /** The capped scan itself is off balance: under any treasury below 200, by ten nolan. */
  lemma {:induction false} CapCreatesValue(rules: Rules, t: Currency, b: Block) returns (st: State)
    requires Standard(rules, 2) && t >= 2 && b.id == 4 && b.treasury < 200
    ensures rules.Valid() && Reachable(rules, st) && st.chain != [] && st.Tip().treasury == t
    ensures var raw := RawScan(rules, b, ContextAt(rules, st));
      && CapTaken(rules, b, raw)
      && (forall r | r in raw.rebroadcasts :: HasPayload(r))
      && Imbalance(CappedScan(rules, b, raw)) == 10
  {
    st := RichExists(rules, t);
    RichImbalance(rules, st, t, b);
  }

  // ---------- blocks right after genesis ----------

  const KEPT_SLIP := Slip(8, 999, 0, 2, 0, SlipType.Normal)

  lemma {:induction false} StartCollects(rules: Rules, t: Currency, g: Figures)
    requires rules.Valid()
    ensures Collects(rules, Start(t, g), 0)
  {
    FirstStage(rules, t, g);
    StageIsDrawable(rules, Start(t, g), t, g, 1, 1000);
    NothingExpires(rules, Start(t, g));
  }

  /** Spends the slip of a thousand and keeps all but one nolan of it. */
  function Spending(kind: TransactionType): Transaction {
    Move(kind, FIRST_FUND, KEPT_SLIP)
  }

  lemma {:induction false} SpendingIsSimple(rules: Rules, t: Currency, g: Figures, kind: TransactionType)
    requires rules.Valid() && (kind.Normal? || kind.BlockStake?)
    ensures Simple(Start(t, g), Spending(kind)) && Positive(Spending(kind).inputs) == [FIRST_FUND]
    ensures Takes(rules, Start(t, g), Spending(kind)) == 1000 && FIRST_FUND in NextWindow(rules, Start(t, g))
    ensures Values(Spending(kind).inputs) == 1000 && Values(Spending(kind).outputs) == 999
  {
    MoveShape(kind, FIRST_FUND, KEPT_SLIP);
    assert Elements([FIRST_FUND]) * NextWindow(rules, Start(t, g)) == {FIRST_FUND};
    Remove({FIRST_FUND}, Value, FIRST_FUND);
  }

  /** A payment with a fee: accepted and ordinary. */
  lemma {:induction false} OrdinaryBlocksExist(rules: Rules, period: nat, t: Currency, g: Figures) returns (b: Block)
    requires Standard(rules, period)
    ensures rules.Valid() && Reachable(rules, Start(t, g)) && Legal(rules, Start(t, g), b)
    ensures b.transactions == [Spending(TransactionType.Normal)] && Ordinary(rules, Start(t, g), b)
  {
    var (st, tx) := (Start(t, g), Spending(TransactionType.Normal));
    StartIsReachable(rules, t, g);
    StartCollects(rules, t, g);
    SpendingIsSimple(rules, t, g, TransactionType.Normal);
    b := SuccessorExists(rules, st, tx, 0);
    SuccessorIsLegal(rules, st, tx, b, 0);
    PaymentIsOrdinary(rules, period, st, tx, b);
  }

  /** A block with one funded payment from inside the window is ordinary. */
  lemma {:induction false} PaymentIsOrdinary(rules: Rules, period: nat, st: State, tx: Transaction, b: Block)
    requires Standard(rules, period) && st.chain != [] && Collects(rules, st, 0) && Successor(rules, st, tx, b)
    requires tx.kind.Normal? && AllSpendable(tx.inputs, st.utxo) && Values(tx.outputs) <= Values(tx.inputs)
    requires forall s | s in tx.inputs :: s in NextWindow(rules, st)
    ensures Ordinary(rules, st, b)
  {
    OneTransaction(tx);
    NoTicketIsOrdinary(rules, st, b, DustScan(0));
  }

  /** A staking transaction that returns less than it spends: its fee is not counted, and a nolan is lost. */
  lemma {:induction false} UncountedFeeIsLost(rules: Rules, period: nat, t: Currency, g: Figures) returns (b: Block)
    requires Standard(rules, period)
    ensures rules.Valid() && Reachable(rules, Start(t, g)) && Legal(rules, Start(t, g), b)
    ensures HonestUsers(rules, b.transactions, Start(t, g).utxo)
    ensures TotalSupply(rules, Step(rules, Start(t, g), b)) == TotalSupply(rules, Start(t, g)) - 1
  {
    var tx := Spending(TransactionType.BlockStake);
    StartIsReachable(rules, t, g);
    StartCollects(rules, t, g);
    SpendingIsSimple(rules, t, g, TransactionType.BlockStake);
    b := SuccessorSupply(rules, Start(t, g), tx, 0);
    NoTicketFees(rules, b, ContextAt(rules, Start(t, g)), tx);
  }

  const MINTED_SLIP := Slip(9, 5, 0, 2, 0, SlipType.Normal)
  const MINT := Transaction(TransactionType.Fee, 0, [], [MINTED_SLIP], Bytes(0), [], 1, 0)

  /** A fee transaction without a golden ticket is compared with nothing: five nolan are minted. */
  lemma {:induction false} FeeTransactionMints(rules: Rules, period: nat, t: Currency, g: Figures) returns (b: Block)
    requires Standard(rules, period)
    ensures rules.Valid() && Reachable(rules, Start(t, g)) && Legal(rules, Start(t, g), b) && b.transactions == [MINT]
    ensures TotalSupply(rules, Step(rules, Start(t, g), b)) == TotalSupply(rules, Start(t, g)) + 5
  {
    StartIsReachable(rules, t, g);
    StartCollects(rules, t, g);
    AlongOne(MINTED_SLIP, Value);
    b := SuccessorSupply(rules, Start(t, g), MINT, 0);
    NoTicketFees(rules, b, ContextAt(rules, Start(t, g)), MINT);
    assert Elements(Positive(MINT.inputs)) * NextWindow(rules, Start(t, g)) == {};
  }

  // ---------- a golden ticket whose winners are not paid ----------

  /** A first block that collected a hundred nolan of fees. */
  const BUSY := NO_FIGURES.(totalFees := 100, avgTotalFees := 100)
  const TICKET := Transaction(TransactionType.GoldenTicket, 0, [], [], Ticket(0, 0, 5), [], 1, 0)

  /** The miner alone is due fifty. */
  lemma {:induction false} MinerIsDue(rules: Rules, ctx: Context, ticket: Payload, blockId: nat, ordinal: nat)
    requires ctx.Drawable() && ctx.previous.Some? && ctx.previous.value.figures == BUSY && rules.feeCap(100) >= 50
    requires ticket.Ticket? && ticket.solver != BURN_KEY
    ensures Values(TicketPayouts(rules, ctx, ticket, blockId, ordinal).winners) >= 50
  {
    var s := SharesOf(rules, ctx, ticket);
    assert s.miner == 50;
    WinnerSlipsValue(s, ticket.solver, blockId, ordinal);
  }

  lemma {:induction false} UnpaidTicket(rules: Rules, b: Block, ctx: Context, tx: Transaction)
    requires Readable(b, ctx) && b.transactions == [tx] && tx.kind.GoldenTicket? && tx.data.Ticket?
    requires ctx.previous.Some? && ctx.previous.value.figures == BUSY && rules.feeCap(100) >= 50
    requires tx.data.solver != BURN_KEY
    ensures FeeDrift(rules, b, ctx) <= -50 && DroppedShare(b) == 0
  {
    OneTransaction(tx);
    MinerIsDue(rules, ctx, tx.data, b.id, TallyOf(b.transactions).nonFee + 1);
  }

  /** A ticket that spends and creates nothing. */
  lemma {:induction false} TicketIsSimple(rules: Rules, st: State, tx: Transaction)
    requires tx.kind.GoldenTicket? && tx.data.Ticket? && tx.inputs == [] && tx.outputs == []
    ensures Simple(st, tx) && Takes(rules, st, tx) == 0 && UserOutput(tx) == 0 && NewFee(tx) == 0
  {
    assert Elements(Positive(tx.inputs)) * NextWindow(rules, st) == {};
  }

  /** A block with a ticket but without its fee transaction is accepted, and fifty nolan or more are gone. */
  lemma {:induction false} MissingFeeTransactionLoses(rules: Rules, period: nat, t: Currency) returns (b: Block)
    requires Standard(rules, period)
    ensures rules.Valid() && Reachable(rules, Start(t, BUSY)) && Legal(rules, Start(t, BUSY), b)
    ensures b.transactions == [TICKET]
    ensures TotalSupply(rules, Step(rules, Start(t, BUSY), b)) <= TotalSupply(rules, Start(t, BUSY)) - 50
  {
    StartIsReachable(rules, t, BUSY);
    StartCollects(rules, t, BUSY);
    TicketIsSimple(rules, Start(t, BUSY), TICKET);
    b := SuccessorSupply(rules, Start(t, BUSY), TICKET, 0);
    UnpaidTicket(rules, b, ContextAt(rules, Start(t, BUSY)), TICKET);
  }

  // ---------- a slip spent after it has expired ----------

  const LATE_SLIP := Slip(9, 9, 0, 5, 0, SlipType.Normal)
  const LATE := Move(TransactionType.Normal, OLD_SLIP, LATE_SLIP)

  lemma {:induction false} NoTreasury(rules: Rules, ctx: Context)
    requires PreviousTreasury(ctx) == 0
    ensures PayoutMultiplier(rules, ctx) == 1
  {
    var staked := rules.genesisPeriod * PreviousFigures(ctx).avgNolanRebroadcast;
    if staked > 0 { QuotientBounds(0, staked); }
  }

  lemma {:induction false} DustStep()
    ensures SingleStep(EMPTY_SCAN, OLD_TX, OLD_SLIP, Terms(211, 1)) == DustScan(10)
  {
  }

  lemma {:induction false} DustScanned(rules: Rules, st: State, b: Block)
    requires rules.genesisPeriod == 2 && Stage(st, 0, NO_FIGURES, 3, 578) && b.id == 4
    requires st.Tip().figures.avgFeePerByte == 1
    ensures RawScan(rules, b, ContextAt(rules, st)) == DustScan(10)
  {
    NoTreasury(rules, ContextAt(rules, st));
    StageThreeScan(rules, st, 0, NO_FIGURES, 578, b, Terms(211, 1));
    DustStep();
  }

  /** Block two pays two nolan per byte; at block four the fee for the old slip is more than it is worth. */
  lemma {:induction false} DustIsCollected(rules: Rules, st: State)
    requires rules.Valid() && rules.genesisPeriod == 2 && ThreeBlocks(rules, st, 0, NO_FIGURES, 422)
    ensures st.chain != [] && Collects(rules, st, 10)
  {
    StageIsDrawable(rules, st, 0, NO_FIGURES, 3, 578);
    RisingRate(rules, st.chain[1].figures, st.chain[2].figures);
    forall b: Block | b.id == 4 ensures RawScan(rules, b, ContextAt(rules, st)) == DustScan(10) {
      DustScanned(rules, st, b);
    }
  }

  lemma {:induction false} RisingRate(rules: Rules, f: Figures, h: Figures)
    requires rules.Valid() && rules.genesisPeriod == 2
    requires Follows(rules, NO_FIGURES, f, 422, 211, 0) && Follows(rules, f, h, 0, 211, 0)
    ensures h.avgFeePerByte == 1
  {
    assert 422 / 211 == 2;
    assert Smooth(0, 2, 2) == 1 && Smooth(1, 0, 2) == 1;
  }

  /** A slip of another block, and not of this utxoset, is not eligible. */
  lemma {:induction false} NothingEligible(tx: Transaction, p: Pricing)
    requires p.multiplier >= 1
    requires forall s | s in tx.outputs :: s.amount > 0 && !s.kind.Bound? && s !in p.utxo
    ensures ScanFrom(EMPTY_SCAN, [tx], 0, p) == EMPTY_SCAN
  {
    OneTransactionScan(tx, p);
    EligibleMembers(tx.outputs, p.utxo, 0);
    NoMembers(Eligible(tx.outputs, p.utxo, 0));
  }

  lemma {:induction false} NoMembers(slips: seq<Slip>)
    ensures slips == [] || slips[0] in slips
  {
  }

  /** When block two expires at block five, all it created is spent. */
  lemma {:induction false} NothingLeftOfBlockTwo(rules: Rules, st: State, amount: Currency)
    requires rules.Valid() && rules.genesisPeriod == 2 && Sound(st) && Stage(st, 0, NO_FIGURES, 4, amount)
    ensures Collects(rules, st, 0)
  {
    StageIsDrawable(rules, st, 0, NO_FIGURES, 4, amount);
    var txs := st.chain[1].transactions;
    assert Plain(st.chain[1]) && SoundBlock(st.chain[1], 1);
    assert txs == [txs[0]];
    OutputLocations(txs, 2, 0, 0);
    forall b: Block | b.id == 5 ensures RawScan(rules, b, ContextAt(rules, st)) == DustScan(0) {
      NothingEligible(txs[0], PricingFor(rules, ContextAt(rules, st)));
    }
  }

  lemma {:induction false} LateIsSimple(rules: Rules, st: State, amount: Currency)
    requires rules.genesisPeriod == 2 && Stage(st, 0, NO_FIGURES, 4, amount)
    ensures Simple(st, LATE) && Takes(rules, st, LATE) == 0 && Positive(LATE.inputs) == [OLD_SLIP]
    ensures UserOutput(LATE) == 9 && NewFee(LATE) == 1
  {
    MoveShape(TransactionType.Normal, OLD_SLIP, LATE_SLIP);
    assert Elements([OLD_SLIP]) * NextWindow(rules, st) == {};
  }

  lemma {:induction false} LateIsHonest(rules: Rules, utxo: set<Slip>)
    requires Standard(rules, 2) && OLD_SLIP in utxo
    ensures HonestUsers(rules, [LATE], utxo)
  {
    MoveShape(TransactionType.Normal, OLD_SLIP, LATE_SLIP);
  }

  /** The state after block four, which has collected the old slip as dust. */
  lemma {:induction false} DustyExists(rules: Rules) returns (st: State)
    requires Standard(rules, 2)
    ensures rules.Valid() && Reachable(rules, st) && Sound(st) && Stage(st, 0, NO_FIGURES, 4, 578)
    ensures st.Tip().figures.totalFees == 10
  {
    var s3 := ThreeBlocksExist(rules, 0, NO_FIGURES, 422);
    DustIsCollected(rules, s3);
    var b4 := NextStage(rules, s3, 0, NO_FIGURES, 3, 578, 578, 10);
    ReachableStep(rules, s3, b4);
    StepIsSound(rules, s3, b4);
    st := Step(rules, s3, b4);
  }

  /** An expired slip that was collected as dust can still be spent: its ten nolan count twice. */
  lemma {:induction false} ExpiredSlipCountsTwice(rules: Rules) returns (st: State, b: Block)
    requires Standard(rules, 2)
    ensures rules.Valid() && Reachable(rules, st) && Sound(st) && Legal(rules, st, b)
    ensures b.transactions == [LATE] && HonestUsers(rules, b.transactions, st.utxo)
    ensures TotalSupply(rules, Step(rules, st, b)) == TotalSupply(rules, st) + 10
  {
    st := DustyExists(rules);
    NothingLeftOfBlockTwo(rules, st, 578);
    LateIsSimple(rules, st, 578);
    b := SuccessorSupply(rules, st, LATE, 0);
    NoTicketFees(rules, b, ContextAt(rules, st), LATE);
    LateIsHonest(rules, st.utxo);
  }
}
