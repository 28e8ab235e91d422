/** Whole runs of accepted blocks: conservation of the supply and of the fees. */
module Runs {
  import opened Sums
  import opened Types
  import opened Utxo
  import opened Rebroadcast
  import opened Payouts
  import opened Consensus
  import opened Validation
  import opened Supply
  import opened Conservation
  import opened Creation
  import opened Agreement

  function RunOf(rules: Rules, st: State, bs: seq<Block>): State
    decreases bs
  {
    if bs == [] then st else RunOf(rules, Step(rules, st, bs[0]), bs[1..])
  }

  /** Every block of the run is legal on top of the ones before it. */
  ghost predicate LegalRun(rules: Rules, st: State, bs: seq<Block>)
    requires rules.Valid() && st.chain != []
    decreases bs
  {
    bs == [] || (Legal(rules, st, bs[0]) && LegalRun(rules, Step(rules, st, bs[0]), bs[1..]))
  }

  /** The sum of the drifts of the blocks of a run. */
  ghost function RunDrift(rules: Rules, st: State, bs: seq<Block>): int
    requires rules.Valid() && st.chain != [] && LegalRun(rules, st, bs)
    decreases bs
  {
    if bs == [] then 0
    else BlockDrift(rules, st, bs[0]) + RunDrift(rules, Step(rules, st, bs[0]), bs[1..])
  }

  /** After every run the supply is the initial one plus the drifts, so it is unchanged iff they cancel. */
  lemma {:induction false} SupplyOverRun(rules: Rules, st: State, bs: seq<Block>)
    requires rules.Valid() && Sound(st) && LegalRun(rules, st, bs)
    ensures Sound(RunOf(rules, st, bs))
    ensures TotalSupply(rules, RunOf(rules, st, bs)) == TotalSupply(rules, st) + RunDrift(rules, st, bs)
    decreases bs
  {
    if bs != [] {
      StepIsSound(rules, st, bs[0]);
      SupplyStep(rules, st, bs[0]);
      SupplyOverRun(rules, Step(rules, st, bs[0]), bs[1..]);
    }
  }

  /** Legal blocks, one after the other, lead to this state from a genesis block, whose header is not compared. */
  ghost predicate Reaches(rules: Rules, g: Block, bs: seq<Block>, st: State)
    requires rules.Valid()
    decreases |bs|
  {
    if bs == [] then GenesisBlock(g) && st == State([g], Wind({}, g.transactions))
    else
      var (front, b) := (bs[..|bs| - 1], bs[|bs| - 1]);
      exists before: State ::
        && Reaches(rules, g, front, before) && before.chain != []
        && Legal(rules, before, b) && st == Step(rules, before, b)
  }

  ghost predicate Reachable(rules: Rules, st: State)
    requires rules.Valid()
  {
    exists g, bs :: Reaches(rules, g, bs, st)
  }

  lemma {:induction false} ReachesSound(rules: Rules, g: Block, bs: seq<Block>, st: State)
    requires rules.Valid() && Reaches(rules, g, bs, st)
    ensures Sound(st)
    decreases |bs|
  {
    if bs == [] {
      GenesisIsSound(g);
    } else {
      var (front, b) := (bs[..|bs| - 1], bs[|bs| - 1]);
      var before :| Reaches(rules, g, front, before) && before.chain != [] && Legal(rules, before, b)
        && st == Step(rules, before, b);
      ReachesSound(rules, g, front, before);
      StepIsSound(rules, before, b);
    }
  }

  lemma {:induction false} ReachableIsSound(rules: Rules, st: State)
    requires rules.Valid() && Reachable(rules, st)
    ensures Sound(st)
  {
    var g, bs :| Reaches(rules, g, bs, st);
    ReachesSound(rules, g, bs, st);
  }

  /** No slip is older than two genesis periods. */
  ghost predicate Recent(rules: Rules, st: State) {
    forall s | s in st.utxo :: s.blockId + 2 * rules.genesisPeriod > |st.chain|
  }

  lemma {:induction false} StepStaysRecent(rules: Rules, st: State, b: Block)
    requires rules.Valid() && Sound(st) && SoundBlock(b, |st.chain|) && Recent(rules, st)
    ensures Recent(rules, Step(rules, st, b))
  {
    var (next, period) := (Step(rules, st, b), rules.genesisPeriod);
    forall s | s in next.utxo ensures s.blockId + 2 * period > |next.chain| {
      WindMembers(st.utxo, b.transactions, s);
      if s in Created(b.transactions) {
        CreatedLocations(b.transactions, b.id, 0, s);
      } else if s.blockId + 2 * period == |next.chain| {
        assert SoundSlip(st.chain, s) && next.chain[s.blockId - 1] == st.chain[s.blockId - 1];
        CreatedMembers(st.chain[s.blockId - 1].transactions, s);
        assert false;
      }
    }
  }

  lemma {:induction false} ReachesRecent(rules: Rules, g: Block, bs: seq<Block>, st: State)
    requires rules.Valid() && Reaches(rules, g, bs, st)
    ensures Recent(rules, st)
    decreases |bs|
  {
    if bs == [] {
      GenesisIsSound(g);
    } else {
      var (front, b) := (bs[..|bs| - 1], bs[|bs| - 1]);
      var before :| Reaches(rules, g, front, before) && before.chain != [] && Legal(rules, before, b)
        && st == Step(rules, before, b);
      ReachesSound(rules, g, front, before);
      ReachesRecent(rules, g, front, before);
      StepStaysRecent(rules, before, b);
    }
  }

  /** A reachable utxoset holds only slips of the last two genesis periods: what is older has been purged. */
  lemma {:induction false} ReachableIsRecent(rules: Rules, st: State)
    requires rules.Valid() && Reachable(rules, st)
    ensures Recent(rules, st)
  {
    var g, bs :| Reaches(rules, g, bs, st);
    ReachesRecent(rules, g, bs, st);
  }

  /** One more legal block leads from a reachable state to a reachable state. */
  lemma {:induction false} ReachableStep(rules: Rules, st: State, b: Block)
    requires rules.Valid() && Reachable(rules, st) && st.chain != [] && Legal(rules, st, b)
    ensures Reachable(rules, Step(rules, st, b))
  {
    var g, bs :| Reaches(rules, g, bs, st);
    ReachesStep(rules, g, bs, st, b, bs + [b]);
  }

  lemma {:induction false} ReachesStep(rules: Rules, g: Block, bs: seq<Block>, st: State, b: Block, more: seq<Block>)
    requires rules.Valid() && Reaches(rules, g, bs, st) && st.chain != [] && Legal(rules, st, b) && more == bs + [b]
    ensures Reaches(rules, g, more, Step(rules, st, b))
  {
    assert more[..|more| - 1] == bs && more[|more| - 1] == b;
  }

  /** And so does any run of legal blocks. */
  lemma {:induction false} RunsStayReachable(rules: Rules, st: State, bs: seq<Block>)
    requires rules.Valid() && Reachable(rules, st) && st.chain != [] && LegalRun(rules, st, bs)
    ensures Reachable(rules, RunOf(rules, st, bs))
    decreases bs
  {
    if bs != [] {
      ReachableStep(rules, st, bs[0]);
      RunsStayReachable(rules, Step(rules, st, bs[0]), bs[1..]);
    }
  }

  // ---------- ordinary runs ----------

  ghost predicate OrdinaryRun(rules: Rules, st: State, bs: seq<Block>)
    requires rules.Valid() && st.chain != [] && LegalRun(rules, st, bs)
    decreases bs
  {
    bs == [] || (Ordinary(rules, st, bs[0]) && OrdinaryRun(rules, Step(rules, st, bs[0]), bs[1..]))
  }

  /** No block of the chain names a slip of a later one. */
  ghost predicate BackwardChain(chain: seq<Block>) {
    forall i :: 0 <= i < |chain| ==> LooksBack(chain[i])
  }

  lemma {:induction false} OrdinaryStep(rules: Rules, st: State, b: Block)
    requires rules.Valid() && Sound(st) && Legal(rules, st, b) && Ordinary(rules, st, b) && BackwardChain(st.chain)
    ensures Sound(Step(rules, st, b)) && BackwardChain(Step(rules, st, b).chain) && BlockDrift(rules, st, b) == 0
  {
    StepIsSound(rules, st, b);
    OrdinaryBlockDrift(rules, st, b);
  }

  lemma {:induction false} OrdinaryRunDrift(rules: Rules, st: State, bs: seq<Block>)
    requires rules.Valid() && Sound(st) && LegalRun(rules, st, bs) && OrdinaryRun(rules, st, bs)
    requires BackwardChain(st.chain)
    ensures RunDrift(rules, st, bs) == 0
    decreases bs
  {
    if bs != [] {
      OrdinaryStep(rules, st, bs[0]);
      OrdinaryRunDrift(rules, Step(rules, st, bs[0]), bs[1..]);
    }
  }

  /**
   * The supply check of the node can never fire on a run of ordinary blocks, however long, with or
   * without golden tickets and whatever the treasury pays for rebroadcasts.
   */
  lemma {:induction false} SupplyIsConstant(rules: Rules, st: State, bs: seq<Block>)
    requires rules.Valid() && Sound(st) && LegalRun(rules, st, bs) && OrdinaryRun(rules, st, bs)
    requires BackwardChain(st.chain)
    ensures RunOf(rules, st, bs).chain != []
    ensures TotalSupply(rules, RunOf(rules, st, bs)) == TotalSupply(rules, st)
  {
    SupplyOverRun(rules, st, bs);
    OrdinaryRunDrift(rules, st, bs);
  }

  const MAX_TOKEN_SUPPLY: nat := 7_000_000_000 * 100_000_000

  /**
   * Consequently no amount of the tip, and no slip in the window, ever exceeds the initial supply; with
   * the maximal issuance all of them, and their sum, fit a u64.
   */
  lemma {:induction false} AmountsStayBounded(rules: Rules, st: State, bs: seq<Block>)
    requires rules.Valid() && Sound(st) && LegalRun(rules, st, bs) && OrdinaryRun(rules, st, bs)
    requires BackwardChain(st.chain)
    requires TotalSupply(rules, st) <= MAX_TOKEN_SUPPLY
    ensures var last := RunOf(rules, st, bs);
      && last.chain != []
      && TotalSupply(rules, last) < 0x1_0000_0000_0000_0000
      && last.Tip().treasury + last.Tip().graveyard + last.Tip().figures.totalFees <= MAX_TOKEN_SUPPLY
      && forall s | s in Window(last.utxo, Floor(rules, last.Tip().id)) :: s.amount <= MAX_TOKEN_SUPPLY
  {
    SupplyIsConstant(rules, st, bs);
    var last := RunOf(rules, st, bs);
    var window := Window(last.utxo, Floor(rules, last.Tip().id));
    forall s | s in window ensures s.amount <= MAX_TOKEN_SUPPLY {
      Remove(window, Value, s);
    }
  }

  // ---------- fees ----------

  ghost function TotalDisbursed(rules: Rules, st: State, bs: seq<Block>): nat
    requires rules.Valid() && st.chain != [] && LegalRun(rules, st, bs)
    decreases bs
  {
    if bs == [] then 0 else Disbursed(bs[0]) + TotalDisbursed(rules, Step(rules, st, bs[0]), bs[1..])
  }

  ghost function FeeDrifts(rules: Rules, st: State, bs: seq<Block>): int
    requires rules.Valid() && st.chain != [] && LegalRun(rules, st, bs)
    decreases bs
  {
    if bs == [] then 0
    else FeeDrift(rules, bs[0], ContextAt(rules, st)) + FeeDrifts(rules, Step(rules, st, bs[0]), bs[1..])
  }

  function FeesCollected(bs: seq<Block>): nat {
    if bs == [] then 0 else bs[0].figures.totalFees + FeesCollected(bs[1..])
  }

  /**
   * Over every run, fees collected are fees disbursed plus those of the last blocks that are still due,
   * up to the drift of the fee transactions.
   */
  lemma {:induction false} FeesAreConserved(rules: Rules, st: State, bs: seq<Block>)
    requires rules.Valid() && Sound(st) && LegalRun(rules, st, bs)
    ensures RunOf(rules, st, bs).chain != []
    ensures var (first, last) := (st.Tip(), RunOf(rules, st, bs).Tip());
      first.previousUnpaid + first.figures.totalFees + FeesCollected(bs) + FeeDrifts(rules, st, bs) ==
      TotalDisbursed(rules, st, bs) + last.previousUnpaid + last.figures.totalFees
    decreases bs
  {
    if bs != [] {
      StepIsSound(rules, st, bs[0]);
      BlockSettles(rules, st, bs[0]);
      FeesAreConserved(rules, Step(rules, st, bs[0]), bs[1..]);
    }
  }

  /**
   * The fees of a block are settled exactly once, by the next block if that has a golden ticket and
   * otherwise by the one after it, ticket or not. The drift of the fee transactions comes on top.
   */
  lemma {:induction false} SettledWithinTwoBlocks(rules: Rules, st: State, b1: Block, b2: Block)
    requires rules.Valid() && Sound(st) && LegalRun(rules, st, [b1, b2])
    ensures Readable(b1, ContextAt(rules, st)) && Readable(b2, ContextAt(rules, Step(rules, st, b1)))
    ensures var drift1 := FeeDrift(rules, b1, ContextAt(rules, st));
      var drift2 := FeeDrift(rules, b2, ContextAt(rules, Step(rules, st, b1)));
      if HasGoldenTicket(b1.transactions) then
        && Disbursed(b1) == st.Tip().previousUnpaid + st.Tip().figures.totalFees + drift1
        && Disbursed(b2) == (if HasGoldenTicket(b2.transactions) then b1.figures.totalFees else 0) + drift2
      else
        && Disbursed(b1) == st.Tip().previousUnpaid + drift1
        && Disbursed(b2) == st.Tip().figures.totalFees
             + (if HasGoldenTicket(b2.transactions) then b1.figures.totalFees else 0) + drift2
  {
    assert [b1, b2][1..] == [b2];
    StepIsSound(rules, st, b1);
    BlockSettles(rules, st, b1);
    BlockSettles(rules, Step(rules, st, b1), b2);
  }

  // ---------- blocks that create builds ----------

  /** `create` finds no double spend and returns a block. */
  ghost predicate Succeeds(rules: Rules, o: Order, ctx: Context)
    requires rules.Valid() && Readable(Draft(o, ctx), ctx)
  {
    NoRepeats(Spent(NotFees(AllTransactions(o, ConsensusOf(rules, Draft(o, ctx), ctx)))))
  }

  /** The check of `validate` enters no slip that `create` did not enter. */
  lemma {:induction false} EntriesAreSpent(rules: Rules, txs: seq<Transaction>, utxo: set<Slip>)
    requires NoRepeats(Spent(NotFees(txs)))
    ensures NoRepeats(Entries(rules, txs, utxo))
    ensures forall s | s in Entries(rules, txs, utxo) :: s in Spent(NotFees(txs))
  {
    if txs != [] {
      var (first, rest) := (txs[0], txs[1..]);
      var spent := if first.kind.Fee? then [] else Positive(first.inputs);
      var entries := if Entered(rules, first, utxo) then Looked(first.inputs) else [];
      SpentConcat(if first.kind.Fee? then [] else [first], NotFees(rest));
      assert Spent([first]) == Positive(first.inputs) by { assert [first][1..] == []; }
      assert Spent(NotFees(txs)) == spent + Spent(NotFees(rest));
      NoRepeatsSplit(spent, Spent(NotFees(rest)));
      EntriesAreSpent(rules, rest, utxo);
      LookedArePositive(first.inputs);
      NoRepeatsConcat(entries, Entries(rules, rest, utxo));
    }
  }

  lemma {:induction false} LookedArePositive(slips: seq<Slip>)
    ensures NoRepeats(Positive(slips)) ==> NoRepeats(Looked(slips))
    ensures forall s | s in Looked(slips) :: s in Positive(slips)
  {
    if slips != [] {
      var (s, rest) := (slips[0], slips[1..]);
      LookedArePositive(rest);
      if NoRepeats(Positive(slips)) {
        NoRepeatsSplit(if s.amount > 0 then [s] else [], Positive(rest));
        NoRepeatsConcat(if s.amount > 0 && !s.kind.Bound? then [s] else [], Looked(rest));
      }
    }
  }

  lemma {:induction false} StampedNotFees(txs: seq<Transaction>, r: seq<Transaction>)
    requires |r| == |txs| && forall i :: 0 <= i < |r| ==> r[i].inputs == txs[i].inputs && r[i].kind == txs[i].kind
    ensures Spent(NotFees(r)) == Spent(NotFees(txs))
  {
    if txs != [] {
      StampedNotFees(txs[1..], r[1..]);
      SpentConcat(if r[0].kind.Fee? then [] else [r[0]], NotFees(r[1..]));
      SpentConcat(if txs[0].kind.Fee? then [] else [txs[0]], NotFees(txs[1..]));
      assert Spent([r[0]]) == Spent([txs[0]]) by { assert [r[0]][1..] == [] && [txs[0]][1..] == []; }
    }
  }

  /** How stamped blocks fare in the checks of `validate` that do not concern values. */
  lemma {:induction false} StampedIsEntered(rules: Rules, o: Order, b: Block, cv: ConsensusValues, utxo: set<Slip>)
    requires b.transactions == Stamped(AllTransactions(o, cv), b.id) && ProperAdditions(cv)
    requires NoRepeats(Spent(NotFees(AllTransactions(o, cv))))
    ensures NoDoubleSpend(rules, b.transactions, utxo)
    ensures (forall tx | tx in b.transactions :: !tx.kind.Issuance?) <==>
      Without(Submitted(o), TransactionType.Issuance)
  {
    var all := AllTransactions(o, cv);
    StampedNotFees(all, b.transactions);
    EntriesAreSpent(rules, b.transactions, utxo);
    if Without(Submitted(o), TransactionType.Issuance) {
      forall tx | tx in b.transactions ensures !tx.kind.Issuance? {
        var i :| 0 <= i < |all| && tx == b.transactions[i];
        assert all[i] in Submitted(o) || all[i] in cv.rebroadcasts || Some(all[i]) == cv.feeTransaction;
      }
    } else {
      var i :| 0 <= i < |Submitted(o)| && Submitted(o)[i].kind.Issuance?;
      assert all[i] == Submitted(o)[i] && b.transactions[i] in b.transactions;
    }
  }

  lemma {:induction false} CreatedBlockIsSound(rules: Rules, st: State, o: Order)
    requires rules.Valid() && Sound(st)
    requires Readable(Draft(o, ContextAt(rules, st)), ContextAt(rules, st)) && Numbered(Submitted(o))
    ensures SoundBlock(Finished(rules, o, ContextAt(rules, st)), |st.chain|)
  {
    assert SoundBlock(st.Tip(), |st.chain| - 1);
    CreatedBlockIsWellBuilt(rules, o, ContextAt(rules, st));
  }

  /**
   * A block that `create` returns is a legal step exactly when it is not empty, the caps agree, neither
   * rebroadcasts nor issuance were submitted and, should a rebroadcast payout be owed, none pays a fee.
   */
  lemma {:induction false} CreatedBlockIsLegal(rules: Rules, st: State, o: Order)
    requires rules.Valid() && Sound(st)
    requires var ctx := ContextAt(rules, st);
      Readable(Draft(o, ctx), ctx) && ProperOrder(o) && Numbered(Submitted(o)) && Succeeds(rules, o, ctx)
    ensures var ctx := ContextAt(rules, st);
      Legal(rules, st, Finished(rules, o, ctx)) <==>
      && Acceptable(rules, o, ctx) && Without(Submitted(o), TransactionType.Issuance)
      && AllTransactions(o, ConsensusOf(rules, Draft(o, ctx), ctx)) != []
  {
    var ctx := ContextAt(rules, st);
    CreatedBlockIsSound(rules, st, o);
    CreatedBlockValidates(rules, o, ctx);
    DraftAdditions(rules, Draft(o, ctx), ctx);
    StampedIsEntered(rules, o, Finished(rules, o, ctx), ConsensusOf(rules, Draft(o, ctx), ctx), st.utxo);
  }

  /** What a created block mints: the outputs of the fee transactions that were submitted with it. */
  lemma {:induction false} CreatedBlockMints(rules: Rules, o: Order, ctx: Context)
    requires rules.Valid() && Readable(Draft(o, ctx), ctx)
    ensures Readable(Finished(rules, o, ctx), ctx)
    ensures FeeDrift(rules, Finished(rules, o, ctx), ctx) ==
      Along(OfKind(Submitted(o), TransactionType.Fee), OutputValue)
  {
    FinishedIsReadable(rules, o, ctx);
    FinishedContents(rules, o, ctx);
    WinningsAreExpected(rules, Finished(rules, o, ctx), ctx);
  }
}
