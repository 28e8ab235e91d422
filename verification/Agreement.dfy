/** When a block returned by `create` passes the value checks of `validate` in the same chain state. */
module Agreement {
  import opened Sums
  import opened Types
  import opened Smoothing
  import opened Utxo
  import opened Rebroadcast
  import opened Expiry
  import opened Payouts
  import opened Consensus
  import opened Validation
  import opened Creation

  /** The ticket handed to `create`, if any, is the only golden ticket. */
  predicate ProperOrder(o: Order) {
    && (o.ticket.Some? ==> o.ticket.value.kind.GoldenTicket? && o.ticket.value.data.Ticket?)
    && forall tx | tx in o.transactions :: !tx.kind.GoldenTicket?
  }

  // ---------- stamping changes no figure ----------

  lemma {:induction false} StampedFigures(tx: Transaction, blockId: nat, i: nat)
    ensures var r := tx.(outputs := Located(tx.outputs, blockId, i));
      NewFee(r) == NewFee(tx) && NewBytes(r) == NewBytes(tx)
  {
    LocatedValues(tx.outputs, blockId, i);
  }

  /** Transaction by transaction the same kind, data and counted figures. */
  ghost predicate SameTallies(a: seq<Transaction>, b: seq<Transaction>) {
    |a| == |b| && forall i :: 0 <= i < |a| ==>
      && a[i].kind == b[i].kind && a[i].data == b[i].data
      && NewFee(a[i]) == NewFee(b[i]) && NewBytes(a[i]) == NewBytes(b[i])
  }

  lemma {:induction false} StampedTallies(txs: seq<Transaction>, blockId: nat)
    ensures SameTallies(Stamped(txs, blockId), txs)
  {
    forall i | 0 <= i < |txs|
      ensures var r := Stamped(txs, blockId)[i]; NewFee(r) == NewFee(txs[i]) && NewBytes(r) == NewBytes(txs[i])
    {
      StampedFigures(txs[i], blockId, OrdinalOf(txs, i));
    }
  }

  lemma {:induction false} SameTalliesSums(a: seq<Transaction>, b: seq<Transaction>)
    requires SameTallies(a, b)
    ensures Along(a, NewFee) == Along(b, NewFee) && Along(a, NewBytes) == Along(b, NewBytes)
  {
    if a != [] { SameTalliesSums(a[1..], b[1..]); }
  }

  lemma {:induction false} SameTalliesLast(a: seq<Transaction>, b: seq<Transaction>, kind: TransactionType)
    requires SameTallies(a, b)
    ensures LastOf(a, kind) == LastOf(b, kind)
  {
    if a != [] { SameTalliesLast(a[..|a| - 1], b[..|b| - 1], kind); }
  }

  lemma {:induction false} ProtocolTransactionsCountNothing(txs: seq<Transaction>)
    requires forall tx | tx in txs :: tx.kind.ATR? || tx.kind.Fee?
    ensures Along(txs, NewFee) == 0 && Along(txs, NewBytes) == 0
  {
    if txs != [] {
      assert txs[0] in txs;
      ProtocolTransactionsCountNothing(txs[1..]);
    }
  }

  // ---------- rebroadcasts are ATR transactions ----------

  /** Few outputs, so numbered that stamping the transaction does not change what is signed. */
  ghost predicate Restampable(tx: Transaction) {
    |tx.outputs| <= 3 && forall i :: 0 <= i < |tx.outputs| ==> tx.outputs[i].slipIndex == i % 256
  }

  lemma {:induction false} ProcessKinds(acc: Scan, tx: Transaction, outputs: seq<Slip>, j: nat, t: Terms)
    requires t.multiplier >= 1 && j <= |outputs| && forall r | r in acc.rebroadcasts :: Restampable(r) && r.kind.ATR?
    ensures forall r | r in Process(acc, tx, outputs, j, t).rebroadcasts :: Restampable(r) && r.kind.ATR?
    decreases |outputs| - j
  {
    if j == |outputs| {
    } else if GroupAt(outputs, j) {
      ProcessKinds(GroupStep(acc, tx, outputs[j], outputs[j + 1], outputs[j + 2], t), tx, outputs, j + 3, t);
    } else {
      ProcessKinds(SingleStep(acc, tx, outputs[j], t), tx, outputs, j + 1, t);
    }
  }

  lemma {:induction false} ScanKinds(acc: Scan, txs: seq<Transaction>, k: nat, p: Pricing)
    requires p.multiplier >= 1 && k <= |txs| && forall r | r in acc.rebroadcasts :: Restampable(r) && r.kind.ATR?
    ensures forall r | r in ScanFrom(acc, txs, k, p).rebroadcasts :: Restampable(r) && r.kind.ATR?
    decreases |txs| - k
  {
    if k < |txs| {
      var outputs := Eligible(txs[k].outputs, p.utxo, 0);
      ProcessKinds(acc, txs[k], outputs, 0, TermsFor(p, txs[k]));
      ScanKinds(Process(acc, txs[k], outputs, 0, TermsFor(p, txs[k])), txs, k + 1, p);
    }
  }

  lemma {:induction false} RawScanKinds(rules: Rules, b: Block, ctx: Context)
    ensures forall r | r in RawScan(rules, b, ctx).rebroadcasts :: Restampable(r) && r.kind.ATR?
  {
    if Rebroadcasting(rules, b, ctx) {
      ScanKinds(EMPTY_SCAN, ctx.expiring.value.transactions, 0, PricingFor(rules, ctx));
    }
  }

  lemma {:induction false} DraftRebroadcastKinds(rules: Rules, o: Order, ctx: Context)
    requires rules.Valid() && Readable(Draft(o, ctx), ctx)
    ensures forall r | r in ConsensusOf(rules, Draft(o, ctx), ctx).rebroadcasts :: r.kind.ATR?
  {
    RawScanKinds(rules, Draft(o, ctx), ctx);
    RawScanHasPayloads(rules, Draft(o, ctx), ctx);
  }

  // ---------- the tally and the payouts of the finished block ----------

  lemma {:induction false} FinishedTally(rules: Rules, o: Order, ctx: Context)
    requires rules.Valid() && Readable(Draft(o, ctx), ctx)
    ensures var (t, t0) := (TallyOf(Finished(rules, o, ctx).transactions), TallyOf(Submitted(o)));
      t.feesNew == t0.feesNew && t.bytesNew == t0.bytesNew && t.ticket == t0.ticket
  {
    var cv := ConsensusOf(rules, Draft(o, ctx), ctx);
    var all := AllTransactions(o, cv);
    var more := cv.rebroadcasts + if cv.feeTransaction.Some? then [cv.feeTransaction.value] else [];
    DraftRebroadcastKinds(rules, o, ctx);
    TallyWithMore(Submitted(o), more, Draft(o, ctx).id);
    assert all == Submitted(o) + more;
  }

  lemma {:induction false} TallyWithMore(txs: seq<Transaction>, more: seq<Transaction>, blockId: nat)
    requires forall tx | tx in more :: tx.kind.ATR? || tx.kind.Fee?
    ensures var (t, t0) := (TallyOf(Stamped(txs + more, blockId)), TallyOf(txs));
      t.feesNew == t0.feesNew && t.bytesNew == t0.bytesNew && t.ticket == t0.ticket
  {
    var r := Stamped(txs + more, blockId);
    StampedTallies(txs + more, blockId);
    SameTalliesSums(r, txs + more);
    SameTalliesLast(r, txs + more, TransactionType.GoldenTicket);
    AlongConcat(txs, more, NewFee);
    AlongConcat(txs, more, NewBytes);
    ProtocolTransactionsCountNothing(more);
    LastOfAppend(txs, more, TransactionType.GoldenTicket);
  }

  /** Two payouts that differ only in the ordinals written into the winners' slips. */
  ghost predicate SamePayouts(a: Payouts, b: Payouts) {
    && a.miner == b.miner && a.router1 == b.router1 && a.router2 == b.router2
    && a.treasury == b.treasury && a.graveyard == b.graveyard
    && Unlocated(a.winners) == Unlocated(b.winners)
  }

  lemma {:induction false} SlipsIgnoreOrdinal(shares: Shares, solver: PublicKey, blockId: nat, o1: nat, o2: nat)
    ensures Unlocated(WinnerSlips(shares, solver, blockId, o1)) == Unlocated(WinnerSlips(shares, solver, blockId, o2))
  {
  }

  lemma {:induction false} PayoutsIgnoreOrdinal(
    rules: Rules, ctx: Context, ticket: Option<Payload>, blockId: nat, o1: nat, o2: nat)
    requires ctx.Drawable() && (ticket.Some? ==> ticket.value.Ticket?)
    ensures SamePayouts(PayoutsFor(rules, ctx, ticket, blockId, o1), PayoutsFor(rules, ctx, ticket, blockId, o2))
  {
    if ticket.Some? && ctx.previous.Some? {
      SlipsIgnoreOrdinal(SharesOf(rules, ctx, ticket.value), ticket.value.solver, blockId, o1, o2);
    }
  }

  lemma {:induction false} SlipsAreNumbered(s: Shares, solver: PublicKey, blockId: nat, ordinal: nat)
    ensures var w := WinnerSlips(s, solver, blockId, ordinal);
      |w| <= 3 && forall i :: 0 <= i < |w| ==> w[i].slipIndex == i && !w[i].kind.Bound?
  {
  }

  /** The winners' slips are numbered from zero, as stamping numbers them. */
  lemma {:induction false} WinnersAreNumbered(rules: Rules, ctx: Context, ticket: Payload, blockId: nat, ordinal: nat)
    requires ctx.Drawable() && ticket.Ticket?
    ensures var w := TicketPayouts(rules, ctx, ticket, blockId, ordinal).winners;
      |w| <= 3 && forall i :: 0 <= i < |w| ==> w[i].slipIndex == i && !w[i].kind.Bound?
  {
    if ctx.previous.Some? { SlipsAreNumbered(SharesOf(rules, ctx, ticket), ticket.solver, blockId, ordinal); }
  }

  // ---------- agreement on the figures ----------

  /** Figures agree exactly when the scans behind them agree on fees and payout. */
  lemma {:induction false} FiguresAgree(
    rules: Rules, a: Block, b: Block, ctx: Context, ta: Tally, tb: Tally, raw: Scan, sa: Scan, sb: Scan,
    pa: Payouts, pb: Payouts)
    requires rules.Valid() && raw.dust <= raw.fees && SamePayouts(pa, pb) && a.timestamp == b.timestamp
    requires ta.feesNew == tb.feesNew && ta.bytesNew == tb.bytesNew && ta.ticket == tb.ticket
    requires ctx.previous.None? ==>
      a.figures.burnfee == b.figures.burnfee && a.figures.difficulty == b.figures.difficulty
    ensures FiguresOf(rules, a, ctx, ta, raw, sa, pa) == FiguresOf(rules, b, ctx, tb, raw, sb, pb)
      <==> sa.fees == sb.fees && sa.payout == sb.payout
  {
  }

  /** The cap yields the same fees and payout at treasury zero and at treasury `t`. */
  predicate CapsAgree(rules: Rules, treasury: Currency, raw: Scan) {
    raw.payout == 0
    || (rules.treasuryShare(treasury) < raw.payout && rules.treasuryShare(treasury) < raw.nolan)
  }

  lemma {:induction false} RescaledPayoutPositive(txs: seq<Transaction>, multiplier: nat)
    requires multiplier >= 1 && txs != []
    requires forall tx | tx in txs :: HasPayload(tx) && tx.inputs[PayloadIndex(tx)].amount > 0
    ensures RescaledPayout(txs, multiplier) == 0 <==> multiplier == 1
  {
    var amount := txs[0].inputs[PayloadIndex(txs[0])].amount;
    assert txs[0] in txs;
    if multiplier > 1 {
      assert amount * (multiplier - 1) > 0;
    } else {
      RescalingByOne(txs);
    }
  }

  lemma {:induction false} ScansAgree(rules: Rules, a: Block, b: Block, raw: Scan)
    requires rules.Valid() && a.treasury == 0 && PaidForNolan(raw)
    requires raw.payout > 0 ==> raw.rebroadcasts != []
    ensures var (sa, sb) := (CappedScan(rules, a, raw), CappedScan(rules, b, raw));
      sa.fees == sb.fees && sa.payout == sb.payout <==> CapsAgree(rules, b.treasury, raw)
  {
    if raw.payout > 0 {
      var share := rules.treasuryShare(b.treasury);
      RescalingByOne(raw.rebroadcasts);
      RescaledPayoutPositive(raw.rebroadcasts, 1 + share / raw.nolan);
      SmallQuotient(share, raw.nolan);
    }
  }

  lemma {:induction false} SmallQuotient(a: nat, n: nat)
    requires n > 0
    ensures a / n == 0 <==> a < n
  {
    QuotientBounds(a, n);
  }

  /** The order's ticket is what the finished block's ticket index points at. */
  lemma {:induction false} TicketIndex(o: Order)
    requires ProperOrder(o)
    ensures LastOf(Submitted(o), TransactionType.GoldenTicket).Some? <==> o.ticket.Some?
  {
    LastOfExists(Submitted(o), TransactionType.GoldenTicket);
    if o.ticket.Some? {
      assert Submitted(o)[0].kind.GoldenTicket?;
    } else {
      assert forall i :: 0 <= i < |Submitted(o)| ==> Submitted(o)[i] in o.transactions;
    }
  }

  lemma {:induction false} StampedTickets(user: seq<Transaction>, more: seq<Transaction>, blockId: nat)
    requires forall tx | tx in user :: tx.kind.GoldenTicket? ==> tx.data.Ticket?
    requires forall tx | tx in more :: tx.kind.ATR? || tx.kind.Fee?
    ensures forall tx | tx in Stamped(user + more, blockId) :: tx.kind.GoldenTicket? ==> tx.data.Ticket?
  {
    forall tx | tx in Stamped(user + more, blockId) && tx.kind.GoldenTicket? ensures tx.data.Ticket? {
      var i :| 0 <= i < |user + more| && tx == Stamped(user + more, blockId)[i];
      assert (user + more)[i] in user;
    }
  }

  lemma {:induction false} FinishedIsReadable(rules: Rules, o: Order, ctx: Context)
    requires rules.Valid() && Readable(Draft(o, ctx), ctx)
    ensures Readable(Finished(rules, o, ctx), ctx)
  {
    var cv := ConsensusOf(rules, Draft(o, ctx), ctx);
    var more := cv.rebroadcasts + if cv.feeTransaction.Some? then [cv.feeTransaction.value] else [];
    DraftRebroadcastKinds(rules, o, ctx);
    StampedTickets(Submitted(o), more, Draft(o, ctx).id);
    assert AllTransactions(o, cv) == Submitted(o) + more;
  }

  /** Two blocks at the same height whose tallies agree and whose golden tickets carry the same data. */
  ghost predicate SameInputs(a: Block, b: Block) {
    var (ta, tb) := (TallyOf(a.transactions), TallyOf(b.transactions));
    && a.id == b.id && a.timestamp == b.timestamp
    && ta.feesNew == tb.feesNew && ta.bytesNew == tb.bytesNew && ta.ticket == tb.ticket
    && TicketOf(a.transactions) == TicketOf(b.transactions)
  }

  /** The figures of a draft and of a block with the same inputs, computed at different treasuries. */
  lemma {:induction false} ConsensusAgrees(rules: Rules, a: Block, b: Block, ctx: Context)
    requires rules.Valid() && Readable(a, ctx) && Readable(b, ctx) && SameInputs(a, b) && a.treasury == 0
    requires ctx.previous.None? ==>
      a.figures.burnfee == b.figures.burnfee && a.figures.difficulty == b.figures.difficulty
    ensures ConsensusOf(rules, a, ctx).figures == ConsensusOf(rules, b, ctx).figures <==>
      CapsAgree(rules, b.treasury, RawScan(rules, a, ctx))
  {
    var (ta, tb) := (TallyOf(a.transactions), TallyOf(b.transactions));
    var raw := RawScan(rules, a, ctx);
    PayoutsIgnoreOrdinal(rules, ctx, TicketOf(a.transactions), a.id, ta.nonFee + 1, tb.nonFee + 1);
    RawScanHasPayloads(rules, a, ctx);
    RawScanDust(rules, a, ctx);
    RawPayoutNeedsNolan(rules, a, ctx);
    ScansAgree(rules, a, b, raw);
    assert RawScan(rules, b, ctx) == raw;
    FiguresAgree(rules, a, b, ctx, ta, tb, raw, CappedScan(rules, a, raw), CappedScan(rules, b, raw),
      PayoutsOf(rules, a, ctx, ta), PayoutsOf(rules, b, ctx, tb));
  }

  lemma {:induction false} FinishedInputs(rules: Rules, o: Order, ctx: Context)
    requires rules.Valid() && Readable(Draft(o, ctx), ctx)
    ensures SameInputs(Draft(o, ctx), Finished(rules, o, ctx))
  {
    FinishedTally(rules, o, ctx);
  }

  /** The treasury of the next block, known beforehand: the previous one and the treasury's share of the ticket. */
  function NextTreasury(rules: Rules, o: Order, ctx: Context): Currency
    requires Readable(Draft(o, ctx), ctx)
  {
    PreviousTreasury(ctx) + PayoutsOf(rules, Draft(o, ctx), ctx, TallyOf(Submitted(o))).treasury
  }

  lemma {:induction false} FinishedTreasury(rules: Rules, o: Order, ctx: Context)
    requires rules.Valid() && Readable(Draft(o, ctx), ctx)
    ensures Finished(rules, o, ctx).treasury == NextTreasury(rules, o, ctx)
  {
    DraftPaysNothing(rules, o, ctx);
  }

  lemma {:induction false} DraftBurnfee(rules: Rules, o: Order, ctx: Context)
    requires rules.Valid() && Readable(Draft(o, ctx), ctx) && ctx.previous.None?
    ensures Finished(rules, o, ctx).figures.burnfee == 0 && Finished(rules, o, ctx).figures.difficulty == 0
  {
  }

  /**
   * Create/validate agreement. `create` computes the payout cap from a treasury of zero and `validate`
   * from the finished treasury; so the figures, treasury, graveyard and unpaid-fee checks pass exactly
   * when the treasury owes no rebroadcast payout, or both caps round the payout to nothing.
   */
  lemma {:induction false} CreateValidateAgreement(rules: Rules, o: Order, ctx: Context)
    requires rules.Valid() && Readable(Draft(o, ctx), ctx) && ProperOrder(o)
    ensures Readable(Finished(rules, o, ctx), ctx)
    ensures HeaderValidates(rules, Finished(rules, o, ctx), ctx) <==>
      CapsAgree(rules, NextTreasury(rules, o, ctx), RawScan(rules, Draft(o, ctx), ctx))
  {
    var (b, d) := (Finished(rules, o, ctx), Draft(o, ctx));
    FinishedIsReadable(rules, o, ctx);
    FinishedInputs(rules, o, ctx);
    if ctx.previous.None? { DraftBurnfee(rules, o, ctx); }
    ConsensusAgrees(rules, d, b, ctx);
    HeaderFollowsFigures(rules, o, ctx);
    FinishedTreasury(rules, o, ctx);
  }

  /** The header that `create` writes from the draft's values `cv`. */
  ghost predicate HeaderWritten(b: Block, o: Order, ctx: Context, cv: ConsensusValues) {
    && b.figures == cv.figures && b.treasury == PreviousTreasury(ctx) + cv.figures.payoutTreasury - cv.figures.payoutAtr
    && b.graveyard == (if ctx.previous.Some? then ctx.previous.value.graveyard else 0) + cv.figures.payoutGraveyard
    && b.previousUnpaid == Draft(o, ctx).previousUnpaid
  }

  lemma {:induction false} WrittenHeaderMatches(
    b: Block, o: Order, ctx: Context, cv: ConsensusValues, cv': ConsensusValues)
    requires HeaderWritten(b, o, ctx, cv) && (cv'.ticketIndex.Some? <==> o.ticket.Some?)
    ensures HeaderMatches(b, ctx, cv') <==> cv.figures == cv'.figures
  {
  }

  /** Once the figures agree, so do treasury, graveyard and unpaid fees. */
  lemma {:induction false} HeaderFollowsFigures(rules: Rules, o: Order, ctx: Context)
    requires rules.Valid() && Readable(Draft(o, ctx), ctx) && ProperOrder(o)
    requires Readable(Finished(rules, o, ctx), ctx)
    ensures HeaderValidates(rules, Finished(rules, o, ctx), ctx) <==>
      ConsensusOf(rules, Draft(o, ctx), ctx).figures == ConsensusOf(rules, Finished(rules, o, ctx), ctx).figures
  {
    TicketIndex(o);
    FinishedTally(rules, o, ctx);
    DraftPaysNothing(rules, o, ctx);
    WrittenHeaderMatches(Finished(rules, o, ctx), o, ctx,
      ConsensusOf(rules, Draft(o, ctx), ctx), ConsensusOf(rules, Finished(rules, o, ctx), ctx));
  }

  /** In particular every block up to one period past genesis, and any block at multiplier one, agrees. */
  lemma {:induction false} AgreementBeforeRebroadcasts(rules: Rules, o: Order, ctx: Context)
    requires rules.Valid() && Readable(Draft(o, ctx), ctx) && ProperOrder(o)
    requires Draft(o, ctx).id <= rules.genesisPeriod + 1 || PayoutMultiplier(rules, ctx) == 1
    ensures Readable(Finished(rules, o, ctx), ctx)
    ensures HeaderValidates(rules, Finished(rules, o, ctx), ctx)
  {
    CreateValidateAgreement(rules, o, ctx);
    if Rebroadcasting(rules, Draft(o, ctx), ctx) {
      ScanPayout(EMPTY_SCAN, ctx.expiring.value.transactions, 0, PricingFor(rules, ctx));
    }
  }

  // ---------- agreement on the contents ----------

  /** Stamped or not, the transactions sign alike and spend the same slips. */
  ghost predicate SameSignedInputs(a: seq<Transaction>, b: seq<Transaction>) {
    SameSigned(a, b) && forall i :: 0 <= i < |a| ==> a[i].inputs == b[i].inputs
  }

  /** Same kind and, if that kind is the one looked for, alike in what is signed and spent. */
  ghost predicate Alike(x: Transaction, y: Transaction, kind: TransactionType) {
    x.kind == y.kind && (y.kind == kind ==> Signed(x) == Signed(y) && x.inputs == y.inputs)
  }

  lemma {:induction false} OfKindStamped(r: seq<Transaction>, txs: seq<Transaction>, kind: TransactionType)
    requires |r| == |txs| && forall i :: 0 <= i < |r| ==> Alike(r[i], txs[i], kind)
    ensures SameSignedInputs(OfKind(r, kind), OfKind(txs, kind))
  {
    if r != [] {
      assert Alike(r[0], txs[0], kind);
      forall i | 0 <= i < |r[1..]| ensures Alike(r[1..][i], txs[1..][i], kind) {
        assert Alike(r[i + 1], txs[i + 1], kind);
      }
      OfKindStamped(r[1..], txs[1..], kind);
      if r[0].kind == kind {
        SameSignedCons(r[0], txs[0], OfKind(r[1..], kind), OfKind(txs[1..], kind));
      } else {
        OfKindSkip(r, kind);
        OfKindSkip(txs, kind);
      }
    }
  }

  lemma {:induction false} OfKindSkip(txs: seq<Transaction>, kind: TransactionType)
    requires txs != [] && txs[0].kind != kind
    ensures OfKind(txs, kind) == OfKind(txs[1..], kind)
  {
  }

  lemma {:induction false} SameSignedCons(x: Transaction, y: Transaction, a: seq<Transaction>, b: seq<Transaction>)
    requires SameSignedInputs(a, b) && Signed(x) == Signed(y) && x.inputs == y.inputs
    ensures SameSignedInputs([x] + a, [y] + b)
  {
    forall i | 0 <= i < |[x] + a|
      ensures Signed(([x] + a)[i]) == Signed(([y] + b)[i]) && ([x] + a)[i].inputs == ([y] + b)[i].inputs
    {
      if i > 0 { assert ([x] + a)[i] == a[i - 1] && ([y] + b)[i] == b[i - 1]; }
    }
  }

  lemma {:induction false} OfKindConcat(a: seq<Transaction>, b: seq<Transaction>, kind: TransactionType)
    ensures OfKind(a + b, kind) == OfKind(a, kind) + OfKind(b, kind)
  {
    if a == [] {
      assert a + b == b;
    } else {
      assert (a + b)[1..] == a[1..] + b;
      OfKindConcat(a[1..], b, kind);
    }
  }

  lemma {:induction false} OfKindNone(txs: seq<Transaction>, kind: TransactionType)
    requires forall tx | tx in txs :: tx.kind != kind
    ensures OfKind(txs, kind) == []
  {
    if txs != [] { OfKindNone(txs[1..], kind); }
  }

  lemma {:induction false} OfKindAll(txs: seq<Transaction>, kind: TransactionType)
    requires forall tx | tx in txs :: tx.kind == kind
    ensures OfKind(txs, kind) == txs
  {
    if txs != [] {
      OfKindAll(txs[1..], kind);
      assert txs == [txs[0]] + txs[1..];
    }
  }

  lemma {:induction false} StampedSignsAlike(tx: Transaction, blockId: nat, ordinal: nat)
    requires Restampable(tx)
    ensures Signed(tx.(outputs := Located(tx.outputs, blockId, ordinal))) == Signed(tx)
  {
    var r := tx.(outputs := Located(tx.outputs, blockId, ordinal));
    assert Unlocated(r.outputs) == Unlocated(tx.outputs);
  }

  /** No transaction of this kind. */
  predicate Without(txs: seq<Transaction>, kind: TransactionType) {
    forall tx | tx in txs :: tx.kind != kind
  }

  lemma {:induction false} OfKindLength(r: seq<Transaction>, txs: seq<Transaction>, kind: TransactionType)
    requires |r| == |txs|
    requires forall i :: 0 <= i < |r| ==> r[i].kind == txs[i].kind && OutputValue(r[i]) == OutputValue(txs[i])
    ensures |OfKind(r, kind)| == |OfKind(txs, kind)|
    ensures Along(OfKind(r, kind), OutputValue) == Along(OfKind(txs, kind), OutputValue)
  {
    if r != [] {
      OfKindLength(r[1..], txs[1..], kind);
      AlongConcat(if r[0].kind == kind then [r[0]] else [], OfKind(r[1..], kind), OutputValue);
      AlongConcat(if txs[0].kind == kind then [txs[0]] else [], OfKind(txs[1..], kind), OutputValue);
      AlongOne(r[0], OutputValue);
      AlongOne(txs[0], OutputValue);
    }
  }

  lemma {:induction false} StampedLength(txs: seq<Transaction>, kind: TransactionType, blockId: nat)
    ensures |OfKind(Stamped(txs, blockId), kind)| == |OfKind(txs, kind)|
    ensures Along(OfKind(Stamped(txs, blockId), kind), OutputValue) == Along(OfKind(txs, kind), OutputValue)
  {
    var r := Stamped(txs, blockId);
    forall i | 0 <= i < |r| ensures OutputValue(r[i]) == OutputValue(txs[i]) {
      LocatedValues(txs[i].outputs, blockId, OrdinalOf(txs, i));
    }
    OfKindLength(r, txs, kind);
  }

  lemma {:induction false} ListedRebroadcasts(user: seq<Transaction>, atr: seq<Transaction>, fee: seq<Transaction>)
    requires forall tx | tx in atr :: tx.kind.ATR?
    requires forall tx | tx in fee :: tx.kind.Fee?
    ensures OfKind(user + atr + fee, TransactionType.ATR) == OfKind(user, TransactionType.ATR) + atr
  {
    var both := OfKind(user, TransactionType.ATR) + atr;
    OfKindThree(user, atr, fee, TransactionType.ATR);
    OfKindAll(atr, TransactionType.ATR);
    OfKindNone(fee, TransactionType.ATR);
    assert both + [] == both;
  }

  /** The rebroadcasts inside a stamped list: those added, as they sign and spend, unless more were submitted. */
  lemma {:induction false} StampedRebroadcasts(
    user: seq<Transaction>, atr: seq<Transaction>, fee: seq<Transaction>, blockId: nat)
    requires forall tx | tx in atr :: tx.kind.ATR? && Restampable(tx)
    requires forall tx | tx in fee :: tx.kind.Fee?
    ensures var found := OfKind(Stamped(user + atr + fee, blockId), TransactionType.ATR);
      if Without(user, TransactionType.ATR) then SameSignedInputs(found, atr) else |found| > |atr|
  {
    var all := user + atr + fee;
    ListedRebroadcasts(user, atr, fee);
    if Without(user, TransactionType.ATR) {
      OfKindNone(user, TransactionType.ATR);
      assert OfKind(all, TransactionType.ATR) == atr;
      forall tx | tx in all && tx.kind.ATR? ensures Restampable(tx) {
        assert tx in atr;
      }
      StampedOfKind(all, TransactionType.ATR, blockId);
    } else {
      var tx :| tx in user && tx.kind.ATR?;
      assert tx in OfKind(user, TransactionType.ATR);
      StampedLength(all, TransactionType.ATR, blockId);
    }
  }

  lemma {:induction false} ListedFees(user: seq<Transaction>, atr: seq<Transaction>, fee: seq<Transaction>)
    requires forall tx | tx in atr :: tx.kind.ATR?
    requires forall tx | tx in fee :: tx.kind.Fee?
    ensures OfKind(user + atr + fee, TransactionType.Fee) == OfKind(user, TransactionType.Fee) + fee
  {
    var fees := OfKind(user, TransactionType.Fee);
    OfKindThree(user, atr, fee, TransactionType.Fee);
    OfKindNone(atr, TransactionType.Fee);
    OfKindAll(fee, TransactionType.Fee);
    assert fees + [] == fees;
  }

  /** The value of the fee transactions inside a stamped list: those submitted and the one added. */
  lemma {:induction false} StampedFeeValues(
    user: seq<Transaction>, atr: seq<Transaction>, fee: seq<Transaction>, blockId: nat)
    requires forall tx | tx in atr :: tx.kind.ATR?
    requires forall tx | tx in fee :: tx.kind.Fee?
    ensures Along(OfKind(Stamped(user + atr + fee, blockId), TransactionType.Fee), OutputValue) ==
      Along(OfKind(user, TransactionType.Fee), OutputValue) + Along(fee, OutputValue)
  {
    ListedFees(user, atr, fee);
    StampedLength(user + atr + fee, TransactionType.Fee, blockId);
    AlongConcat(OfKind(user, TransactionType.Fee), fee, OutputValue);
  }

  /** If none was submitted, they are the one added. */
  lemma {:induction false} StampedFees(
    user: seq<Transaction>, atr: seq<Transaction>, fee: seq<Transaction>, blockId: nat)
    requires Without(user, TransactionType.Fee) && forall tx | tx in atr :: tx.kind.ATR?
    requires forall tx | tx in fee :: tx.kind.Fee? && Restampable(tx)
    ensures SameSignedInputs(OfKind(Stamped(user + atr + fee, blockId), TransactionType.Fee), fee)
  {
    var all := user + atr + fee;
    ListedFees(user, atr, fee);
    OfKindNone(user, TransactionType.Fee);
    assert OfKind(all, TransactionType.Fee) == fee;
    forall tx | tx in all && tx.kind.Fee? ensures Restampable(tx) {
      assert tx in fee;
    }
    StampedOfKind(all, TransactionType.Fee, blockId);
  }

  /** The one added comes last, so it is the one that is looked at. */
  lemma {:induction false} StampedLastFee(txs: seq<Transaction>, fee: Transaction, blockId: nat)
    requires fee.kind.Fee? && Restampable(fee)
    ensures var r := Stamped(txs + [fee], blockId);
      LastOf(r, TransactionType.Fee) == Some(|txs|) && Signed(r[|txs|]) == Signed(fee)
  {
    assert (txs + [fee])[|txs|] == fee;
    StampedSignsAlike(fee, blockId, OrdinalOf(txs + [fee], |txs|));
  }

  lemma {:induction false} StampedOfKind(all: seq<Transaction>, kind: TransactionType, blockId: nat)
    requires forall tx | tx in all && tx.kind == kind :: Restampable(tx)
    ensures SameSignedInputs(OfKind(Stamped(all, blockId), kind), OfKind(all, kind))
  {
    var r := Stamped(all, blockId);
    forall i | 0 <= i < |all| ensures Alike(r[i], all[i], kind) {
      assert all[i] in all;
      if all[i].kind == kind { StampedSignsAlike(all[i], blockId, OrdinalOf(all, i)); }
    }
    OfKindStamped(r, all, kind);
  }

  lemma {:induction false} OfKindThree(
    a: seq<Transaction>, b: seq<Transaction>, c: seq<Transaction>, kind: TransactionType)
    ensures OfKind(a + b + c, kind) == OfKind(a, kind) + OfKind(b, kind) + OfKind(c, kind)
  {
    OfKindConcat(a + b, c, kind);
    OfKindConcat(a, b, kind);
  }

  // ---------- what create adds ----------

  /** What `create` adds: rebroadcasts and a fee transaction that stamping does not disturb. */
  ghost predicate ProperAdditions(cv: ConsensusValues) {
    && (forall tx | tx in cv.rebroadcasts :: tx.kind.ATR? && Restampable(tx))
    && (cv.feeTransaction.Some? ==> cv.feeTransaction.value.kind.Fee? && Restampable(cv.feeTransaction.value))
  }

  lemma {:induction false} RescaledKinds(txs: seq<Transaction>, multiplier: nat)
    requires forall tx | tx in txs :: HasPayload(tx) && tx.kind.ATR? && Restampable(tx)
    ensures forall tx | tx in RescaledAll(txs, multiplier) :: tx.kind.ATR? && Restampable(tx)
  {
    var all := RescaledAll(txs, multiplier);
    forall tx | tx in all ensures tx.kind.ATR? && Restampable(tx) {
      var i :| 0 <= i < |all| && all[i] == tx;
      assert txs[i] in txs;
    }
  }

  lemma {:induction false} AddedRebroadcasts(rules: Rules, b: Block, ctx: Context)
    requires rules.Valid() && Readable(b, ctx)
    ensures forall tx | tx in ConsensusOf(rules, b, ctx).rebroadcasts :: tx.kind.ATR? && Restampable(tx)
  {
    var raw := RawScan(rules, b, ctx);
    RawScanKinds(rules, b, ctx);
    RawScanHasPayloads(rules, b, ctx);
    RescaledKinds(raw.rebroadcasts, CapMultiplier(rules, b, raw));
  }

  lemma {:induction false} NumberedFeeTransaction(b: Block, pay: Payouts)
    requires |pay.winners| <= 3
    requires forall i :: 0 <= i < |pay.winners| ==> pay.winners[i].slipIndex == i
    ensures FeeTransaction(b, pay).kind.Fee? && Restampable(FeeTransaction(b, pay))
  {
  }

  lemma {:induction false} AddedFeeTransaction(rules: Rules, b: Block, ctx: Context)
    requires Readable(b, ctx) && TicketOf(b.transactions).Some?
    ensures var fee := FeeTransaction(b, PayoutsOf(rules, b, ctx, TallyOf(b.transactions)));
      fee.kind.Fee? && Restampable(fee)
  {
    var t := TallyOf(b.transactions);
    WinnersAreNumbered(rules, ctx, TicketOf(b.transactions).value, b.id, t.nonFee + 1);
    NumberedFeeTransaction(b, PayoutsOf(rules, b, ctx, t));
  }

  lemma {:induction false} DraftAdditions(rules: Rules, b: Block, ctx: Context)
    requires rules.Valid() && Readable(b, ctx)
    ensures ProperAdditions(ConsensusOf(rules, b, ctx))
  {
    AddedRebroadcasts(rules, b, ctx);
    if TicketOf(b.transactions).Some? { AddedFeeTransaction(rules, b, ctx); }
  }

  lemma {:induction false} FeesSignAlike(a: Block, b: Block, pa: Payouts, pb: Payouts)
    requires SamePayouts(pa, pb) && a.timestamp == b.timestamp
    ensures Signed(FeeTransaction(a, pa)) == Signed(FeeTransaction(b, pb))
  {
  }

  lemma {:induction false} FeeOfConsensus(rules: Rules, b: Block, ctx: Context)
    requires rules.Valid() && Readable(b, ctx)
    ensures var ticket := TicketOf(b.transactions);
      ConsensusOf(rules, b, ctx).feeTransaction ==
      if ticket.None? then None
      else Some(FeeTransaction(b, PayoutsFor(rules, ctx, ticket, b.id, TallyOf(b.transactions).nonFee + 1)))
  {
  }

  lemma {:induction false} FeeTransactionsAgree(rules: Rules, a: Block, b: Block, ctx: Context)
    requires rules.Valid() && Readable(a, ctx) && Readable(b, ctx) && SameInputs(a, b)
    ensures SameFee(ConsensusOf(rules, a, ctx).feeTransaction, ConsensusOf(rules, b, ctx).feeTransaction)
  {
    var (oa, ob) := (TallyOf(a.transactions).nonFee + 1, TallyOf(b.transactions).nonFee + 1);
    var ticket := TicketOf(a.transactions);
    FeeOfConsensus(rules, a, ctx);
    FeeOfConsensus(rules, b, ctx);
    PayoutsIgnoreOrdinal(rules, ctx, ticket, a.id, oa, ob);
    FeesSignAlike(a, b, PayoutsFor(rules, ctx, ticket, a.id, oa), PayoutsFor(rules, ctx, ticket, a.id, ob));
  }

  ghost predicate SameFee(a: Option<Transaction>, b: Option<Transaction>) {
    (a.Some? <==> b.Some?) && (a.Some? ==> Signed(a.value) == Signed(b.value))
  }

  /** What the block's fee transactions are expected to hold. */
  function FeeExpected(fee: Option<Transaction>): Currency {
    if fee.Some? then Values(fee.value.outputs) else 0
  }

  /** The protocol transactions of a created block: what was added to it beside what was submitted. */
  ghost predicate Carries(b: Block, user: seq<Transaction>, atr: seq<Transaction>, fee: Option<Transaction>) {
    var (found, fees) := (OfKind(b.transactions, TransactionType.ATR), OfKind(b.transactions, TransactionType.Fee));
    && (if Without(user, TransactionType.ATR) then SameSignedInputs(found, atr) else |found| > |atr|)
    && Along(fees, OutputValue) == Along(OfKind(user, TransactionType.Fee), OutputValue) + FeeExpected(fee)
    && (Without(user, TransactionType.Fee) ==> CarriesFee(fees, fee))
  }

  lemma {:induction false} StampedCarries(o: Order, b: Block, cv: ConsensusValues, fee': Option<Transaction>)
    requires b.transactions == Stamped(AllTransactions(o, cv), b.id) && ProperAdditions(cv)
    requires SameFee(cv.feeTransaction, fee')
    ensures Carries(b, Submitted(o), cv.rebroadcasts, fee')
  {
    var fee := if cv.feeTransaction.Some? then [cv.feeTransaction.value] else [];
    StampedRebroadcasts(Submitted(o), cv.rebroadcasts, fee, b.id);
    StampedFeeValues(Submitted(o), cv.rebroadcasts, fee, b.id);
    if Without(Submitted(o), TransactionType.Fee) { StampedFees(Submitted(o), cv.rebroadcasts, fee, b.id); }
    if cv.feeTransaction.Some? {
      AlongOne(cv.feeTransaction.value, OutputValue);
      SignedValues(cv.feeTransaction.value, fee'.value);
    }
  }

  /** The comparison of fee transactions never fails on a created block. */
  lemma {:induction false} AddedFeeIsCompared(o: Order, b: Block, cv: ConsensusValues, fee': Option<Transaction>)
    requires b.transactions == Stamped(AllTransactions(o, cv), b.id) && ProperAdditions(cv)
    requires SameFee(cv.feeTransaction, fee') && fee'.Some?
    ensures var k := LastOf(b.transactions, TransactionType.Fee);
      k.Some? && Signed(b.transactions[k.value]) == Signed(fee'.value)
  {
    StampedLastFee(Submitted(o) + cv.rebroadcasts, cv.feeTransaction.value, b.id);
  }

  /** Submitted fee transactions pass, submitted rebroadcasts do not. */
  lemma {:induction false} StampedContents(o: Order, b: Block, cv: ConsensusValues, cv': ConsensusValues)
    requires b.transactions == Stamped(AllTransactions(o, cv), b.id) && ProperAdditions(cv)
    requires SameFee(cv.feeTransaction, cv'.feeTransaction) && |cv.rebroadcasts| == |cv'.hashed|
    requires cv'.feeIndex == LastOf(b.transactions, TransactionType.Fee)
    ensures Carries(b, Submitted(o), cv.rebroadcasts, cv'.feeTransaction)
    ensures ContentsMatch(b, cv') <==>
      Without(Submitted(o), TransactionType.ATR) && SameSigned(cv.rebroadcasts, cv'.hashed)
  {
    StampedCarries(o, b, cv, cv'.feeTransaction);
    if cv'.feeTransaction.Some? { AddedFeeIsCompared(o, b, cv, cv'.feeTransaction); }
    ComparedAlike(b, Submitted(o), cv, cv');
  }

  lemma {:induction false} ComparedAlike(b: Block, user: seq<Transaction>, cv: ConsensusValues, cv': ConsensusValues)
    requires Carries(b, user, cv.rebroadcasts, cv'.feeTransaction) && |cv.rebroadcasts| == |cv'.hashed|
    ensures SameSigned(OfKind(b.transactions, TransactionType.ATR), cv'.hashed) <==>
      Without(user, TransactionType.ATR) && SameSigned(cv.rebroadcasts, cv'.hashed)
  {
  }

  lemma {:induction false} FinishedContents(rules: Rules, o: Order, ctx: Context)
    requires rules.Valid() && Readable(Draft(o, ctx), ctx)
    requires Readable(Finished(rules, o, ctx), ctx)
    ensures var (b, cv) := (Finished(rules, o, ctx), ConsensusOf(rules, Draft(o, ctx), ctx));
      var cv' := ConsensusOf(rules, b, ctx);
      && Carries(b, Submitted(o), cv.rebroadcasts, cv'.feeTransaction)
      && (ContentsMatch(b, cv') <==>
            Without(Submitted(o), TransactionType.ATR) && SameSigned(cv.rebroadcasts, cv'.hashed))
  {
    var (d, b) := (Draft(o, ctx), Finished(rules, o, ctx));
    FinishedInputs(rules, o, ctx);
    FeeTransactionsAgree(rules, d, b, ctx);
    DraftAdditions(rules, d, ctx);
    AddedSpend(rules, d, ctx);
    SameHashed(rules, d, b, ctx);
    StampedContents(o, b, ConsensusOf(rules, d, ctx), ConsensusOf(rules, b, ctx));
  }

  lemma {:induction false} SameHashed(rules: Rules, a: Block, b: Block, ctx: Context)
    requires rules.Valid() && Readable(a, ctx) && Readable(b, ctx) && a.id == b.id
    ensures ConsensusOf(rules, a, ctx).hashed == ConsensusOf(rules, b, ctx).hashed
    ensures ConsensusOf(rules, b, ctx).feeIndex == LastOf(b.transactions, TransactionType.Fee)
  {
  }

  // ---------- agreement on the rebroadcasts ----------

  /** Every rebroadcast hands on its whole payload: no fee was deducted from any of them. */
  ghost predicate Undiminished(rs: seq<Transaction>) {
    forall r | r in rs :: HasPayload(r) && r.outputs[PayloadIndex(r)].amount == r.inputs[PayloadIndex(r)].amount
  }

  lemma {:induction false} RescaledSignsAlike(r: Transaction)
    requires HasPayload(r)
    ensures Signed(Rescaled(r, 1)) == Signed(r) <==>
      r.outputs[PayloadIndex(r)].amount == r.inputs[PayloadIndex(r)].amount
  {
    var k := PayloadIndex(r);
    var (x, y) := (Unlocated(Rescaled(r, 1).outputs), Unlocated(r.outputs));
    assert x[k].amount == r.inputs[k].amount && y[k].amount == r.outputs[k].amount;
    assert x == y <==> x[k] == y[k];
    assert Signed(Rescaled(r, 1)).outputs == x && Signed(r).outputs == y;
  }

  lemma {:induction false} RescaledAllSignAlike(rs: seq<Transaction>)
    requires forall r | r in rs :: HasPayload(r)
    ensures SameSigned(RescaledAll(rs, 1), rs) <==> Undiminished(rs)
  {
    forall i | 0 <= i < |rs|
      ensures rs[i] in rs && RescaledAll(rs, 1)[i] == Rescaled(rs[i], 1)
    {
    }
    forall i | 0 <= i < |rs|
      ensures Signed(RescaledAll(rs, 1)[i]) == Signed(rs[i]) <==>
        rs[i].outputs[PayloadIndex(rs[i])].amount == rs[i].inputs[PayloadIndex(rs[i])].amount
    {
      RescaledSignsAlike(rs[i]);
    }
  }

  /** The rebroadcasts that `create` adds sign like those hashed if and only if no fee was at stake. */
  lemma {:induction false} AddedSignAlike(rules: Rules, d: Block, b: Block, ctx: Context)
    requires rules.Valid() && Readable(d, ctx) && Readable(b, ctx) && d.id == b.id && d.treasury == 0
    ensures var (cv, cv', raw) := (ConsensusOf(rules, d, ctx), ConsensusOf(rules, b, ctx), RawScan(rules, d, ctx));
      SameSigned(cv.rebroadcasts, cv'.hashed) <==> raw.payout == 0 || Undiminished(raw.rebroadcasts)
  {
    var raw := RawScan(rules, d, ctx);
    RawScanHasPayloads(rules, d, ctx);
    RescaledAllSignAlike(raw.rebroadcasts);
    assert raw == RawScan(rules, b, ctx);
    assert CapMultiplier(rules, d, raw) == 1;
  }

  /**
   * When `validate` accepts all values and contents of a block that `create` built: exactly when the caps
   * agree, no rebroadcast was submitted and, should a rebroadcast payout be owed, none pays a fee.
   */
  lemma {:induction false} CreatedBlockValidates(rules: Rules, o: Order, ctx: Context)
    requires rules.Valid() && Readable(Draft(o, ctx), ctx) && ProperOrder(o)
    ensures Readable(Finished(rules, o, ctx), ctx)
    ensures ValuesValidate(rules, Finished(rules, o, ctx), ctx) <==> Acceptable(rules, o, ctx)
  {
    CreateValidateAgreement(rules, o, ctx);
    FinishedContents(rules, o, ctx);
    AddedSignAlike(rules, Draft(o, ctx), Finished(rules, o, ctx), ctx);
  }

  /** What a producer can check before it calls `create`. */
  ghost predicate Acceptable(rules: Rules, o: Order, ctx: Context)
    requires Readable(Draft(o, ctx), ctx)
  {
    var raw := RawScan(rules, Draft(o, ctx), ctx);
    && CapsAgree(rules, NextTreasury(rules, o, ctx), raw)
    && Without(Submitted(o), TransactionType.ATR)
    && (raw.payout == 0 || Undiminished(raw.rebroadcasts))
  }

  // ---------- when no rebroadcast pays a fee ----------

  /** An NFT group never pays, a single slip pays unless the fee rate is zero. */
  ghost predicate Charged(r: Transaction, rate: Currency) {
    && HasPayload(r) && (|r.inputs| == 3 || |r.inputs| == 1)
    && (r.outputs[PayloadIndex(r)].amount == r.inputs[PayloadIndex(r)].amount <==> rate == 0 || |r.inputs| == 3)
  }

  lemma {:induction false} ProcessCharges(
    acc: Scan, tx: Transaction, outputs: seq<Slip>, j: nat, t: Terms, rate: Currency)
    requires t.multiplier >= 1 && j <= |outputs| && (t.fee == 0 <==> rate == 0)
    requires forall r | r in acc.rebroadcasts :: Charged(r, rate)
    ensures forall r | r in Process(acc, tx, outputs, j, t).rebroadcasts :: Charged(r, rate)
    decreases |outputs| - j
  {
    if j == |outputs| {
    } else if GroupAt(outputs, j) {
      var next := GroupStep(acc, tx, outputs[j], outputs[j + 1], outputs[j + 2], t);
      ProcessCharges(next, tx, outputs, j + 3, t, rate);
    } else {
      ProcessCharges(SingleStep(acc, tx, outputs[j], t), tx, outputs, j + 1, t, rate);
    }
  }

  lemma {:induction false} SomeFee(tx: Transaction, rate: Currency)
    ensures SerializedSize(tx) * rate == 0 <==> rate == 0
  {
    assert SerializedSize(tx) >= 1;
    if rate > 0 { assert SerializedSize(tx) * rate >= 1 * rate; }
  }

  lemma {:induction false} ScanCharges(acc: Scan, txs: seq<Transaction>, k: nat, p: Pricing)
    requires p.multiplier >= 1 && k <= |txs| && forall r | r in acc.rebroadcasts :: Charged(r, p.feePerByte)
    ensures forall r | r in ScanFrom(acc, txs, k, p).rebroadcasts :: Charged(r, p.feePerByte)
    decreases |txs| - k
  {
    if k < |txs| {
      var outputs := Eligible(txs[k].outputs, p.utxo, 0);
      SomeFee(txs[k], p.feePerByte);
      ProcessCharges(acc, txs[k], outputs, 0, TermsFor(p, txs[k]), p.feePerByte);
      ScanCharges(Process(acc, txs[k], outputs, 0, TermsFor(p, txs[k])), txs, k + 1, p);
    }
  }

  /** No fee is deducted exactly when the fee rate is zero or only NFT groups are rebroadcast. */
  lemma {:induction false} UndiminishedIff(rules: Rules, b: Block, ctx: Context)
    ensures Undiminished(RawScan(rules, b, ctx).rebroadcasts) <==>
      PreviousFigures(ctx).avgFeePerByte == 0 || forall r | r in RawScan(rules, b, ctx).rebroadcasts :: |r.inputs| == 3
  {
    var rate := PreviousFigures(ctx).avgFeePerByte;
    if Rebroadcasting(rules, b, ctx) {
      ScanCharges(EMPTY_SCAN, ctx.expiring.value.transactions, 0, PricingFor(rules, ctx));
    }
    assert forall r | r in RawScan(rules, b, ctx).rebroadcasts :: Charged(r, rate);
  }

  // ---------- the slip count ----------

  function IsAtrSlip(s: Slip): nat {
    if s.kind.ATR? then 1 else 0
  }

  /** What `generate` adds to the block's count of rebroadcast slips for an ATR transaction. */
  function AtrOutputs(tx: Transaction): nat {
    Along(tx.outputs, IsAtrSlip)
  }

  ghost predicate Counted(s: Scan) {
    s.slips == Along(s.rebroadcasts, AtrOutputs)
  }

  lemma {:induction false} SingleStepCounts(acc: Scan, tx: Transaction, s: Slip, t: Terms)
    requires t.multiplier >= 1 && Counted(acc)
    ensures Counted(SingleStep(acc, tx, s, t))
  {
    var gross := s.amount * t.multiplier;
    if gross > t.fee {
      var r := SingleRebroadcast(tx, s, gross, t.fee);
      assert r.outputs == [r.outputs[0]];
      AlongOne(r.outputs[0], IsAtrSlip);
      AlongAppend(acc.rebroadcasts, r, AtrOutputs);
    }
  }

  lemma {:induction false} GroupStepCounts(acc: Scan, tx: Transaction, a: Slip, s: Slip, c: Slip, t: Terms)
    requires t.multiplier >= 1 && Counted(acc) && a.kind.Bound? && c.kind.Bound?
    ensures Counted(GroupStep(acc, tx, a, s, c, t))
  {
    var gross := s.amount * t.multiplier;
    if gross > t.fee {
      var r := RebroadcastOf(tx, [a, s.(amount := gross), c], [a, s.(amount := gross, kind := SlipType.ATR), c]);
      var (x, y, z) := (r.outputs[0], r.outputs[1], r.outputs[2]);
      assert r.outputs == [x] + [y] + [z];
      AlongAppend([x] + [y], z, IsAtrSlip);
      AlongAppend([x], y, IsAtrSlip);
      AlongOne(x, IsAtrSlip);
      AlongAppend(acc.rebroadcasts, r, AtrOutputs);
    }
  }

  lemma {:induction false} ProcessCounts(acc: Scan, tx: Transaction, outputs: seq<Slip>, j: nat, t: Terms)
    requires t.multiplier >= 1 && j <= |outputs| && Counted(acc)
    ensures Counted(Process(acc, tx, outputs, j, t))
    decreases |outputs| - j
  {
    if j == |outputs| {
    } else if GroupAt(outputs, j) {
      GroupStepCounts(acc, tx, outputs[j], outputs[j + 1], outputs[j + 2], t);
      ProcessCounts(GroupStep(acc, tx, outputs[j], outputs[j + 1], outputs[j + 2], t), tx, outputs, j + 3, t);
    } else {
      SingleStepCounts(acc, tx, outputs[j], t);
      ProcessCounts(SingleStep(acc, tx, outputs[j], t), tx, outputs, j + 1, t);
    }
  }

  lemma {:induction false} ScanCounts(acc: Scan, txs: seq<Transaction>, k: nat, p: Pricing)
    requires p.multiplier >= 1 && k <= |txs| && Counted(acc)
    ensures Counted(ScanFrom(acc, txs, k, p))
    decreases |txs| - k
  {
    if k < |txs| {
      var outputs := Eligible(txs[k].outputs, p.utxo, 0);
      ProcessCounts(acc, txs[k], outputs, 0, TermsFor(p, txs[k]));
      ScanCounts(Process(acc, txs[k], outputs, 0, TermsFor(p, txs[k])), txs, k + 1, p);
    }
  }

  lemma {:induction false} SameKindsCount(a: seq<Slip>, b: seq<Slip>)
    requires |a| == |b| && forall i :: 0 <= i < |a| ==> a[i].kind == b[i].kind
    ensures Along(a, IsAtrSlip) == Along(b, IsAtrSlip)
  {
    if a != [] { SameKindsCount(a[1..], b[1..]); }
  }

  lemma {:induction false} SameSignedCount(a: seq<Transaction>, b: seq<Transaction>)
    requires SameSigned(a, b)
    ensures Along(a, AtrOutputs) == Along(b, AtrOutputs)
  {
    if a != [] {
      var (x, y) := (Unlocated(a[0].outputs), Unlocated(b[0].outputs));
      assert x == Signed(a[0]).outputs && y == Signed(b[0]).outputs;
      forall i | 0 <= i < |a[0].outputs| ensures a[0].outputs[i].kind == b[0].outputs[i].kind {
        assert x[i] == y[i];
      }
      SameKindsCount(a[0].outputs, b[0].outputs);
      SameSignedCount(a[1..], b[1..]);
    }
  }

  /** The check of the number of rebroadcast slips rejects nothing that the hash check lets through. */
  lemma {:induction false} SlipCountFollows(rules: Rules, b: Block, ctx: Context)
    requires rules.Valid() && Readable(b, ctx) && ContentsValidate(rules, b, ctx)
    ensures Along(OfKind(b.transactions, TransactionType.ATR), AtrOutputs) ==
      ConsensusOf(rules, b, ctx).rebroadcastSlips
  {
    SameSignedCount(OfKind(b.transactions, TransactionType.ATR), ConsensusOf(rules, b, ctx).hashed);
    RawScanCounts(rules, b, ctx);
  }

  lemma {:induction false} RawScanCounts(rules: Rules, b: Block, ctx: Context)
    ensures Counted(RawScan(rules, b, ctx))
  {
    if Rebroadcasting(rules, b, ctx) {
      ScanCounts(EMPTY_SCAN, ctx.expiring.value.transactions, 0, PricingFor(rules, ctx));
    }
  }

  // ---------- the shape of a created block ----------

  /** No transaction has more outputs than a slip index can number, and every one takes up an ordinal. */
  ghost predicate Numbered(txs: seq<Transaction>) {
    forall tx | tx in txs :: |tx.outputs| <= 256 && Spans(tx) >= 1
  }

  lemma {:induction false} LocatedShape(slips: seq<Slip>, blockId: nat, ordinal: nat)
    requires |slips| <= 256
    ensures LocatedAt(Located(slips, blockId, ordinal), blockId, ordinal)
  {
    forall j | 0 <= j < |slips| ensures j % 256 == j {}
  }

  lemma {:induction false} TailOrdinal(txs: seq<Transaction>, i: nat)
    requires i < |txs|
    ensures OrdinalOf(txs, i + 1) == Spans(txs[0]) + OrdinalOf(txs[1..], i)
  {
    assert txs[..i + 1][1..] == txs[1..][..i];
  }

  /** The outputs of `r` are those of `txs`, located from ordinal `first` on. */
  ghost predicate StampedFrom(txs: seq<Transaction>, r: seq<Transaction>, blockId: nat, first: nat) {
    |r| == |txs| && forall i :: 0 <= i < |r| ==>
      r[i] == txs[i].(outputs := Located(txs[i].outputs, blockId, first + OrdinalOf(txs, i)))
  }

  lemma {:induction false} StampedTail(txs: seq<Transaction>, r: seq<Transaction>, blockId: nat, first: nat)
    requires txs != [] && StampedFrom(txs, r, blockId, first)
    ensures StampedFrom(txs[1..], r[1..], blockId, first + Spans(txs[0]))
    ensures r[0] == txs[0].(outputs := Located(txs[0].outputs, blockId, first))
  {
    assert OrdinalOf(txs, 0) == 0 by { assert txs[..0] == []; }
    forall i | 0 <= i < |r[1..]| ensures r[1..][i] == r[i + 1] && txs[1..][i] == txs[i + 1] {}
    forall i | 0 <= i < |r[1..]| ensures OrdinalOf(txs, i + 1) == Spans(txs[0]) + OrdinalOf(txs[1..], i) {
      TailOrdinal(txs, i);
    }
  }

  lemma {:induction false} StampedShape(txs: seq<Transaction>, r: seq<Transaction>, blockId: nat, first: nat)
    requires Numbered(txs) && StampedFrom(txs, r, blockId, first)
    ensures OutputsAt(r, blockId, first)
    decreases txs
  {
    if txs != [] {
      assert txs[0] in txs;
      StampedTail(txs, r, blockId, first);
      LocatedShape(txs[0].outputs, blockId, first);
      StampedShape(txs[1..], r[1..], blockId, first + Spans(txs[0]));
    }
  }

  lemma {:induction false} StampedSpends(txs: seq<Transaction>, r: seq<Transaction>)
    requires |r| == |txs| && forall i :: 0 <= i < |r| ==> r[i].inputs == txs[i].inputs
    ensures Spent(r) == Spent(txs)
  {
    if txs != [] { StampedSpends(txs[1..], r[1..]); }
  }

  lemma {:induction false} SpentConcatThree(a: seq<Transaction>, b: seq<Transaction>, c: seq<Transaction>)
    ensures Spent(a + b + c) == Spent(a) + Spent(b) + Spent(c)
  {
    SpentConcat(a + b, c);
    SpentConcat(a, b);
  }

  /** The outputs of a created block are located, and it spends what its parts spend. */
  lemma {:induction false} StampedBlockShape(o: Order, b: Block, cv: ConsensusValues)
    requires b.transactions == Stamped(AllTransactions(o, cv), b.id)
    requires Numbered(Submitted(o)) && ProperAdditions(cv)
    requires cv.feeTransaction.Some? ==> cv.feeTransaction.value.inputs == []
    ensures OutputsAt(b.transactions, b.id, 0)
    ensures Spent(b.transactions) == Spent(Submitted(o)) + Spent(cv.rebroadcasts)
  {
    var fee := if cv.feeTransaction.Some? then [cv.feeTransaction.value] else [];
    var all := AllTransactions(o, cv);
    forall tx | tx in all ensures |tx.outputs| <= 256 && Spans(tx) >= 1 {
      assert tx in Submitted(o) || tx in cv.rebroadcasts || tx in fee;
    }
    StampedShape(all, b.transactions, b.id, 0);
    StampedSpends(all, b.transactions);
    SpentConcatThree(Submitted(o), cv.rebroadcasts, fee);
    assert Spent(fee) == [] by { assert fee != [] ==> fee[1..] == []; }
  }

  lemma {:induction false} AddedSpend(rules: Rules, b: Block, ctx: Context)
    requires rules.Valid() && Readable(b, ctx)
    ensures var cv := ConsensusOf(rules, b, ctx);
      && |cv.rebroadcasts| == |cv.hashed| && cv.hashed == RawScan(rules, b, ctx).rebroadcasts
      && (forall i :: 0 <= i < |cv.hashed| ==> cv.rebroadcasts[i].inputs == cv.hashed[i].inputs)
      && (cv.feeTransaction.Some? ==> cv.feeTransaction.value.inputs == [])
  {
    RawScanHasPayloads(rules, b, ctx);
  }

  /**
   * A created block has its outputs located, spends what was submitted and what was scanned, and carries
   * the scanned rebroadcasts and the expected fee transaction beside what was submitted.
   */
  lemma {:induction false} CreatedBlockIsWellBuilt(rules: Rules, o: Order, ctx: Context)
    requires rules.Valid() && Readable(Draft(o, ctx), ctx) && Numbered(Submitted(o))
    ensures Readable(Finished(rules, o, ctx), ctx)
    ensures var (b, raw) := (Finished(rules, o, ctx), RawScan(rules, Draft(o, ctx), ctx));
      && OutputsAt(b.transactions, b.id, 0)
      && Spent(b.transactions) == Spent(Submitted(o)) + Spent(raw.rebroadcasts)
      && (Without(Submitted(o), TransactionType.ATR) ==> AsScanned(b.transactions, raw.rebroadcasts))
      && (Without(Submitted(o), TransactionType.Fee) ==>
            CarriesFee(OfKind(b.transactions, TransactionType.Fee), ConsensusOf(rules, b, ctx).feeTransaction))
  {
    var d := Draft(o, ctx);
    FinishedIsReadable(rules, o, ctx);
    FinishedContents(rules, o, ctx);
    DraftAdditions(rules, d, ctx);
    AddedSpend(rules, d, ctx);
    var cv := ConsensusOf(rules, d, ctx);
    StampedBlockShape(o, Finished(rules, o, ctx), cv);
    StampedSpends(cv.hashed, cv.rebroadcasts);
  }

  // ---------- what a created block consists of ----------

  /** The same transaction but for where its outputs are located. */
  ghost predicate SameButPlaced(a: Transaction, b: Transaction) {
    && a.(outputs := b.outputs) == b && |a.outputs| == |b.outputs|
    && forall j :: 0 <= j < |a.outputs| ==>
         && a.outputs[j].publicKey == b.outputs[j].publicKey && a.outputs[j].amount == b.outputs[j].amount
         && a.outputs[j].kind == b.outputs[j].kind
  }

  /**
   * The block goes on top of the previous one under the given parent hash, time and creator; it starts with
   * the ticket and the transactions handed in, and the protocol's own transactions follow them.
   */
  ghost predicate Continues(o: Order, ctx: Context, b: Block) {
    var (txs, n) := (b.transactions, if o.ticket.Some? then 1 else 0);
    && b.id == (if ctx.previous.Some? then ctx.previous.value.id + 1 else 1)
    && b.previousHash == o.previousHash && b.timestamp == o.timestamp && b.creator == o.creator
    && |txs| >= n + |o.transactions|
    && (o.ticket.Some? ==> SameButPlaced(txs[0], o.ticket.value))
    && (forall i :: 0 <= i < |o.transactions| ==> SameButPlaced(txs[n + i], o.transactions[i]))
    && forall i :: n + |o.transactions| <= i < |txs| ==> txs[i].kind.ATR? || txs[i].kind.Fee?
  }

  lemma {:induction false} StampedParts(o: Order, b: Block, cv: ConsensusValues, all: seq<Transaction>, i: nat)
    requires all == AllTransactions(o, cv) && b.transactions == Stamped(all, b.id)
    requires ProperAdditions(cv) && i < |all|
    ensures |b.transactions| == |all| && SameButPlaced(b.transactions[i], all[i])
    ensures i >= |Submitted(o)| ==> b.transactions[i].kind.ATR? || b.transactions[i].kind.Fee?
    ensures i < |Submitted(o)| ==> all[i] == Submitted(o)[i]
  {
    var n := |Submitted(o)|;
    if n <= i < n + |cv.rebroadcasts| { assert all[i] == cv.rebroadcasts[i - n]; }
  }

  lemma {:induction false} StampedContinues(o: Order, ctx: Context, b: Block, cv: ConsensusValues)
    requires b.transactions == Stamped(AllTransactions(o, cv), b.id) && ProperAdditions(cv)
    requires b.(transactions := [], figures := NO_FIGURES, treasury := 0, graveyard := 0)
      == Draft(o, ctx).(transactions := [])
    ensures Continues(o, ctx, b)
  {
    var (all, n) := (AllTransactions(o, cv), if o.ticket.Some? then 1 else 0);
    assert |Submitted(o)| == n + |o.transactions|;
    forall i | 0 <= i < |o.transactions| ensures SameButPlaced(b.transactions[n + i], o.transactions[i]) {
      StampedParts(o, b, cv, all, n + i);
      assert Submitted(o)[n + i] == o.transactions[i];
    }
    forall i | n + |o.transactions| <= i < |all| ensures b.transactions[i].kind.ATR? || b.transactions[i].kind.Fee? {
      StampedParts(o, b, cv, all, i);
    }
    if o.ticket.Some? { StampedParts(o, b, cv, all, 0); }
  }

  lemma {:induction false} CreatedBlockContinues(rules: Rules, o: Order, ctx: Context)
    requires rules.Valid() && Readable(Draft(o, ctx), ctx)
    ensures Continues(o, ctx, Finished(rules, o, ctx))
  {
    DraftAdditions(rules, Draft(o, ctx), ctx);
    StampedContinues(o, ctx, Finished(rules, o, ctx), ConsensusOf(rules, Draft(o, ctx), ctx));
  }
}
