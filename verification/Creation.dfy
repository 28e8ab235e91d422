/** `Block::create`, and when the block it returns passes the checks of `Block::validate`. */
module Creation {
  import opened Sums
  import opened Types
  import opened Utxo
  import opened Rebroadcast
  import opened Expiry
  import opened Payouts
  import opened Consensus
  import opened Validation

  // ---------- building a block ----------

  /** What a block producer hands to `create`. */
  datatype Order = Order(
    ticket: Option<Transaction>,
    transactions: seq<Transaction>,
    previousHash: Hash,
    timestamp: nat,
    creator: PublicKey)

  function Submitted(o: Order): seq<Transaction> {
    (if o.ticket.Some? then [o.ticket.value] else []) + o.transactions
  }

  /** The block before its consensus values are known; in particular its treasury is still zero. */
  function Draft(o: Order, ctx: Context): Block {
    Block(
      if ctx.previous.Some? then ctx.previous.value.id + 1 else 1,
      o.timestamp, o.previousHash, o.creator, 0, 0, 0,
      if o.ticket.Some? || ctx.previous.None? then 0 else ctx.previous.value.figures.totalFees,
      NO_FIGURES, Submitted(o))
  }

  /** The ordinal of the transaction at `i`: the ordinals taken up before it. */
  function OrdinalOf(txs: seq<Transaction>, i: nat): nat
    requires i <= |txs|
  {
    Along(txs[..i], Spans)
  }

  /** Block::generate: stamp the outputs of every transaction with its location. */
  function Stamped(txs: seq<Transaction>, blockId: nat): (r: seq<Transaction>)
    ensures |r| == |txs|
    ensures forall i :: 0 <= i < |r| ==> r[i] == txs[i].(outputs := Located(txs[i].outputs, blockId, OrdinalOf(txs, i)))
  {
    seq(|txs|, i requires 0 <= i < |txs| => txs[i].(outputs := Located(txs[i].outputs, blockId, OrdinalOf(txs, i))))
  }

  function AllTransactions(o: Order, cv: ConsensusValues): seq<Transaction> {
    Submitted(o) + cv.rebroadcasts + if cv.feeTransaction.Some? then [cv.feeTransaction.value] else []
  }

  function Finished(rules: Rules, o: Order, ctx: Context): Block
    requires rules.Valid() && Readable(Draft(o, ctx), ctx)
  {
    var draft := Draft(o, ctx);
    var cv := ConsensusOf(rules, draft, ctx);
    DraftPaysNothing(rules, o, ctx);
    draft.(
      figures := cv.figures,
      treasury := PreviousTreasury(ctx) + cv.figures.payoutTreasury - cv.figures.payoutAtr,
      graveyard := (if ctx.previous.Some? then ctx.previous.value.graveyard else 0) + cv.figures.payoutGraveyard,
      transactions := Stamped(AllTransactions(o, cv), draft.id))
  }

  /** With the treasury still zero the cap is taken whenever there is anything to pay, and pays nothing. */
  lemma {:induction false} DraftPaysNothing(rules: Rules, o: Order, ctx: Context)
    requires rules.Valid() && Readable(Draft(o, ctx), ctx)
    ensures ConsensusOf(rules, Draft(o, ctx), ctx).figures.payoutAtr == 0
  {
    var raw := RawScan(rules, Draft(o, ctx), ctx);
    RawScanHasPayloads(rules, Draft(o, ctx), ctx);
    RescalingByOne(raw.rebroadcasts);
    if raw.payout > 0 { RawPayoutNeedsNolan(rules, Draft(o, ctx), ctx); }
  }

  lemma {:induction false} RescalingByOne(txs: seq<Transaction>)
    requires forall tx | tx in txs :: HasPayload(tx)
    ensures RescaledPayout(txs, 1) == 0
  {
    if txs != [] { RescalingByOne(txs[1..]); }
  }

  // ---------- the double-spend exit ----------

  function NotFees(txs: seq<Transaction>): seq<Transaction> {
    if txs == [] then [] else (if txs[0].kind.Fee? then [] else [txs[0]]) + NotFees(txs[1..])
  }

  lemma {:induction false} SpentConcat(a: seq<Transaction>, b: seq<Transaction>)
    ensures Spent(a + b) == Spent(a) + Spent(b)
  {
    if a == [] {
      assert a + b == b;
    } else {
      assert (a + b)[1..] == a[1..] + b;
      SpentConcat(a[1..], b);
    }
  }

  lemma {:induction false} NotFeesConcat(a: seq<Transaction>, b: seq<Transaction>)
    ensures NotFees(a + b) == NotFees(a) + NotFees(b)
  {
    if a == [] {
      assert a + b == b;
    } else {
      assert (a + b)[1..] == a[1..] + b;
      NotFeesConcat(a[1..], b);
    }
  }

  /** The loop that makes `create` fail with "double-spend detected". */
  method CheckDoubleSpends(txs: seq<Transaction>) returns (ok: bool)
    ensures ok <==> NoRepeats(Spent(NotFees(txs)))
  {
    var seen: set<Slip> := {};
    ghost var spent: seq<Slip> := [];
    for i := 0 to |txs|
      invariant spent == Spent(NotFees(txs[..i])) && NoRepeats(spent) && seen == set s | s in spent
    {
      assert txs == txs[..i] + [txs[i]] + txs[i + 1..] && txs[..i + 1] == txs[..i] + [txs[i]];
      NotFeesConcat(txs[..i], [txs[i]]);
      assert [txs[i]][1..] == [];
      if !txs[i].kind.Fee? {
        assert NotFees([txs[i]]) == [txs[i]];
        assert Spent([txs[i]]) == Positive(txs[i].inputs);
        SpentConcat(NotFees(txs[..i]), [txs[i]]);
        var fine, now := EnterInputs(Positive(txs[i].inputs), spent, seen);
        if !fine {
          NotFeesConcat(txs[..i + 1], txs[i + 1..]);
          SpentConcat(NotFees(txs[..i + 1]), NotFees(txs[i + 1..]));
          PrefixRepeats(Spent(NotFees(txs[..i + 1])), Spent(NotFees(txs[i + 1..])));
          return false;
        }
        seen, spent := now, spent + Positive(txs[i].inputs);
      } else {
        assert NotFees(txs[..i + 1]) == NotFees(txs[..i]);
      }
    }
    assert txs[..|txs|] == txs;
    return true;
  }

  /** Create fails exactly when a slip with value is spent twice, and otherwise returns the finished block. */
  method Create(rules: Rules, o: Order, ctx: Context) returns (r: Result<Block>)
    requires rules.Valid() && Readable(Draft(o, ctx), ctx)
    ensures var cv := ConsensusOf(rules, Draft(o, ctx), ctx);
      r.Ok? <==> NoRepeats(Spent(NotFees(AllTransactions(o, cv))))
    ensures r.Ok? ==> r.value == Finished(rules, o, ctx)
  {
    var cv := GenerateConsensusValues(rules, Draft(o, ctx), ctx);
    var ok := CheckDoubleSpends(AllTransactions(o, cv));
    if !ok {
      return Err("double-spend detected");
    }
    return Ok(Finished(rules, o, ctx));
  }

  // ---------- the raw payout ----------

  /** Whoever is paid by the treasury had a slip to be paid for. */
  ghost predicate PaidForNolan(s: Scan) {
    && (s.payout > 0 ==> s.nolan > 0)
    && forall r | r in s.rebroadcasts :: HasPayload(r) && r.inputs[PayloadIndex(r)].amount > 0
  }

  lemma {:induction false} ProcessPaidForNolan(acc: Scan, tx: Transaction, outputs: seq<Slip>, j: nat, t: Terms)
    requires t.multiplier >= 1 && j <= |outputs| && PaidForNolan(acc)
    ensures PaidForNolan(Process(acc, tx, outputs, j, t))
    decreases |outputs| - j
  {
    if j == |outputs| {
    } else if GroupAt(outputs, j) {
      var next := GroupStep(acc, tx, outputs[j], outputs[j + 1], outputs[j + 2], t);
      assert outputs[j + 1].amount == 0 ==> outputs[j + 1].amount * t.multiplier == 0;
      ProcessPaidForNolan(next, tx, outputs, j + 3, t);
    } else {
      var next := SingleStep(acc, tx, outputs[j], t);
      assert outputs[j].amount == 0 ==> outputs[j].amount * t.multiplier == 0;
      ProcessPaidForNolan(next, tx, outputs, j + 1, t);
    }
  }

  lemma {:induction false} ScanPaidForNolan(acc: Scan, txs: seq<Transaction>, k: nat, p: Pricing)
    requires p.multiplier >= 1 && k <= |txs| && PaidForNolan(acc)
    ensures PaidForNolan(ScanFrom(acc, txs, k, p))
    decreases |txs| - k
  {
    if k < |txs| {
      var outputs := Eligible(txs[k].outputs, p.utxo, 0);
      ProcessPaidForNolan(acc, txs[k], outputs, 0, TermsFor(p, txs[k]));
      ScanPaidForNolan(Process(acc, txs[k], outputs, 0, TermsFor(p, txs[k])), txs, k + 1, p);
    }
  }

  lemma {:induction false} RawPayoutNeedsNolan(rules: Rules, b: Block, ctx: Context)
    ensures PaidForNolan(RawScan(rules, b, ctx))
    ensures RawScan(rules, b, ctx).payout > 0 ==> RawScan(rules, b, ctx).rebroadcasts != []
  {
    if Rebroadcasting(rules, b, ctx) {
      ScanPaidForNolan(EMPTY_SCAN, ctx.expiring.value.transactions, 0, PricingFor(rules, ctx));
      ScanPayout(EMPTY_SCAN, ctx.expiring.value.transactions, 0, PricingFor(rules, ctx));
    }
  }
}
