/** `Block::validate`: which blocks a node accepts on top of its chain. */
module Validation {
  import opened Sums
  import opened Types
  import opened Utxo
  import opened Rebroadcast
  import opened Payouts
  import opened Consensus

  /** serialize_for_signature leaves out where slips are located, the path and the signature. */
  function Signed(tx: Transaction): Transaction {
    tx.(inputs := Unlocated(tx.inputs), outputs := Unlocated(tx.outputs), path := [], signature := 0)
  }

  function Unlocated(slips: seq<Slip>): (r: seq<Slip>)
    ensures |r| == |slips|
    ensures forall i :: 0 <= i < |r| ==> r[i] == slips[i].(blockId := 0, txOrdinal := 0)
  {
    seq(|slips|, i requires 0 <= i < |slips| => slips[i].(blockId := 0, txOrdinal := 0))
  }

  /** Two lists whose folded hashes agree, the hash being free of collisions. */
  predicate SameSigned(a: seq<Transaction>, b: seq<Transaction>) {
    |a| == |b| && forall i :: 0 <= i < |a| ==> Signed(a[i]) == Signed(b[i])
  }

  /** Slips that agree in all that is signed: key, amount, index and kind, but not where they are located. */
  ghost predicate SlipsAlike(a: seq<Slip>, b: seq<Slip>) {
    |a| == |b| && forall i :: 0 <= i < |a| ==>
      && a[i].publicKey == b[i].publicKey && a[i].amount == b[i].amount
      && a[i].slipIndex == b[i].slipIndex && a[i].kind == b[i].kind
  }

  lemma {:induction false} UnlocatedAlike(a: seq<Slip>, b: seq<Slip>)
    ensures Unlocated(a) == Unlocated(b) <==> SlipsAlike(a, b)
  {
    if Unlocated(a) == Unlocated(b) {
      assert |a| == |Unlocated(a)| == |b|;
      forall i | 0 <= i < |a|
        ensures a[i].(blockId := 0, txOrdinal := 0) == b[i].(blockId := 0, txOrdinal := 0)
      {
        assert Unlocated(a)[i] == Unlocated(b)[i];
      }
    }
  }

  /** Transactions that agree in all that is signed: neither path nor signature, nor where slips are located. */
  ghost predicate SignAlike(a: Transaction, b: Transaction) {
    && a.kind == b.kind && a.timestamp == b.timestamp && a.data == b.data && a.replacements == b.replacements
    && SlipsAlike(a.inputs, b.inputs) && SlipsAlike(a.outputs, b.outputs)
  }

  lemma {:induction false} SignedIff(a: Transaction, b: Transaction)
    ensures Signed(a) == Signed(b) <==> SignAlike(a, b)
  {
    UnlocatedAlike(a.inputs, b.inputs);
    UnlocatedAlike(a.outputs, b.outputs);
    var (x, y) := (Signed(a), Signed(b));
    assert x == y ==> x.inputs == y.inputs && x.outputs == y.outputs && x.kind == y.kind;
  }

  lemma {:induction false} SignedValues(a: Transaction, b: Transaction)
    requires Signed(a) == Signed(b)
    ensures Values(a.outputs) == Values(b.outputs)
    ensures |a.inputs| == |b.inputs|
  {
    var (x, y) := (Unlocated(a.outputs), Unlocated(b.outputs));
    assert x == y;
    forall i | 0 <= i < |a.outputs| ensures Value(a.outputs[i]) == Value(b.outputs[i]) {
      assert x[i] == y[i];
    }
    SameValues(a.outputs, b.outputs);
    assert Unlocated(a.inputs) == Unlocated(b.inputs);
  }

  lemma {:induction false} SameSignedValues(a: seq<Transaction>, b: seq<Transaction>)
    requires SameSigned(a, b)
    ensures Along(a, OutputValue) == Along(b, OutputValue)
  {
    if a != [] {
      SignedValues(a[0], b[0]);
      SameSignedValues(a[1..], b[1..]);
    }
  }

  function OfKind(txs: seq<Transaction>, kind: TransactionType): (r: seq<Transaction>)
    ensures forall tx :: tx in r <==> tx in txs && tx.kind == kind
  {
    if txs == [] then []
    else (if txs[0].kind == kind then [txs[0]] else []) + OfKind(txs[1..], kind)
  }

  /** The checks of the block's figures, treasury, graveyard and unpaid fees against recomputed values. */
  ghost predicate HeaderMatches(b: Block, ctx: Context, cv: ConsensusValues) {
    && b.figures == cv.figures
    && (ctx.previous.Some? ==>
          var p := ctx.previous.value;
          && b.treasury == p.treasury + cv.figures.payoutTreasury - cv.figures.payoutAtr
          && b.graveyard == p.graveyard + cv.figures.payoutGraveyard
          && b.previousUnpaid == if cv.ticketIndex.Some? then 0 else p.figures.totalFees)
  }

  /** The checks of the rebroadcasts and of the fee transaction inside the block. */
  ghost predicate ContentsMatch(b: Block, cv: ConsensusValues) {
    && SameSigned(OfKind(b.transactions, TransactionType.ATR), cv.hashed)
    && (cv.feeIndex.Some? && cv.feeTransaction.Some? && cv.feeIndex.value < |b.transactions| ==>
          Signed(b.transactions[cv.feeIndex.value]) == Signed(cv.feeTransaction.value))
  }

  ghost predicate HeaderValidates(rules: Rules, b: Block, ctx: Context)
    requires rules.Valid() && Readable(b, ctx)
  {
    HeaderMatches(b, ctx, ConsensusOf(rules, b, ctx))
  }

  ghost predicate ContentsValidate(rules: Rules, b: Block, ctx: Context)
    requires rules.Valid() && Readable(b, ctx)
  {
    ContentsMatch(b, ConsensusOf(rules, b, ctx))
  }

  ghost predicate ValuesValidate(rules: Rules, b: Block, ctx: Context)
    requires rules.Valid() && Readable(b, ctx)
  {
    HeaderValidates(rules, b, ctx) && ContentsValidate(rules, b, ctx)
  }

  // ---------- the loop over the transactions ----------

  /** The inputs that the loop looks at: those with value that are not Bound. */
  function Looked(slips: seq<Slip>): seq<Slip> {
    if slips == [] then []
    else (if slips[0].amount > 0 && !slips[0].kind.Bound? then [slips[0]] else []) + Looked(slips[1..])
  }

  lemma {:induction false} LookedMembers(slips: seq<Slip>, s: Slip)
    ensures s in Looked(slips) <==> s in slips && s.amount > 0 && !s.kind.Bound?
  {
    if slips != [] { LookedMembers(slips[1..], s); }
  }

  /** Inputs are entered for every transaction but the fee transactions, provided that it validates. */
  predicate Entered(rules: Rules, tx: Transaction, utxo: set<Slip>) {
    !tx.kind.Fee? && rules.validates(tx, utxo)
  }

  function Entries(rules: Rules, txs: seq<Transaction>, utxo: set<Slip>): seq<Slip> {
    if txs == [] then []
    else (if Entered(rules, txs[0], utxo) then Looked(txs[0].inputs) else []) + Entries(rules, txs[1..], utxo)
  }

  /** No slip is entered twice. That a transaction does not validate is no reason to reject the block. */
  ghost predicate NoDoubleSpend(rules: Rules, txs: seq<Transaction>, utxo: set<Slip>) {
    NoRepeats(Entries(rules, txs, utxo))
  }

  lemma {:induction false} EntriesConcat(rules: Rules, a: seq<Transaction>, b: seq<Transaction>, utxo: set<Slip>)
    ensures Entries(rules, a + b, utxo) == Entries(rules, a, utxo) + Entries(rules, b, utxo)
  {
    if a == [] {
      assert a + b == b;
    } else {
      assert (a + b)[1..] == a[1..] + b;
      EntriesConcat(rules, a[1..], b, utxo);
    }
  }

  lemma {:induction false} EntriesOfOne(rules: Rules, tx: Transaction, utxo: set<Slip>)
    ensures Entries(rules, [tx], utxo) == if Entered(rules, tx, utxo) then Looked(tx.inputs) else []
  {
    assert [tx][1..] == [];
  }

  /** One input after the other goes into the map, until one of them is there already. */
  method EnterInputs(inputs: seq<Slip>, ghost before: seq<Slip>, seen: set<Slip>)
    returns (ok: bool, now: set<Slip>)
    requires NoRepeats(before) && seen == set s | s in before
    ensures ok <==> NoRepeats(before + inputs)
    ensures ok ==> now == set s | s in before + inputs
  {
    now := seen;
    ghost var all := before + inputs;
    for i := 0 to |inputs|
      invariant NoRepeats(before + inputs[..i]) && now == set s | s in before + inputs[..i]
    {
      ghost var entered := before + inputs[..i];
      assert inputs[..i + 1] == inputs[..i] + [inputs[i]] && before + inputs[..i + 1] == entered + [inputs[i]];
      if inputs[i] in now {
        ghost var k :| 0 <= k < |entered| && entered[k] == inputs[i];
        assert all[k] == all[|entered|];
        return false, now;
      }
      NoRepeatsConcat(entered, [inputs[i]]);
      now := now + {inputs[i]};
    }
    assert inputs[..|inputs|] == inputs;
    return true, now;
  }

  /** The closure that `validate` runs over all transactions; the verdict on each of them is dropped. */
  method CheckTransactions(rules: Rules, txs: seq<Transaction>, utxo: set<Slip>) returns (ok: bool)
    ensures ok <==> NoDoubleSpend(rules, txs, utxo)
  {
    var seen: set<Slip> := {};
    for i := 0 to |txs|
      invariant NoDoubleSpend(rules, txs[..i], utxo) && seen == set s | s in Entries(rules, txs[..i], utxo)
    {
      assert txs[..i + 1] == txs[..i] + [txs[i]] && txs == txs[..i + 1] + txs[i + 1..];
      EntriesConcat(rules, txs[..i], [txs[i]], utxo);
      EntriesConcat(rules, txs[..i + 1], txs[i + 1..], utxo);
      EntriesOfOne(rules, txs[i], utxo);
      var valid := rules.validates(txs[i], utxo);
      if valid && !txs[i].kind.Fee? {
        var fine, now := EnterInputs(Looked(txs[i].inputs), Entries(rules, txs[..i], utxo), seen);
        if !fine {
          PrefixRepeats(Entries(rules, txs[..i + 1], utxo), Entries(rules, txs[i + 1..], utxo));
          return false;
        }
        seen := now;
      }
    }
    assert txs[..|txs|] == txs;
    return true;
  }

  lemma {:induction false} PrefixRepeats<T>(a: seq<T>, b: seq<T>)
    requires !NoRepeats(a)
    ensures !NoRepeats(a + b)
  {
    var i, j :| 0 <= i < j < |a| && a[i] == a[j];
    assert (a + b)[i] == (a + b)[j];
  }

  // ---------- what acceptance does not guarantee ----------

  /** Transactions that come from users rather than from the protocol. */
  predicate FromUser(tx: Transaction) {
    !tx.kind.ATR? && !tx.kind.Fee?
  }

  /** Kinds of transactions whose outputs may not exceed their inputs. */
  predicate MustBeFunded(kind: TransactionType) {
    kind.Normal? || kind.GoldenTicket? || kind.Vip? || kind.Bound?
  }

  predicate AllSpendable(slips: seq<Slip>, utxo: set<Slip>) {
    forall s | s in slips :: Spendable(s, utxo)
  }

  /** Every user's transaction validates, so that it spends slips of the utxoset and is funded. */
  ghost predicate HonestUsers(rules: Rules, txs: seq<Transaction>, utxo: set<Slip>) {
    forall tx | tx in txs && FromUser(tx) ::
      && rules.validates(tx, utxo) && AllSpendable(tx.inputs, utxo)
      && (MustBeFunded(tx.kind) ==> Values(tx.outputs) <= Values(tx.inputs))
  }

  /** The rebroadcasts spend the slips they were computed from; block id and ordinal are not hashed. */
  ghost predicate AsScanned(txs: seq<Transaction>, hashed: seq<Transaction>) {
    var atr := OfKind(txs, TransactionType.ATR);
    |atr| == |hashed| && forall i :: 0 <= i < |atr| ==> atr[i].inputs == hashed[i].inputs
  }

  /** Exactly the expected fee transaction, up to what is not signed. */
  ghost predicate CarriesFee(fees: seq<Transaction>, expected: Option<Transaction>) {
    if expected.Some? then |fees| == 1 && Signed(fees[0]) == Signed(expected.value) else fees == []
  }
}
