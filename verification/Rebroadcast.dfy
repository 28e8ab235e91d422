/**
 * Automatic transaction rebroadcast (ATR): the scan of the block that leaves the genesis window.
 * Every spendable output of that block is either carried into the new block, its owner paying a
 * fee and receiving a share of the treasury, or collected as a fee when it cannot cover the fee.
 */
module Rebroadcast {
  import opened Sums
  import opened Types

  // ---------- the scan as the source performs it ----------

  /** What the scan accumulates in the consensus values. */
  datatype Scan = Scan(
    nolan: Currency,        // total_rebroadcast_nolan
    slips: nat,             // total_rebroadcast_slips
    payout: Currency,       // total_payout_atr
    fees: Currency,         // total_fees_atr
    dust: Currency,         // total_fees_paid_by_nonrebroadcast_atr_transactions
    rebroadcasts: seq<Transaction>)

  const EMPTY_SCAN := Scan(0, 0, 0, 0, 0, [])

  /** Slip::validate against the utxoset: a slip without value always passes. */
  predicate Spendable(s: Slip, utxo: set<Slip>) {
    s.amount == 0 || s in utxo
  }

  /** An NFT group [Bound, not Bound, Bound] starting at `i`. */
  predicate GroupAt(slips: seq<Slip>, i: nat) {
    i + 2 < |slips| && slips[i].kind.Bound? && !slips[i + 1].kind.Bound? && slips[i + 2].kind.Bound?
  }

  /** The eligible outputs from position `i` on; an NFT group is eligible as a whole or not at all. */
  function Eligible(slips: seq<Slip>, utxo: set<Slip>, i: nat): seq<Slip>
    requires i <= |slips|
    decreases |slips| - i
  {
    if i == |slips| then []
    else if GroupAt(slips, i) then
      (if forall k :: i <= k < i + 3 ==> Spendable(slips[k], utxo) then slips[i..i + 3] else [])
      + Eligible(slips, utxo, i + 3)
    else
      (if Spendable(slips[i], utxo) then [slips[i]] else []) + Eligible(slips, utxo, i + 1)
  }

  /** generate_total_fees(ordinal, block): every output is stamped with its location; indices are u8. */
  function Located(slips: seq<Slip>, blockId: nat, ordinal: nat): (r: seq<Slip>)
    ensures |r| == |slips|
    ensures forall i :: 0 <= i < |r| ==>
      r[i] == slips[i].(blockId := blockId, txOrdinal := ordinal, slipIndex := i % 256)
  {
    seq(|slips|, i requires 0 <= i < |slips| =>
      slips[i].(blockId := blockId, txOrdinal := ordinal, slipIndex := i % 256))
  }

  /** A rebroadcast carries the first original transaction along, however often it is repeated. */
  function Carried(tx: Transaction): Payload {
    if tx.kind.ATR? then tx.data else Wrapped(tx)
  }

  function RebroadcastOf(tx: Transaction, inputs: seq<Slip>, outputs: seq<Slip>): Transaction {
    Transaction(TransactionType.ATR, 0, inputs, Located(outputs, 0, 0), Carried(tx), [], 1, tx.signature)
  }

  function SingleRebroadcast(tx: Transaction, s: Slip, gross: Currency, fee: Currency): Transaction
    requires gross > fee
  {
    RebroadcastOf(tx, [s.(amount := gross)], [s.(amount := gross - fee, kind := SlipType.ATR)])
  }

  /** The two parameters of a scan step: the fee for the transaction and the payout multiplier. */
  datatype Terms = Terms(fee: Currency, multiplier: nat)

  function SingleStep(acc: Scan, tx: Transaction, s: Slip, t: Terms): Scan
    requires t.multiplier >= 1
  {
    var gross := s.amount * t.multiplier;
    assert gross >= s.amount;
    if gross > t.fee then
      acc.(nolan := acc.nolan + s.amount,
           slips := acc.slips + 1,
           payout := acc.payout + (gross - s.amount),
           fees := acc.fees + t.fee,
           rebroadcasts := acc.rebroadcasts +
             [SingleRebroadcast(tx, s, gross, t.fee)])
    else
      acc.(nolan := acc.nolan + s.amount, fees := acc.fees + s.amount, dust := acc.dust + s.amount)
  }

  /** For an NFT group the fee is charged but the payload slip goes out undiminished. */
  function GroupStep(acc: Scan, tx: Transaction, a: Slip, s: Slip, c: Slip, t: Terms): Scan
    requires t.multiplier >= 1
  {
    var gross := s.amount * t.multiplier;
    assert gross >= s.amount;
    if gross > t.fee then
      acc.(nolan := acc.nolan + s.amount,
           slips := acc.slips + 1,
           payout := acc.payout + (gross - s.amount),
           fees := acc.fees + t.fee,
           rebroadcasts := acc.rebroadcasts +
             [RebroadcastOf(tx, [a, s.(amount := gross), c], [a, s.(amount := gross, kind := SlipType.ATR), c])])
    else
      acc.(nolan := acc.nolan + s.amount, fees := acc.fees + s.amount, dust := acc.dust + s.amount)
  }

  /** The second loop: work through the eligible outputs of one transaction from position `j` on. */
  function Process(acc: Scan, tx: Transaction, outputs: seq<Slip>, j: nat, t: Terms): Scan
    requires t.multiplier >= 1 && j <= |outputs|
    decreases |outputs| - j
  {
    if j == |outputs| then acc
    else if GroupAt(outputs, j) then
      Process(GroupStep(acc, tx, outputs[j], outputs[j + 1], outputs[j + 2], t), tx, outputs, j + 3, t)
    else
      Process(SingleStep(acc, tx, outputs[j], t), tx, outputs, j + 1, t)
  }

  /** Fee per byte and payout multiplier that a whole scan works with. */
  datatype Pricing = Pricing(feePerByte: Currency, multiplier: nat, utxo: set<Slip>)

  function TermsFor(p: Pricing, tx: Transaction): Terms {
    Terms(SerializedSize(tx) * p.feePerByte, p.multiplier)
  }

  function ScanFrom(acc: Scan, txs: seq<Transaction>, k: nat, p: Pricing): Scan
    requires p.multiplier >= 1 && k <= |txs|
    decreases |txs| - k
  {
    if k == |txs| then acc
    else
      var outputs := Eligible(txs[k].outputs, p.utxo, 0);
      ScanFrom(Process(acc, txs[k], outputs, 0, TermsFor(p, txs[k])), txs, k + 1, p)
  }

  method CollectOutputs(slips: seq<Slip>, utxo: set<Slip>) returns (outputs: seq<Slip>)
    ensures outputs == Eligible(slips, utxo, 0)
  {
    outputs := [];
    var i := 0;
    while i < |slips|
      invariant i <= |slips|
      invariant outputs + Eligible(slips, utxo, i) == Eligible(slips, utxo, 0)
    {
      ghost var rest := Eligible(slips, utxo, i);
      if GroupAt(slips, i) {
        var group := [];
        if Spendable(slips[i], utxo) && Spendable(slips[i + 1], utxo) && Spendable(slips[i + 2], utxo) {
          group := slips[i..i + 3];
        }
        assert rest == group + Eligible(slips, utxo, i + 3);
        outputs, i := outputs + group, i + 3;
      } else {
        var single := if Spendable(slips[i], utxo) then [slips[i]] else [];
        assert rest == single + Eligible(slips, utxo, i + 1);
        outputs, i := outputs + single, i + 1;
      }
    }
  }

  /** The nested loops over the expiring block. */
  method ScanExpiringBlock(txs: seq<Transaction>, p: Pricing) returns (acc: Scan)
    requires p.multiplier >= 1
    ensures acc == ScanFrom(EMPTY_SCAN, txs, 0, p)
  {
    acc := EMPTY_SCAN;
    for k := 0 to |txs|
      invariant ScanFrom(acc, txs, k, p) == ScanFrom(EMPTY_SCAN, txs, 0, p)
    {
      var tx := txs[k];
      var outputs := CollectOutputs(tx.outputs, p.utxo);
      var terms := TermsFor(p, tx);
      ghost var before := acc;
      var j := 0;
      while j < |outputs|
        invariant j <= |outputs|
        invariant Process(acc, tx, outputs, j, terms) == Process(before, tx, outputs, 0, terms)
      {
        if GroupAt(outputs, j) {
          acc := GroupStep(acc, tx, outputs[j], outputs[j + 1], outputs[j + 2], terms);
          j := j + 3;
        } else {
          acc := SingleStep(acc, tx, outputs[j], terms);
          j := j + 1;
        }
      }
    }
  }

  // ---------- the balance of the scan ----------

  function OutputValue(tx: Transaction): Currency {
    Values(tx.outputs)
  }

  /** Value created by the scan beyond the nolan taken in and the treasury payout. */
  function Imbalance(s: Scan): int {
    Along(s.rebroadcasts, OutputValue) + s.fees - s.nolan - s.payout
  }

  /** Fees booked for rebroadcasts beyond what those transactions carry. */
  function Uncarried(s: Scan): int {
    s.fees - s.dust - Along(s.rebroadcasts, FeeOf)
  }

  lemma {:induction false} LocatedValues(slips: seq<Slip>, blockId: nat, ordinal: nat)
    ensures Values(Located(slips, blockId, ordinal)) == Values(slips)
  {
    SameValues(slips, Located(slips, blockId, ordinal));
  }

  lemma {:induction false} SameValues(a: seq<Slip>, b: seq<Slip>)
    requires |a| == |b| && forall i :: 0 <= i < |a| ==> Value(a[i]) == Value(b[i])
    ensures Values(a) == Values(b)
  {
    if a != [] { SameValues(a[1..], b[1..]); }
  }

  lemma {:induction false} SingleRebroadcastValue(tx: Transaction, s: Slip, gross: Currency, fee: Currency)
    requires gross > fee
    ensures OutputValue(SingleRebroadcast(tx, s, gross, fee)) == gross - fee
    ensures FeeOf(SingleRebroadcast(tx, s, gross, fee)) == if s.kind.Bound? then 0 else fee
  {
    var (i, o) := (s.(amount := gross), s.(amount := gross - fee, kind := SlipType.ATR));
    LocatedValues([o], 0, 0);
    AlongOne(i, Value);
    AlongOne(o, Value);
  }

  lemma {:induction false} SingleStepBalance(acc: Scan, tx: Transaction, s: Slip, t: Terms)
    requires t.multiplier >= 1
    ensures Imbalance(SingleStep(acc, tx, s, t)) == Imbalance(acc)
    ensures Uncarried(SingleStep(acc, tx, s, t)) ==
      Uncarried(acc) + if s.kind.Bound? && s.amount * t.multiplier > t.fee then t.fee else 0
  {
    var gross := s.amount * t.multiplier;
    if gross > t.fee {
      var r := SingleRebroadcast(tx, s, gross, t.fee);
      SingleRebroadcastValue(tx, s, gross, t.fee);
      AlongAppend(acc.rebroadcasts, r, OutputValue);
      AlongAppend(acc.rebroadcasts, r, FeeOf);
    }
  }

  lemma {:induction false} GroupStepBalance(acc: Scan, tx: Transaction, a: Slip, s: Slip, c: Slip, t: Terms)
    requires t.multiplier >= 1 && a.kind.Bound? && !s.kind.Bound? && c.kind.Bound?
    ensures Imbalance(GroupStep(acc, tx, a, s, c, t)) ==
      Imbalance(acc) + if s.amount * t.multiplier > t.fee then t.fee else 0
    ensures Uncarried(GroupStep(acc, tx, a, s, c, t)) ==
      Uncarried(acc) + if s.amount * t.multiplier > t.fee then t.fee else 0
  {
    var gross := s.amount * t.multiplier;
    assert gross >= s.amount;
    if gross > t.fee {
      var (i, o) := ([a, s.(amount := gross), c], [a, s.(amount := gross, kind := SlipType.ATR), c]);
      var r := RebroadcastOf(tx, i, o);
      LocatedValues(o, 0, 0);
      GroupValues(a, s.(amount := gross), c);
      GroupValues(a, s.(amount := gross, kind := SlipType.ATR), c);
      AlongAppend(acc.rebroadcasts, r, OutputValue);
      AlongAppend(acc.rebroadcasts, r, FeeOf);
    }
  }

  lemma {:induction false} GroupValues(a: Slip, s: Slip, c: Slip)
    requires a.kind.Bound? && !s.kind.Bound? && c.kind.Bound?
    ensures Values([a, s, c]) == s.amount
  {
    assert [a, s, c] == [a, s] + [c] && [a, s] == [a] + [s];
    AlongAppend([a, s], c, Value);
    AlongAppend([a], s, Value);
    AlongOne(a, Value);
  }

  /** Fees booked for the rebroadcast NFT groups, or also for lone Bound slips, of one transaction. */
  function BoundFees(outputs: seq<Slip>, j: nat, t: Terms, loneToo: bool): nat
    requires j <= |outputs|
    decreases |outputs| - j
  {
    if j == |outputs| then 0
    else if GroupAt(outputs, j) then
      (if outputs[j + 1].amount * t.multiplier > t.fee then t.fee else 0) + BoundFees(outputs, j + 3, t, loneToo)
    else
      (if loneToo && outputs[j].kind.Bound? && outputs[j].amount * t.multiplier > t.fee then t.fee else 0)
      + BoundFees(outputs, j + 1, t, loneToo)
  }

  lemma {:induction false} ProcessBalance(acc: Scan, tx: Transaction, outputs: seq<Slip>, j: nat, t: Terms)
    requires t.multiplier >= 1 && j <= |outputs|
    ensures Imbalance(Process(acc, tx, outputs, j, t)) == Imbalance(acc) + BoundFees(outputs, j, t, false)
    ensures Uncarried(Process(acc, tx, outputs, j, t)) == Uncarried(acc) + BoundFees(outputs, j, t, true)
    decreases |outputs| - j
  {
    if j == |outputs| {
    } else if GroupAt(outputs, j) {
      GroupStepBalance(acc, tx, outputs[j], outputs[j + 1], outputs[j + 2], t);
      ProcessBalance(GroupStep(acc, tx, outputs[j], outputs[j + 1], outputs[j + 2], t), tx, outputs, j + 3, t);
    } else {
      SingleStepBalance(acc, tx, outputs[j], t);
      ProcessBalance(SingleStep(acc, tx, outputs[j], t), tx, outputs, j + 1, t);
    }
  }

  function ScanBoundFees(txs: seq<Transaction>, k: nat, p: Pricing, loneToo: bool): nat
    requires k <= |txs|
    decreases |txs| - k
  {
    if k == |txs| then 0
    else BoundFees(Eligible(txs[k].outputs, p.utxo, 0), 0, TermsFor(p, txs[k]), loneToo)
         + ScanBoundFees(txs, k + 1, p, loneToo)
  }

  lemma {:induction false} ScanBalanceFrom(acc: Scan, txs: seq<Transaction>, k: nat, p: Pricing)
    requires p.multiplier >= 1 && k <= |txs|
    ensures Imbalance(ScanFrom(acc, txs, k, p)) == Imbalance(acc) + ScanBoundFees(txs, k, p, false)
    ensures Uncarried(ScanFrom(acc, txs, k, p)) == Uncarried(acc) + ScanBoundFees(txs, k, p, true)
    decreases |txs| - k
  {
    if k < |txs| {
      var outputs := Eligible(txs[k].outputs, p.utxo, 0);
      ProcessBalance(acc, txs[k], outputs, 0, TermsFor(p, txs[k]));
      ScanBalanceFrom(Process(acc, txs[k], outputs, 0, TermsFor(p, txs[k])), txs, k + 1, p);
    }
  }

  /**
   * ATR balance of a whole scan. Nolan taken in plus treasury payout equals rebroadcast outputs plus
   * fees exactly when no NFT group is rebroadcast at a positive fee; and the fees booked for
   * rebroadcasts are those their transactions carry exactly when no Bound slip is either.
   */
  lemma {:induction false} ScanBalance(txs: seq<Transaction>, p: Pricing)
    requires p.multiplier >= 1
    ensures var s := ScanFrom(EMPTY_SCAN, txs, 0, p);
      && s.nolan + s.payout + ScanBoundFees(txs, 0, p, false) == Along(s.rebroadcasts, OutputValue) + s.fees
      && s.fees == s.dust + Along(s.rebroadcasts, FeeOf) + ScanBoundFees(txs, 0, p, true)
  {
    ScanBalanceFrom(EMPTY_SCAN, txs, 0, p);
  }

  /** An NFT group worth 1000 nolan, rebroadcast at one nolan per byte. */
  const NFT_OUTPUTS := [
    Slip(7, 1, 0, 1, 0, SlipType.Bound), Slip(7, 1000, 1, 1, 0, SlipType.Normal), Slip(7, 0, 2, 1, 0, SlipType.Bound)]
  const NFT := Transaction(TransactionType.Bound, 0, [], NFT_OUTPUTS, Bytes(0), [], 1, 0)
  const NFT_PRICING := Pricing(1, 1, {NFT_OUTPUTS[0], NFT_OUTPUTS[1]})

  /** The balance does fail on NFT groups: this scan books a fee of 270 that nobody pays. */
  lemma {:induction false} GroupBreaksTheBalance()
    ensures var s := ScanFrom(EMPTY_SCAN, [NFT], 0, NFT_PRICING);
      s.nolan + s.payout + 270 == Along(s.rebroadcasts, OutputValue) + s.fees
  {
    assert GroupAt(NFT_OUTPUTS, 0);
    assert NFT_OUTPUTS[0..3] == NFT_OUTPUTS;
    assert Eligible(NFT_OUTPUTS, NFT_PRICING.utxo, 3) == [];
    assert Eligible(NFT_OUTPUTS, NFT_PRICING.utxo, 0) == NFT_OUTPUTS;
    assert TermsFor(NFT_PRICING, NFT) == Terms(270, 1);
    assert BoundFees(NFT_OUTPUTS, 3, Terms(270, 1), false) == 0;
    assert BoundFees(NFT_OUTPUTS, 0, Terms(270, 1), false) == 270;
    assert ScanBoundFees([NFT], 1, NFT_PRICING, false) == 0;
    ScanBalance([NFT], NFT_PRICING);
  }

  // ---------- the cap on treasury payouts ----------

  /** The transaction has an input and an output at the index of its payload slip. */
  predicate HasPayload(tx: Transaction) {
    PayloadIndex(tx) < |tx.inputs| && PayloadIndex(tx) < |tx.outputs|
  }

  function PayloadIndex(tx: Transaction): nat {
    if |tx.inputs| == 3 && |tx.outputs| == 3 && GroupAt(tx.inputs, 0) then 1 else 0
  }

  function Rescaled(tx: Transaction, multiplier: nat): Transaction
    requires HasPayload(tx)
  {
    var k := PayloadIndex(tx);
    tx.(outputs := tx.outputs[k := tx.outputs[k].(amount := tx.inputs[k].amount * multiplier)])
  }

  function RescaledAll(txs: seq<Transaction>, multiplier: nat): (r: seq<Transaction>)
    requires forall tx | tx in txs :: HasPayload(tx)
    ensures |r| == |txs| && forall i :: 0 <= i < |r| ==> r[i] == Rescaled(txs[i], multiplier)
  {
    seq(|txs|, i requires 0 <= i < |txs| => Rescaled(txs[i], multiplier))
  }

  /** What the rescaled rebroadcasts pay out over their (already multiplied) inputs. */
  function RescaledPayout(txs: seq<Transaction>, multiplier: nat): Currency
    requires multiplier >= 1
    requires forall tx | tx in txs :: HasPayload(tx)
  {
    if txs == [] then 0 else
      assert HasPayload(txs[0]);
      txs[0].inputs[PayloadIndex(txs[0])].amount * (multiplier - 1) + RescaledPayout(txs[1..], multiplier)
  }

  lemma {:induction false} RescaledPayoutAppend(txs: seq<Transaction>, tx: Transaction, multiplier: nat)
    requires multiplier >= 1 && HasPayload(tx)
    requires forall t | t in txs :: HasPayload(t)
    ensures RescaledPayout(txs + [tx], multiplier) ==
      RescaledPayout(txs, multiplier) + tx.inputs[PayloadIndex(tx)].amount * (multiplier - 1)
  {
    if txs == [] {
      assert txs + [tx] == [tx] && [tx][1..] == [];
    } else {
      assert (txs + [tx])[1..] == txs[1..] + [tx];
      RescaledPayoutAppend(txs[1..], tx, multiplier);
    }
  }

  method RescaleRebroadcasts(txs: seq<Transaction>, multiplier: nat)
    returns (adjusted: seq<Transaction>, payout: Currency)
    requires multiplier >= 1
    requires forall tx | tx in txs :: HasPayload(tx)
    ensures adjusted == RescaledAll(txs, multiplier)
    ensures payout == RescaledPayout(txs, multiplier)
  {
    adjusted, payout := [], 0;
    for i := 0 to |txs|
      invariant |adjusted| == i && forall k :: 0 <= k < i ==> adjusted[k] == Rescaled(txs[k], multiplier)
      invariant payout == RescaledPayout(txs[..i], multiplier)
    {
      assert txs[i] in txs;
      var k := PayloadIndex(txs[i]);
      var input := txs[i].inputs[k].amount;
      assert txs[..i + 1] == txs[..i] + [txs[i]];
      RescaledPayoutAppend(txs[..i], txs[i], multiplier);
      assert input * multiplier == input * (multiplier - 1) + input;
      adjusted := adjusted + [Rescaled(txs[i], multiplier)];
      payout := payout + (input * multiplier - input);
    }
    assert txs[..|txs|] == txs;
  }

  /** Rebroadcasts built by a scan always have a payload. */
  lemma {:induction false} ScanHasPayloads(acc: Scan, txs: seq<Transaction>, k: nat, p: Pricing)
    requires p.multiplier >= 1 && k <= |txs|
    requires forall tx | tx in acc.rebroadcasts :: HasPayload(tx)
    ensures forall tx | tx in ScanFrom(acc, txs, k, p).rebroadcasts :: HasPayload(tx)
    decreases |txs| - k
  {
    if k < |txs| {
      var outputs := Eligible(txs[k].outputs, p.utxo, 0);
      ProcessHasPayloads(acc, txs[k], outputs, 0, TermsFor(p, txs[k]));
      ScanHasPayloads(Process(acc, txs[k], outputs, 0, TermsFor(p, txs[k])), txs, k + 1, p);
    }
  }

  lemma {:induction false} ProcessHasPayloads(acc: Scan, tx: Transaction, outputs: seq<Slip>, j: nat, t: Terms)
    requires t.multiplier >= 1 && j <= |outputs|
    requires forall r | r in acc.rebroadcasts :: HasPayload(r)
    ensures forall r | r in Process(acc, tx, outputs, j, t).rebroadcasts :: HasPayload(r)
    decreases |outputs| - j
  {
    if j == |outputs| {
    } else if GroupAt(outputs, j) {
      ProcessHasPayloads(GroupStep(acc, tx, outputs[j], outputs[j + 1], outputs[j + 2], t), tx, outputs, j + 3, t);
    } else {
      ProcessHasPayloads(SingleStep(acc, tx, outputs[j], t), tx, outputs, j + 1, t);
    }
  }
}
