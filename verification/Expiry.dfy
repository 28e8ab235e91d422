/** What a scan of the expiring block says about the utxoset it scanned. */
module Expiry {
  import opened Sums
  import opened Types
  import opened Utxo
  import opened Rebroadcast

  ghost predicate NoBoundSlips(slips: seq<Slip>) {
    forall s | s in slips :: !s.kind.Bound?
  }

  ghost predicate NoBoundOutputs(txs: seq<Transaction>) {
    forall tx | tx in txs :: NoBoundSlips(tx.outputs)
  }

  /** The value of those slips that are in the utxoset. */
  ghost function InUtxo(slips: seq<Slip>, utxo: set<Slip>): Currency {
    if slips == [] then 0 else (if slips[0] in utxo then Value(slips[0]) else 0) + InUtxo(slips[1..], utxo)
  }

  lemma {:induction false} InUtxoConcat(a: seq<Slip>, b: seq<Slip>, utxo: set<Slip>)
    ensures InUtxo(a + b, utxo) == InUtxo(a, utxo) + InUtxo(b, utxo)
  {
    if a == [] {
      assert a + b == b;
    } else {
      assert (a + b)[1..] == a[1..] + b;
      InUtxoConcat(a[1..], b, utxo);
    }
  }

  lemma {:induction false} InUtxoPositive(slips: seq<Slip>, utxo: set<Slip>)
    ensures InUtxo(Positive(slips), utxo) == InUtxo(slips, utxo)
  {
    if slips != [] {
      InUtxoPositive(slips[1..], utxo);
      InUtxoConcat(if slips[0].amount > 0 then [slips[0]] else [], Positive(slips[1..]), utxo);
      assert InUtxo([slips[0]], utxo) == if slips[0] in utxo then Value(slips[0]) else 0 by {
        assert [slips[0]][1..] == [];
      }
    }
  }

  /** The slips of a list that are in the utxoset, in order. */
  ghost function Inside(slips: seq<Slip>, utxo: set<Slip>): seq<Slip> {
    if slips == [] then [] else (if slips[0] in utxo then [slips[0]] else []) + Inside(slips[1..], utxo)
  }

  lemma {:induction false} InsideMembers(slips: seq<Slip>, utxo: set<Slip>, s: Slip)
    ensures s in Inside(slips, utxo) <==> s in slips && s in utxo
  {
    if slips != [] { InsideMembers(slips[1..], utxo, s); }
  }

  lemma {:induction false} InsideConcat(a: seq<Slip>, b: seq<Slip>, utxo: set<Slip>)
    ensures Inside(a + b, utxo) == Inside(a, utxo) + Inside(b, utxo)
  {
    if a == [] {
      assert a + b == b;
    } else {
      var head := if a[0] in utxo then [a[0]] else [];
      assert (a + b)[1..] == a[1..] + b;
      InsideConcat(a[1..], b, utxo);
      assert Inside(a, utxo) == head + Inside(a[1..], utxo);
      assert Inside(a + b, utxo) == head + (Inside(a[1..], utxo) + Inside(b, utxo));
    }
  }

  lemma {:induction false} InsideNoRepeats(slips: seq<Slip>, utxo: set<Slip>)
    requires NoRepeats(slips)
    ensures NoRepeats(Inside(slips, utxo))
  {
    if slips != [] {
      assert NoRepeats(slips[1..]);
      InsideNoRepeats(slips[1..], utxo);
      InsideMembers(slips[1..], utxo, slips[0]);
      NoRepeatsConcat(if slips[0] in utxo then [slips[0]] else [], Inside(slips[1..], utxo));
    }
  }

  lemma {:induction false} InUtxoIsInside(slips: seq<Slip>, utxo: set<Slip>)
    ensures InUtxo(slips, utxo) == Along(Inside(slips, utxo), Value)
  {
    if slips != [] {
      InUtxoIsInside(slips[1..], utxo);
      AlongConcat(if slips[0] in utxo then [slips[0]] else [], Inside(slips[1..], utxo), Value);
      AlongOne(slips[0], Value);
    }
  }

  /** Counted along the list or over the set, provided nothing inside the utxoset is listed twice. */
  lemma {:induction false} InUtxoIsOver(slips: seq<Slip>, utxo: set<Slip>)
    requires NoRepeats(Inside(slips, utxo))
    ensures InUtxo(slips, utxo) == Over(Elements(slips) * utxo, Value)
  {
    InUtxoIsInside(slips, utxo);
    AlongIsOver(Inside(slips, utxo), Value);
    forall s ensures s in Inside(slips, utxo) <==> s in slips && s in utxo {
      InsideMembers(slips, utxo, s);
    }
    assert Elements(Inside(slips, utxo)) == Elements(slips) * utxo;
  }

  // ---------- what the scan takes in ----------

  lemma {:induction false} EligibleMembers(slips: seq<Slip>, utxo: set<Slip>, i: nat)
    requires i <= |slips|
    ensures forall s | s in Eligible(slips, utxo, i) :: s in slips && Spendable(s, utxo)
    decreases |slips| - i
  {
    if i == |slips| {
    } else if GroupAt(slips, i) {
      EligibleMembers(slips, utxo, i + 3);
      assert slips[i..i + 3] == [slips[i], slips[i + 1], slips[i + 2]];
    } else {
      EligibleMembers(slips, utxo, i + 1);
    }
  }

  /** Payload slips in the utxoset that are not eligible because the rest of their NFT group is not. */
  function Stranded(slips: seq<Slip>, utxo: set<Slip>, i: nat): Currency
    requires i <= |slips|
    decreases |slips| - i
  {
    if i == |slips| then 0
    else if GroupAt(slips, i) then
      (if slips[i + 1] in utxo && !(Spendable(slips[i], utxo) && Spendable(slips[i + 2], utxo))
       then slips[i + 1].amount else 0)
      + Stranded(slips, utxo, i + 3)
    else Stranded(slips, utxo, i + 1)
  }

  /** Bound slips outside of any group, which the scan takes in as if they had value. */
  function LoneBound(outputs: seq<Slip>, j: nat): Currency
    requires j <= |outputs|
    decreases |outputs| - j
  {
    if j == |outputs| then 0
    else if GroupAt(outputs, j) then LoneBound(outputs, j + 3)
    else (if outputs[j].kind.Bound? then outputs[j].amount else 0) + LoneBound(outputs, j + 1)
  }

  lemma {:induction false} ValuesOfThree(a: Slip, s: Slip, c: Slip, rest: seq<Slip>, utxo: set<Slip>)
    requires a.kind.Bound? && !s.kind.Bound? && c.kind.Bound?
    ensures Along([a, s, c] + rest, Value) == s.amount + Along(rest, Value)
    ensures InUtxo([a, s, c] + rest, utxo) == (if s in utxo then s.amount else 0) + InUtxo(rest, utxo)
  {
    var all := [a, s, c] + rest;
    var (two, one) := ([s, c] + rest, [c] + rest);
    assert all[1..] == two && two[1..] == one && one[1..] == rest;
    assert Along(all, Value) == Along(two, Value) && Along(two, Value) == s.amount + Along(one, Value);
    assert Along(one, Value) == Along(rest, Value);
    assert InUtxo(all, utxo) == InUtxo(two, utxo) && InUtxo(one, utxo) == InUtxo(rest, utxo);
    assert InUtxo(two, utxo) == (if s in utxo then s.amount else 0) + InUtxo(one, utxo);
  }

  /** Without stranded payloads, the eligible slips hold all the value that is left in the utxoset. */
  lemma {:induction false} EligibleTotal(slips: seq<Slip>, utxo: set<Slip>, i: nat)
    requires i <= |slips|
    ensures Along(Eligible(slips, utxo, i), Value) + Stranded(slips, utxo, i) == InUtxo(slips[i..], utxo)
    decreases |slips| - i
  {
    if i == |slips| {
      assert slips[i..] == [];
    } else if GroupAt(slips, i) {
      var (a, s, c) := (slips[i], slips[i + 1], slips[i + 2]);
      EligibleTotal(slips, utxo, i + 3);
      assert slips[i..i + 3] == [a, s, c] && slips[i..] == [a, s, c] + slips[i + 3..];
      ValuesOfThree(a, s, c, slips[i + 3..], utxo);
      ValuesOfThree(a, s, c, Eligible(slips, utxo, i + 3), utxo);
      var rest := Eligible(slips, utxo, i + 3);
      if Spendable(a, utxo) && Spendable(s, utxo) && Spendable(c, utxo) {
        assert Eligible(slips, utxo, i) == [a, s, c] + rest;
      } else {
        assert !(forall k :: i <= k < i + 3 ==> Spendable(slips[k], utxo));
        assert Eligible(slips, utxo, i) == rest;
      }
    } else {
      EligibleTotal(slips, utxo, i + 1);
      assert slips[i..][1..] == slips[i + 1..];
      AlongConcat(if Spendable(slips[i], utxo) then [slips[i]] else [], Eligible(slips, utxo, i + 1), Value);
      AlongOne(slips[i], Value);
    }
  }

  lemma {:induction false} ProcessNolan(acc: Scan, tx: Transaction, outputs: seq<Slip>, j: nat, t: Terms)
    requires t.multiplier >= 1 && j <= |outputs|
    ensures Process(acc, tx, outputs, j, t).nolan == acc.nolan + Along(outputs[j..], Value) + LoneBound(outputs, j)
    decreases |outputs| - j
  {
    if j == |outputs| {
    } else if GroupAt(outputs, j) {
      var (a, s, c) := (outputs[j], outputs[j + 1], outputs[j + 2]);
      assert outputs[j..] == [a, s, c] + outputs[j + 3..];
      ValuesOfThree(a, s, c, outputs[j + 3..], {});
      ProcessNolan(GroupStep(acc, tx, a, s, c, t), tx, outputs, j + 3, t);
    } else {
      assert outputs[j..][1..] == outputs[j + 1..];
      ProcessNolan(SingleStep(acc, tx, outputs[j], t), tx, outputs, j + 1, t);
    }
  }

  function ScanStranded(txs: seq<Transaction>, k: nat, utxo: set<Slip>): Currency
    requires k <= |txs|
    decreases |txs| - k
  {
    if k == |txs| then 0 else Stranded(txs[k].outputs, utxo, 0) + ScanStranded(txs, k + 1, utxo)
  }

  function ScanLoneBound(txs: seq<Transaction>, k: nat, utxo: set<Slip>): Currency
    requires k <= |txs|
    decreases |txs| - k
  {
    if k == |txs| then 0
    else LoneBound(Eligible(txs[k].outputs, utxo, 0), 0) + ScanLoneBound(txs, k + 1, utxo)
  }

  /**
   * Every slip of the expiring block that is still in the utxoset is taken in, once; except that the
   * payload of a broken NFT group is left behind and a lone Bound slip is taken in at its face amount.
   */
  lemma {:induction false} ScanNolan(acc: Scan, txs: seq<Transaction>, k: nat, p: Pricing)
    requires p.multiplier >= 1 && k <= |txs|
    ensures ScanFrom(acc, txs, k, p).nolan + ScanStranded(txs, k, p.utxo) ==
      acc.nolan + InUtxo(Created(txs[k..]), p.utxo) + ScanLoneBound(txs, k, p.utxo)
    decreases |txs| - k
  {
    if k < |txs| {
      var tx := txs[k];
      var outputs := Eligible(tx.outputs, p.utxo, 0);
      var next := Process(acc, tx, outputs, 0, TermsFor(p, tx));
      EligibleTotal(tx.outputs, p.utxo, 0);
      ProcessNolan(acc, tx, outputs, 0, TermsFor(p, tx));
      assert outputs[0..] == outputs && tx.outputs[0..] == tx.outputs;
      InUtxoPositive(tx.outputs, p.utxo);
      InUtxoConcat(Positive(tx.outputs), Created(txs[k + 1..]), p.utxo);
      assert txs[k..][0] == tx && txs[k..][1..] == txs[k + 1..];
      ScanNolan(next, txs, k + 1, p);
    }
  }

  lemma {:induction false} NoBoundStranded(slips: seq<Slip>, utxo: set<Slip>, i: nat)
    requires i <= |slips| && NoBoundSlips(slips)
    ensures Stranded(slips, utxo, i) == 0 && LoneBound(slips, i) == 0
    decreases |slips| - i
  {
    if i < |slips| {
      assert slips[i] in slips;
      NoBoundStranded(slips, utxo, i + 1);
    }
  }

  lemma {:induction false} NoBoundGap(txs: seq<Transaction>, k: nat, utxo: set<Slip>)
    requires k <= |txs| && NoBoundOutputs(txs)
    ensures ScanStranded(txs, k, utxo) == 0 && ScanLoneBound(txs, k, utxo) == 0
    decreases |txs| - k
  {
    if k < |txs| {
      assert txs[k] in txs;
      NoBoundStranded(txs[k].outputs, utxo, 0);
      EligibleMembers(txs[k].outputs, utxo, 0);
      NoBoundStranded(Eligible(txs[k].outputs, utxo, 0), utxo, 0);
      NoBoundGap(txs, k + 1, utxo);
    }
  }

  // ---------- what the rebroadcasts spend ----------

  /**
   * The payload of the rebroadcast is a slip of the utxoset from block `blockId` with its amount
   * multiplied; whatever else it spends is spendable as it is.
   */
  ghost predicate Multiplies(r: Transaction, e: Slip, utxo: set<Slip>, blockId: nat, multiplier: nat) {
    && e in utxo && e.amount > 0 && e.blockId == blockId && HasPayload(r)
    && r.inputs[PayloadIndex(r)] == e.(amount := e.amount * multiplier)
    && forall i :: 0 <= i < |r.inputs| && i != PayloadIndex(r) ==>
         Spendable(r.inputs[i], utxo) && r.inputs[i].blockId == blockId
  }

  ghost predicate HasOrigin(r: Transaction, utxo: set<Slip>, blockId: nat, multiplier: nat) {
    exists e :: Multiplies(r, e, utxo, blockId, multiplier)
  }

  ghost predicate AllHaveOrigins(rs: seq<Transaction>, utxo: set<Slip>, blockId: nat, multiplier: nat) {
    forall r | r in rs :: r.kind.ATR? && HasOrigin(r, utxo, blockId, multiplier)
  }

  lemma {:induction false} SingleStepOrigins(
    acc: Scan, tx: Transaction, s: Slip, t: Terms, utxo: set<Slip>, blockId: nat)
    requires t.multiplier >= 1 && Spendable(s, utxo) && s.blockId == blockId
    requires AllHaveOrigins(acc.rebroadcasts, utxo, blockId, t.multiplier)
    ensures AllHaveOrigins(SingleStep(acc, tx, s, t).rebroadcasts, utxo, blockId, t.multiplier)
  {
    var gross := s.amount * t.multiplier;
    if gross > t.fee {
      var r := SingleRebroadcast(tx, s, gross, t.fee);
      assert s.amount > 0;
      assert Multiplies(r, s, utxo, blockId, t.multiplier);
    }
  }

  lemma {:induction false} GroupStepOrigins(
    acc: Scan, tx: Transaction, a: Slip, s: Slip, c: Slip, t: Terms, utxo: set<Slip>, blockId: nat)
    requires t.multiplier >= 1 && a.kind.Bound? && !s.kind.Bound? && c.kind.Bound?
    requires forall x | x in {a, s, c} :: Spendable(x, utxo) && x.blockId == blockId
    requires AllHaveOrigins(acc.rebroadcasts, utxo, blockId, t.multiplier)
    ensures AllHaveOrigins(GroupStep(acc, tx, a, s, c, t).rebroadcasts, utxo, blockId, t.multiplier)
  {
    var gross := s.amount * t.multiplier;
    if gross > t.fee {
      var r := RebroadcastOf(tx, [a, s.(amount := gross), c], [a, s.(amount := gross, kind := SlipType.ATR), c]);
      assert s.amount > 0;
      assert PayloadIndex(r) == 1;
      assert Multiplies(r, s, utxo, blockId, t.multiplier);
    }
  }

  lemma {:induction false} ProcessOrigins(
    acc: Scan, tx: Transaction, outputs: seq<Slip>, j: nat, t: Terms, utxo: set<Slip>, blockId: nat)
    requires t.multiplier >= 1 && j <= |outputs|
    requires forall s | s in outputs :: Spendable(s, utxo) && s.blockId == blockId
    requires AllHaveOrigins(acc.rebroadcasts, utxo, blockId, t.multiplier)
    ensures AllHaveOrigins(Process(acc, tx, outputs, j, t).rebroadcasts, utxo, blockId, t.multiplier)
    decreases |outputs| - j
  {
    if j == |outputs| {
    } else if GroupAt(outputs, j) {
      var (a, s, c) := (outputs[j], outputs[j + 1], outputs[j + 2]);
      GroupStepOrigins(acc, tx, a, s, c, t, utxo, blockId);
      ProcessOrigins(GroupStep(acc, tx, a, s, c, t), tx, outputs, j + 3, t, utxo, blockId);
    } else {
      assert outputs[j] in outputs;
      SingleStepOrigins(acc, tx, outputs[j], t, utxo, blockId);
      ProcessOrigins(SingleStep(acc, tx, outputs[j], t), tx, outputs, j + 1, t, utxo, blockId);
    }
  }

  /** Every rebroadcast, of a single slip or of an NFT group, spends a multiple of an expiring slip. */
  lemma {:induction false} ScanOrigins(acc: Scan, txs: seq<Transaction>, k: nat, p: Pricing, blockId: nat)
    requires p.multiplier >= 1 && k <= |txs| && OutputsAt(txs, blockId, 0)
    requires AllHaveOrigins(acc.rebroadcasts, p.utxo, blockId, p.multiplier)
    ensures AllHaveOrigins(ScanFrom(acc, txs, k, p).rebroadcasts, p.utxo, blockId, p.multiplier)
    decreases |txs| - k
  {
    if k < |txs| {
      var tx := txs[k];
      var outputs := Eligible(tx.outputs, p.utxo, 0);
      var next := Process(acc, tx, outputs, 0, TermsFor(p, tx));
      EligibleMembers(tx.outputs, p.utxo, 0);
      OutputLocations(txs, blockId, 0, k);
      ProcessOrigins(acc, tx, outputs, 0, TermsFor(p, tx), p.utxo, blockId);
      ScanOrigins(next, txs, k + 1, p, blockId);
    }
  }

  // ---------- what the treasury pays ----------

  /** Nothing is paid out at multiplier one, nor when nothing is rebroadcast. */
  ghost predicate PaysNothing(before: Scan, after: Scan, multiplier: nat) {
    && |before.rebroadcasts| <= |after.rebroadcasts|
    && (multiplier == 1 || |before.rebroadcasts| == |after.rebroadcasts| ==> after.payout == before.payout)
  }

  lemma {:induction false} ProcessPayout(acc: Scan, tx: Transaction, outputs: seq<Slip>, j: nat, t: Terms)
    requires t.multiplier >= 1 && j <= |outputs|
    ensures PaysNothing(acc, Process(acc, tx, outputs, j, t), t.multiplier)
    decreases |outputs| - j
  {
    if j == |outputs| {
    } else if GroupAt(outputs, j) {
      var next := GroupStep(acc, tx, outputs[j], outputs[j + 1], outputs[j + 2], t);
      assert PaysNothing(acc, next, t.multiplier);
      ProcessPayout(next, tx, outputs, j + 3, t);
    } else {
      var next := SingleStep(acc, tx, outputs[j], t);
      assert PaysNothing(acc, next, t.multiplier);
      ProcessPayout(next, tx, outputs, j + 1, t);
    }
  }

  lemma {:induction false} ScanPayout(acc: Scan, txs: seq<Transaction>, k: nat, p: Pricing)
    requires p.multiplier >= 1 && k <= |txs|
    ensures PaysNothing(acc, ScanFrom(acc, txs, k, p), p.multiplier)
    decreases |txs| - k
  {
    if k < |txs| {
      var outputs := Eligible(txs[k].outputs, p.utxo, 0);
      var next := Process(acc, txs[k], outputs, 0, TermsFor(p, txs[k]));
      ProcessPayout(acc, txs[k], outputs, 0, TermsFor(p, txs[k]));
      ScanPayout(next, txs, k + 1, p);
    }
  }

  lemma {:induction false} EligibleNoBoundFees(outputs: seq<Slip>, j: nat, t: Terms, loneToo: bool)
    requires j <= |outputs| && NoBoundSlips(outputs)
    ensures BoundFees(outputs, j, t, loneToo) == 0
    decreases |outputs| - j
  {
    if j < |outputs| {
      assert outputs[j] in outputs;
      EligibleNoBoundFees(outputs, j + 1, t, loneToo);
    }
  }

  lemma {:induction false} ScanNoBoundFees(txs: seq<Transaction>, k: nat, p: Pricing, loneToo: bool)
    requires k <= |txs| && NoBoundOutputs(txs)
    ensures ScanBoundFees(txs, k, p, loneToo) == 0
    decreases |txs| - k
  {
    if k < |txs| {
      assert txs[k] in txs;
      EligibleMembers(txs[k].outputs, p.utxo, 0);
      EligibleNoBoundFees(Eligible(txs[k].outputs, p.utxo, 0), 0, TermsFor(p, txs[k]), loneToo);
      ScanNoBoundFees(txs, k + 1, p, loneToo);
    }
  }
}
