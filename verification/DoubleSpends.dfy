/** What the double-spend checks of `validate` and `create` look for, said of transactions and inputs. */
module DoubleSpends {
  import opened Sums
  import opened Types
  import opened Utxo
  import opened Validation
  import opened Creation

  /** The inputs a check is about: those with value, Bound ones only where they are looked at. */
  predicate Counts(s: Slip, boundToo: bool) {
    s.amount > 0 && (boundToo || !s.kind.Bound?)
  }

  ghost predicate RepeatsInput(tx: Transaction, boundToo: bool) {
    exists a, b :: 0 <= a < b < |tx.inputs| && tx.inputs[a] == tx.inputs[b] && Counts(tx.inputs[a], boundToo)
  }

  ghost predicate ShareInput(x: Transaction, y: Transaction, boundToo: bool) {
    exists s :: s in x.inputs && s in y.inputs && Counts(s, boundToo)
  }

  /** Among the checked transactions one lists such an input twice, or two of them list the same one. */
  ghost predicate SpendTwice(txs: seq<Transaction>, checked: Transaction -> bool, boundToo: bool) {
    || (exists i :: 0 <= i < |txs| && checked(txs[i]) && RepeatsInput(txs[i], boundToo))
    || (exists i, j :: 0 <= i < j < |txs| && checked(txs[i]) && checked(txs[j]) && ShareInput(txs[i], txs[j], boundToo))
  }

  // ---------- lists of inputs ----------

  function Filtered(slips: seq<Slip>, boundToo: bool): seq<Slip> {
    if slips == [] then []
    else (if Counts(slips[0], boundToo) then [slips[0]] else []) + Filtered(slips[1..], boundToo)
  }

  lemma {:induction false} FilteredAre(slips: seq<Slip>)
    ensures Filtered(slips, true) == Positive(slips) && Filtered(slips, false) == Looked(slips)
  {
    if slips != [] { FilteredAre(slips[1..]); }
  }

  lemma {:induction false} FilteredMembers(slips: seq<Slip>, boundToo: bool)
    ensures forall s :: s in Filtered(slips, boundToo) <==> s in slips && Counts(s, boundToo)
  {
    if slips != [] { FilteredMembers(slips[1..], boundToo); }
  }

  lemma {:induction false} FilteredOnce(slips: seq<Slip>, boundToo: bool)
    ensures !NoRepeats(Filtered(slips, boundToo)) <==>
      exists a, b :: 0 <= a < b < |slips| && slips[a] == slips[b] && Counts(slips[a], boundToo)
  {
    if slips != [] {
      var (first, rest) := (if Counts(slips[0], boundToo) then [slips[0]] else [], slips[1..]);
      FilteredOnce(rest, boundToo);
      FilteredMembers(rest, boundToo);
      OnceInBoth(first, Filtered(rest, boundToo));
      if a, b :| 0 <= a < b < |rest| && rest[a] == rest[b] && Counts(rest[a], boundToo) {
        assert slips[a + 1] == slips[b + 1];
      }
      if a, b :| 0 <= a < b < |slips| && slips[a] == slips[b] && Counts(slips[a], boundToo) {
        assert slips[b] == rest[b - 1];
        if a > 0 { assert rest[a - 1] == rest[b - 1]; }
      }
      if s :| s in first && s in rest {
        var b :| 0 <= b < |rest| && rest[b] == s;
        assert slips[0] == slips[b + 1];
      }
    }
  }

  lemma {:induction false} OnceInBoth(a: seq<Slip>, b: seq<Slip>)
    ensures NoRepeats(a + b) <==> NoRepeats(a) && NoRepeats(b) && forall s | s in a :: s !in b
  {
    if NoRepeats(a + b) {
      NoRepeatsSplit(a, b);
    } else if NoRepeats(a) && NoRepeats(b) && forall s | s in a :: s !in b {
      NoRepeatsConcat(a, b);
    }
  }

  // ---------- lists of transactions ----------

  function Collected(txs: seq<Transaction>, checked: Transaction -> bool, boundToo: bool): seq<Slip> {
    if txs == [] then []
    else (if checked(txs[0]) then Filtered(txs[0].inputs, boundToo) else []) + Collected(txs[1..], checked, boundToo)
  }

  lemma {:induction false} CollectedMembers(
    txs: seq<Transaction>, checked: Transaction -> bool, boundToo: bool, s: Slip)
    ensures s in Collected(txs, checked, boundToo) <==>
      exists i :: 0 <= i < |txs| && checked(txs[i]) && s in txs[i].inputs && Counts(s, boundToo)
  {
    if txs != [] {
      FilteredMembers(txs[0].inputs, boundToo);
      CollectedMembers(txs[1..], checked, boundToo, s);
      if i :| 0 <= i < |txs[1..]| && checked(txs[1..][i]) && s in txs[1..][i].inputs && Counts(s, boundToo) {
        assert txs[i + 1] == txs[1..][i];
      }
      if i :| 0 <= i < |txs| && checked(txs[i]) && s in txs[i].inputs && Counts(s, boundToo) {
        if i > 0 { assert txs[1..][i - 1] == txs[i]; }
      }
    }
  }

  lemma {:induction false} CollectedOnce(txs: seq<Transaction>, checked: Transaction -> bool, boundToo: bool)
    ensures !NoRepeats(Collected(txs, checked, boundToo)) <==> SpendTwice(txs, checked, boundToo)
  {
    if txs != [] {
      var (first, rest) := (if checked(txs[0]) then Filtered(txs[0].inputs, boundToo) else [], txs[1..]);
      CollectedOnce(rest, checked, boundToo);
      FilteredOnce(txs[0].inputs, boundToo);
      FilteredMembers(txs[0].inputs, boundToo);
      OnceInBoth(first, Collected(rest, checked, boundToo));
      SpendTwiceSplits(txs, checked, boundToo);
      forall s ensures s in first && s in Collected(rest, checked, boundToo) <==>
        s in first && exists j :: 0 <= j < |rest| && checked(rest[j]) && s in rest[j].inputs && Counts(s, boundToo)
      {
        CollectedMembers(rest, checked, boundToo, s);
      }
    }
  }

  lemma {:induction false} SpendTwiceSplits(txs: seq<Transaction>, checked: Transaction -> bool, boundToo: bool)
    requires txs != []
    ensures SpendTwice(txs, checked, boundToo) <==>
      || (checked(txs[0]) && RepeatsInput(txs[0], boundToo))
      || (checked(txs[0])
          && exists j :: 0 <= j < |txs[1..]| && checked(txs[1..][j]) && ShareInput(txs[0], txs[1..][j], boundToo))
      || SpendTwice(txs[1..], checked, boundToo)
  {
    var rest := txs[1..];
    forall i | 0 <= i < |rest| ensures rest[i] == txs[i + 1] {}
    if SpendTwice(rest, checked, boundToo) {
      if i :| 0 <= i < |rest| && checked(rest[i]) && RepeatsInput(rest[i], boundToo) {
        assert checked(txs[i + 1]) && RepeatsInput(txs[i + 1], boundToo);
      } else {
        var i, j :| 0 <= i < j < |rest| && checked(rest[i]) && checked(rest[j])
          && ShareInput(rest[i], rest[j], boundToo);
        assert ShareInput(txs[i + 1], txs[j + 1], boundToo);
      }
    }
    if j :| 0 <= j < |rest| && checked(rest[j]) && ShareInput(txs[0], rest[j], boundToo) {
      assert ShareInput(txs[0], txs[j + 1], boundToo);
    }
    if SpendTwice(txs, checked, boundToo) {
      if i :| 0 <= i < |txs| && checked(txs[i]) && RepeatsInput(txs[i], boundToo) {
        if i > 0 { assert RepeatsInput(rest[i - 1], boundToo); }
      } else {
        var i, j :| 0 <= i < j < |txs| && checked(txs[i]) && checked(txs[j]) && ShareInput(txs[i], txs[j], boundToo);
        assert rest[j - 1] == txs[j];
        if i > 0 { assert ShareInput(rest[i - 1], rest[j - 1], boundToo); }
      }
    }
  }

  // ---------- the two checks ----------

  function Checked(rules: Rules, utxo: set<Slip>): Transaction -> bool {
    (tx: Transaction) => !tx.kind.Fee? && rules.validates(tx, utxo)
  }

  function NoFee(): Transaction -> bool {
    (tx: Transaction) => !tx.kind.Fee?
  }

  lemma {:induction false} EntriesAreCollected(rules: Rules, txs: seq<Transaction>, utxo: set<Slip>)
    ensures Entries(rules, txs, utxo) == Collected(txs, Checked(rules, utxo), false)
  {
    if txs != [] {
      EntriesAreCollected(rules, txs[1..], utxo);
      FilteredAre(txs[0].inputs);
    }
  }

  lemma {:induction false} SpentIsCollected(txs: seq<Transaction>)
    ensures Spent(NotFees(txs)) == Collected(txs, NoFee(), true)
  {
    if txs != [] {
      var first := if txs[0].kind.Fee? then [] else [txs[0]];
      SpentIsCollected(txs[1..]);
      FilteredAre(txs[0].inputs);
      SpentConcat(first, NotFees(txs[1..]));
      assert Spent([txs[0]]) == Positive(txs[0].inputs) by { assert [txs[0]][1..] == []; }
    }
  }

  /**
   * `validate` rejects exactly the blocks in which transactions that validate, fee transactions aside, spend
   * a slip with value twice; Bound slips do not count.
   */
  lemma {:induction false} ValidateFindsDoubleSpends(rules: Rules, txs: seq<Transaction>, utxo: set<Slip>)
    ensures !NoDoubleSpend(rules, txs, utxo) <==> SpendTwice(txs, Checked(rules, utxo), false)
  {
    EntriesAreCollected(rules, txs, utxo);
    CollectedOnce(txs, Checked(rules, utxo), false);
  }

  /** `create` fails exactly when transactions, fee transactions aside, spend any slip with value twice. */
  lemma {:induction false} CreateFindsDoubleSpends(txs: seq<Transaction>)
    ensures !NoRepeats(Spent(NotFees(txs))) <==> SpendTwice(txs, NoFee(), true)
  {
    SpentIsCollected(txs);
    CollectedOnce(txs, NoFee(), true);
  }
}
