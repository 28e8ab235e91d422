/** The utxoset and what winding a block onto it, or unwinding a block from it, does. */
module Utxo {
  import opened Sums
  import opened Types

  /** Slips without value never enter the utxoset. */
  function Positive(slips: seq<Slip>): seq<Slip> {
    if slips == [] then []
    else (if slips[0].amount > 0 then [slips[0]] else []) + Positive(slips[1..])
  }

  lemma {:induction false} PositiveMembers(slips: seq<Slip>, s: Slip)
    ensures s in Positive(slips) <==> s in slips && s.amount > 0
  {
    if slips != [] { PositiveMembers(slips[1..], s); }
  }

  lemma {:induction false} PositiveValues(slips: seq<Slip>)
    ensures Along(Positive(slips), Value) == Values(slips)
  {
    if slips != [] {
      PositiveValues(slips[1..]);
      AlongConcat(if slips[0].amount > 0 then [slips[0]] else [], Positive(slips[1..]), Value);
      AlongOne(slips[0], Value);
    }
  }

  /** The slips with value that a list of transactions spends, and those that it creates. */
  function Spent(txs: seq<Transaction>): seq<Slip> {
    if txs == [] then [] else Positive(txs[0].inputs) + Spent(txs[1..])
  }

  function Created(txs: seq<Transaction>): seq<Slip> {
    if txs == [] then [] else Positive(txs[0].outputs) + Created(txs[1..])
  }

  lemma {:induction false} SpentMembers(txs: seq<Transaction>, s: Slip)
    ensures s in Spent(txs) <==> s.amount > 0 && exists i :: 0 <= i < |txs| && s in txs[i].inputs
  {
    if txs != [] {
      PositiveMembers(txs[0].inputs, s);
      SpentMembers(txs[1..], s);
      assert forall i :: 1 <= i < |txs| ==> txs[i] == txs[1..][i - 1];
    }
  }

  lemma {:induction false} CreatedMembers(txs: seq<Transaction>, s: Slip)
    ensures s in Created(txs) <==> s.amount > 0 && exists i :: 0 <= i < |txs| && s in txs[i].outputs
  {
    if txs != [] {
      PositiveMembers(txs[0].outputs, s);
      CreatedMembers(txs[1..], s);
      assert forall i :: 1 <= i < |txs| ==> txs[i] == txs[1..][i - 1];
    }
  }

  // ---------- winding and unwinding ----------

  function WindTx(utxo: set<Slip>, tx: Transaction): set<Slip> {
    utxo - (set s | s in Positive(tx.inputs)) + (set s | s in Positive(tx.outputs))
  }

  function UnwindTx(utxo: set<Slip>, tx: Transaction): set<Slip> {
    utxo + (set s | s in Positive(tx.inputs)) - (set s | s in Positive(tx.outputs))
  }

  function Wind(utxo: set<Slip>, txs: seq<Transaction>): set<Slip>
    decreases txs
  {
    if txs == [] then utxo else Wind(WindTx(utxo, txs[0]), txs[1..])
  }

  function Unwind(utxo: set<Slip>, txs: seq<Transaction>): set<Slip>
    decreases txs
  {
    if txs == [] then utxo else Unwind(UnwindTx(utxo, txs[0]), txs[1..])
  }

  /** Slip::on_chain_reorganization for every slip of a list. */
  method ReorganizeSlips(utxo: set<Slip>, slips: seq<Slip>, spendable: bool) returns (result: set<Slip>)
    ensures result ==
      if spendable then utxo + (set s | s in Positive(slips)) else utxo - (set s | s in Positive(slips))
  {
    result := utxo;
    for i := 0 to |slips|
      invariant spendable ==> result == utxo + (set s | s in slips[..i] && s.amount > 0)
      invariant !spendable ==> result == utxo - (set s | s in slips[..i] && s.amount > 0)
    {
      assert slips[..i + 1] == slips[..i] + [slips[i]];
      if slips[i].amount > 0 {
        result := if spendable then result + {slips[i]} else result - {slips[i]};
      }
    }
    assert slips[..|slips|] == slips;
    forall s ensures s in Positive(slips) <==> s in slips && s.amount > 0 {
      PositiveMembers(slips, s);
    }
  }

  /** Block::on_chain_reorganization: the same forward loop in both directions. */
  method Reorganize(utxo: set<Slip>, txs: seq<Transaction>, longestChain: bool) returns (result: set<Slip>)
    ensures result == if longestChain then Wind(utxo, txs) else Unwind(utxo, txs)
  {
    result := utxo;
    for i := 0 to |txs|
      invariant longestChain ==> Wind(result, txs[i..]) == Wind(utxo, txs)
      invariant !longestChain ==> Unwind(result, txs[i..]) == Unwind(utxo, txs)
    {
      ghost var before := result;
      assert txs[i..][1..] == txs[i + 1..];
      result := ReorganizeSlips(result, txs[i].inputs, !longestChain);
      result := ReorganizeSlips(result, txs[i].outputs, longestChain);
      assert result == if longestChain then WindTx(before, txs[i]) else UnwindTx(before, txs[i]);
    }
  }

  /** When no transaction spends what the list creates, the order of the transactions is immaterial. */
  lemma {:induction false} WindIsBulk(utxo: set<Slip>, txs: seq<Transaction>)
    requires Elements(Spent(txs)) !! Elements(Created(txs))
    ensures Wind(utxo, txs) == utxo - Elements(Spent(txs)) + Elements(Created(txs))
    decreases txs
  {
    if txs != [] {
      var (i, o) := (Positive(txs[0].inputs), Positive(txs[0].outputs));
      assert Elements(Spent(txs)) == Elements(i) + Elements(Spent(txs[1..]));
      assert Elements(Created(txs)) == Elements(o) + Elements(Created(txs[1..]));
      WindIsBulk(WindTx(utxo, txs[0]), txs[1..]);
      assert WindTx(utxo, txs[0]) == utxo - Elements(i) + Elements(o);
    }
  }

  lemma {:induction false} UnwindIsBulk(utxo: set<Slip>, txs: seq<Transaction>)
    requires Elements(Spent(txs)) !! Elements(Created(txs))
    ensures Unwind(utxo, txs) == utxo + Elements(Spent(txs)) - Elements(Created(txs))
    decreases txs
  {
    if txs != [] {
      var (i, o) := (Positive(txs[0].inputs), Positive(txs[0].outputs));
      assert Elements(Spent(txs)) == Elements(i) + Elements(Spent(txs[1..]));
      assert Elements(Created(txs)) == Elements(o) + Elements(Created(txs[1..]));
      UnwindIsBulk(UnwindTx(utxo, txs[0]), txs[1..]);
      assert UnwindTx(utxo, txs[0]) == utxo + Elements(i) - Elements(o);
    }
  }

  /**
   * Winding and unwinding leaves all spent slips behind, whether or not they were there before. So it
   * restores the utxoset exactly when that held every slip spent.
   */
  lemma {:induction false} UnwindUndoesWind(utxo: set<Slip>, txs: seq<Transaction>)
    requires Elements(Created(txs)) !! utxo && Elements(Created(txs)) !! Elements(Spent(txs))
    ensures Unwind(Wind(utxo, txs), txs) == utxo + Elements(Spent(txs))
    ensures Unwind(Wind(utxo, txs), txs) == utxo <==> Elements(Spent(txs)) <= utxo
  {
    WindIsBulk(utxo, txs);
    UnwindIsBulk(Wind(utxo, txs), txs);
  }

  // ---------- locations ----------

  /** Every output is stamped with the block, the transaction's ordinal and its own index. */
  ghost predicate LocatedAt(slips: seq<Slip>, blockId: nat, ordinal: nat) {
    forall j :: 0 <= j < |slips| ==>
      slips[j].blockId == blockId && slips[j].txOrdinal == ordinal && slips[j].slipIndex == j
  }

  /** Block::generate locates the outputs of all transactions, from ordinal `first` on. */
  ghost predicate OutputsAt(txs: seq<Transaction>, blockId: nat, first: nat)
    decreases txs
  {
    txs == [] || (
      && LocatedAt(txs[0].outputs, blockId, first) && Spans(txs[0]) >= 1
      && OutputsAt(txs[1..], blockId, first + Spans(txs[0])))
  }

  lemma {:induction false} OutputLocations(txs: seq<Transaction>, blockId: nat, first: nat, i: nat)
    requires OutputsAt(txs, blockId, first) && i < |txs|
    ensures forall s | s in txs[i].outputs :: s.blockId == blockId && first <= s.txOrdinal
    decreases txs
  {
    if i > 0 { OutputLocations(txs[1..], blockId, first + Spans(txs[0]), i - 1); }
  }

  lemma {:induction false} CreatedLocations(txs: seq<Transaction>, blockId: nat, first: nat, s: Slip)
    requires OutputsAt(txs, blockId, first) && s in Created(txs)
    ensures s.blockId == blockId && first <= s.txOrdinal && s.amount > 0
  {
    CreatedMembers(txs, s);
    var i :| 0 <= i < |txs| && s in txs[i].outputs;
    OutputLocations(txs, blockId, first, i);
  }

  /** A location holds at most one slip. */
  lemma {:induction false} LocationIsUnique(txs: seq<Transaction>, blockId: nat, first: nat, s: Slip, t: Slip)
    requires OutputsAt(txs, blockId, first) && s in Created(txs) && t in Created(txs)
    requires s.txOrdinal == t.txOrdinal && s.slipIndex == t.slipIndex
    ensures s == t
    decreases txs
  {
    var (rest, next) := (txs[1..], first + Spans(txs[0]));
    PositiveMembers(txs[0].outputs, s);
    PositiveMembers(txs[0].outputs, t);
    if s in Created(rest) { CreatedLocations(rest, blockId, next, s); }
    if t in Created(rest) { CreatedLocations(rest, blockId, next, t); }
    if s in Created(rest) && t in Created(rest) { LocationIsUnique(rest, blockId, next, s, t); }
  }

  lemma {:induction false} PositiveNoRepeats(slips: seq<Slip>, from: nat)
    requires forall j :: 0 <= j < |slips| ==> slips[j].slipIndex == from + j
    ensures NoRepeats(Positive(slips))
  {
    if slips != [] {
      var rest := Positive(slips[1..]);
      forall j | 0 <= j < |slips[1..]| ensures slips[1..][j].slipIndex == from + 1 + j {
        assert slips[1..][j] == slips[j + 1];
      }
      PositiveNoRepeats(slips[1..], from + 1);
      PositiveMembers(slips[1..], slips[0]);
      assert slips[0] !in rest;
      NoRepeatsConcat(if slips[0].amount > 0 then [slips[0]] else [], rest);
    }
  }

  lemma {:induction false} NoRepeatsSplit<T>(a: seq<T>, b: seq<T>)
    requires NoRepeats(a + b)
    ensures NoRepeats(a) && NoRepeats(b) && forall x | x in a :: x !in b
  {
    var all := a + b;
    forall i, j | 0 <= i < j < |b| ensures b[i] != b[j] {
      assert all[|a| + i] != all[|a| + j];
    }
    forall i, j | 0 <= i < j < |a| ensures a[i] != a[j] {
      assert all[i] != all[j];
    }
    forall i, j | 0 <= i < |a| && 0 <= j < |b| ensures a[i] != b[j] {
      assert all[i] != all[|a| + j];
    }
  }

  lemma {:induction false} NoRepeatsConcat<T>(a: seq<T>, b: seq<T>)
    requires NoRepeats(a) && NoRepeats(b) && forall x | x in a :: x !in b
    ensures NoRepeats(a + b)
  {
    forall i, j | 0 <= i < j < |a + b| ensures (a + b)[i] != (a + b)[j] {
      if i < |a| <= j {
        assert (a + b)[i] in a && (a + b)[j] in b;
      }
    }
  }

  lemma {:induction false} CreatedNoRepeats(txs: seq<Transaction>, blockId: nat, first: nat)
    requires OutputsAt(txs, blockId, first)
    ensures NoRepeats(Created(txs))
    decreases txs
  {
    if txs != [] {
      var (rest, next) := (txs[1..], first + Spans(txs[0]));
      CreatedNoRepeats(rest, blockId, next);
      PositiveNoRepeats(txs[0].outputs, 0);
      forall s | s in Positive(txs[0].outputs) ensures s !in Created(rest) {
        PositiveMembers(txs[0].outputs, s);
        if s in Created(rest) { CreatedLocations(rest, blockId, next, s); }
      }
      NoRepeatsConcat(Positive(txs[0].outputs), Created(rest));
    }
  }

  /** Winding brings in nothing but what the transactions create. */
  lemma {:induction false} WindMembers(utxo: set<Slip>, txs: seq<Transaction>, s: Slip)
    requires s in Wind(utxo, txs)
    ensures s in utxo || s in Created(txs)
    decreases txs
  {
    if txs != [] { WindMembers(WindTx(utxo, txs[0]), txs[1..], s); }
  }
}
