/**
 * By exactly how much a block that `validate` accepts moves the token supply, what such a block may
 * spend, and when it can be unwound.
 */
module Conservation {
  import opened Sums
  import opened Types
  import opened Utxo
  import opened Rebroadcast
  import opened Expiry
  import opened Payouts
  import opened Consensus
  import opened Validation
  import opened Supply

  // ---------- what rebroadcasts spend ----------

  /** No two slips of the utxoset share a location, so a slip and its multiple are never both in it. */
  lemma {:induction false} MultipleIsNotInUtxo(st: State, e: Slip, multiplier: nat)
    requires Sound(st) && e in st.utxo && multiplier >= 1
    requires e.(amount := e.amount * multiplier) in st.utxo
    ensures multiplier == 1
  {
    var f := e.(amount := e.amount * multiplier);
    var txs := st.chain[e.blockId - 1].transactions;
    assert SoundSlip(st.chain, e) && SoundSlip(st.chain, f);
    assert SoundBlock(st.chain[e.blockId - 1], e.blockId - 1);
    LocationIsUnique(txs, e.blockId, 0, e, f);
    CreatedLocations(txs, e.blockId, 0, e);
    OnlyOneKeeps(e.amount, multiplier);
  }

  lemma {:induction false} OnlyOneKeeps(amount: nat, multiplier: nat)
    requires amount > 0 && amount * multiplier == amount
    ensures multiplier == 1
  {
    assert amount * (multiplier - 1) == 0;
  }

  lemma {:induction false} SpendableIffUnmultiplied(st: State, r: Transaction, e: Slip, blockId: nat, multiplier: nat)
    requires Sound(st) && multiplier >= 1 && Multiplies(r, e, st.utxo, blockId, multiplier)
    ensures AllSpendable(r.inputs, st.utxo) <==> multiplier == 1
  {
    var k := PayloadIndex(r);
    var f := e.(amount := e.amount * multiplier);
    assert f in r.inputs && f.amount > 0 by { assert r.inputs[k] == f; }
    if f in st.utxo { MultipleIsNotInUtxo(st, e, multiplier); }
    if multiplier == 1 {
      assert f == e;
      forall s | s in r.inputs ensures Spendable(s, st.utxo) {
        var i :| 0 <= i < |r.inputs| && r.inputs[i] == s;
      }
    }
  }

  /** The id of the block that expires when the next one arrives, zero if none does. */
  function ExpiringId(rules: Rules, st: State): nat {
    if |st.chain| > rules.genesisPeriod then |st.chain| - rules.genesisPeriod else 0
  }

  lemma {:induction false} RawScanOrigins(rules: Rules, st: State, b: Block)
    requires rules.Valid() && Sound(st) && b.id == |st.chain| + 1
    ensures var ctx := ContextAt(rules, st);
      AllHaveOrigins(RawScan(rules, b, ctx).rebroadcasts, st.utxo, ExpiringId(rules, st), PayoutMultiplier(rules, ctx))
  {
    var ctx := ContextAt(rules, st);
    if Rebroadcasting(rules, b, ctx) {
      var i := ExpiringId(rules, st) - 1;
      assert SoundBlock(st.chain[i], i);
      ScanOrigins(EMPTY_SCAN, st.chain[i].transactions, 0, PricingFor(rules, ctx), i + 1);
    }
  }

  lemma {:induction false} OriginsSpendableIff(st: State, rs: seq<Transaction>, blockId: nat, multiplier: nat)
    requires Sound(st) && multiplier >= 1 && AllHaveOrigins(rs, st.utxo, blockId, multiplier)
    ensures (forall r | r in rs :: AllSpendable(r.inputs, st.utxo)) <==> multiplier == 1 || rs == []
  {
    forall r | r in rs ensures AllSpendable(r.inputs, st.utxo) <==> multiplier == 1 {
      assert HasOrigin(r, st.utxo, blockId, multiplier);
      var e :| Multiplies(r, e, st.utxo, blockId, multiplier);
      SpendableIffUnmultiplied(st, r, e, blockId, multiplier);
    }
    if rs != [] { assert rs[0] in rs; }
  }

  lemma {:induction false} AsScannedSpendable(txs: seq<Transaction>, hashed: seq<Transaction>, utxo: set<Slip>)
    requires AsScanned(txs, hashed)
    ensures (forall tx | tx in txs && tx.kind.ATR? :: AllSpendable(tx.inputs, utxo)) <==>
      forall r | r in hashed :: AllSpendable(r.inputs, utxo)
  {
    var atr := OfKind(txs, TransactionType.ATR);
    forall i | 0 <= i < |atr| ensures atr[i] in txs && atr[i].kind.ATR? && hashed[i] in hashed {
      assert atr[i] in atr;
    }
    forall tx | tx in txs && tx.kind.ATR? ensures exists i :: 0 <= i < |atr| && atr[i] == tx {
      assert tx in atr;
    }
  }

  // ---------- users' transactions ----------

  /** Value that a user's transaction and the fee booked for it add beyond the in-window slips it spends. */
  ghost function Drift(tx: Transaction, window: set<Slip>): int {
    if FromUser(tx) then Values(tx.outputs) + NewFee(tx) - InUtxo(tx.inputs, window) else 0
  }

  ghost function Drifts(txs: seq<Transaction>, window: set<Slip>): int {
    if txs == [] then 0 else Drift(txs[0], window) + Drifts(txs[1..], window)
  }

  lemma {:induction false} InUtxoAtMostValues(slips: seq<Slip>, window: set<Slip>)
    ensures InUtxo(slips, window) <= Values(slips)
    ensures InUtxo(slips, window) == Values(slips) <==> forall s | s in slips :: Value(s) > 0 ==> s in window
  {
    if slips != [] {
      InUtxoAtMostValues(slips[1..], window);
      assert forall s :: s in slips <==> s == slips[0] || s in slips[1..];
    }
  }

  /**
   * A funded normal transaction or golden ticket never drifts downward, and it does not drift at all
   * exactly when every slip with value that it spends is inside the window.
   */
  lemma {:induction false} FundedDrift(tx: Transaction, window: set<Slip>)
    requires tx.kind.Normal? || tx.kind.GoldenTicket?
    requires Values(tx.outputs) <= Values(tx.inputs)
    ensures Drift(tx, window) >= 0
    ensures Drift(tx, window) == 0 <==> forall s | s in tx.inputs :: Value(s) > 0 ==> s in window
  {
    InUtxoAtMostValues(tx.inputs, window);
  }

  function UserOutput(tx: Transaction): Currency {
    if FromUser(tx) then Values(tx.outputs) else 0
  }

  /** Slips in the window once the block has arrived, before it is wound. */
  ghost function NextWindow(rules: Rules, st: State): set<Slip> {
    Window(st.utxo, Floor(rules, |st.chain| + 1))
  }

  /** The value from `floor` on that transactions take out of the utxoset as each of them finds it. */
  ghost function TakenAlong(utxo: set<Slip>, txs: seq<Transaction>, floor: nat): nat
    decreases txs
  {
    if txs == [] then 0
    else
      Over(Elements(Positive(txs[0].inputs)) * Window(utxo, floor), Value)
      + TakenAlong(WindTx(utxo, txs[0]), txs[1..], floor)
  }

  /** Users' outputs and booked fees, less all the value inside the window that the block takes. */
  ghost function UserDrift(rules: Rules, st: State, b: Block): int {
    Along(b.transactions, UserOutput) + Along(b.transactions, NewFee)
    - TakenAlong(st.utxo, b.transactions, Floor(rules, b.id))
  }

  lemma {:induction false} OutputsByKind(txs: seq<Transaction>)
    ensures Along(txs, OutputValue) == Along(txs, UserOutput)
      + Along(OfKind(txs, TransactionType.ATR), OutputValue) + Along(OfKind(txs, TransactionType.Fee), OutputValue)
  {
    if txs != [] {
      var tx := txs[0];
      OutputsByKind(txs[1..]);
      AlongConcat(if tx.kind.ATR? then [tx] else [], OfKind(txs[1..], TransactionType.ATR), OutputValue);
      AlongConcat(if tx.kind.Fee? then [tx] else [], OfKind(txs[1..], TransactionType.Fee), OutputValue);
      AlongOne(tx, OutputValue);
    }
  }

  lemma {:induction false} DriftsAddUp(txs: seq<Transaction>, window: set<Slip>)
    requires forall tx | tx in txs && !FromUser(tx) :: InUtxo(tx.inputs, window) == 0
    ensures Drifts(txs, window) == Along(txs, UserOutput) + Along(txs, NewFee) - InUtxo(Spent(txs), window)
  {
    if txs != [] {
      assert txs[0] in txs;
      DriftsAddUp(txs[1..], window);
      InUtxoPositive(txs[0].inputs, window);
      InUtxoConcat(Positive(txs[0].inputs), Spent(txs[1..]), window);
    }
  }

  lemma {:induction false} LookedNoRepeats(slips: seq<Slip>, window: set<Slip>)
    requires NoRepeats(Looked(slips)) && forall s | s in window :: !s.kind.Bound?
    ensures NoRepeats(Inside(Positive(slips), window))
  {
    if slips != [] {
      var (s, rest) := (slips[0], slips[1..]);
      NoRepeatsSplit(if s.amount > 0 && !s.kind.Bound? then [s] else [], Looked(rest));
      LookedNoRepeats(rest, window);
      InsideConcat(if s.amount > 0 then [s] else [], Positive(rest), window);
      InsideMembers([s], window, s);
      InsideMembers(Positive(rest), window, s);
      PositiveMembers(rest, s);
      LookedMembers(rest, s);
      assert Inside([s], window) == if s in window then [s] else [] by { assert [s][1..] == []; }
      assert Inside([], window) == [];
      NoRepeatsConcat(if s.amount > 0 && s in window then [s] else [], Inside(Positive(rest), window));
    }
  }

  /** When users' transactions validate, no slip inside the window is spent twice. */
  lemma {:induction false} WindowSpentOnce(rules: Rules, txs: seq<Transaction>, utxo: set<Slip>, window: set<Slip>)
    requires NoDoubleSpend(rules, txs, utxo) && forall s | s in window :: !s.kind.Bound?
    requires forall tx | tx in txs && FromUser(tx) :: rules.validates(tx, utxo)
    requires forall tx, s | tx in txs && !FromUser(tx) && s in tx.inputs :: s !in window
    ensures NoRepeats(Inside(Spent(txs), window))
  {
    if txs != [] {
      var (first, rest) := (txs[0], txs[1..]);
      assert first in txs;
      var entries := if Entered(rules, first, utxo) then Looked(first.inputs) else [];
      NoRepeatsSplit(entries, Entries(rules, rest, utxo));
      WindowSpentOnce(rules, rest, utxo, window);
      InsideConcat(Positive(first.inputs), Spent(rest), window);
      FirstSpentOnce(rules, first, rest, utxo, window);
      NoRepeatsConcat(Inside(Positive(first.inputs), window), Inside(Spent(rest), window));
    }
  }

  lemma {:induction false} FirstSpentOnce(
    rules: Rules, first: Transaction, rest: seq<Transaction>, utxo: set<Slip>, window: set<Slip>)
    requires forall s | s in window :: !s.kind.Bound?
    requires if FromUser(first) then rules.validates(first, utxo) else forall s | s in first.inputs :: s !in window
    requires forall tx | tx in rest && FromUser(tx) :: rules.validates(tx, utxo)
    requires forall tx, s | tx in rest && !FromUser(tx) && s in tx.inputs :: s !in window
    requires var entries := if Entered(rules, first, utxo) then Looked(first.inputs) else [];
      NoRepeats(entries) && forall s | s in entries :: s !in Entries(rules, rest, utxo)
    ensures NoRepeats(Inside(Positive(first.inputs), window))
    ensures forall s | s in Inside(Positive(first.inputs), window) :: s !in Inside(Spent(rest), window)
  {
    if FromUser(first) {
      LookedNoRepeats(first.inputs, window);
    }
    forall s | s in Inside(Positive(first.inputs), window)
      ensures FromUser(first) && s !in Inside(Spent(rest), window)
    {
      InsideMembers(Positive(first.inputs), window, s);
      PositiveMembers(first.inputs, s);
      LookedMembers(first.inputs, s);
      InsideMembers(Spent(rest), window, s);
      SpentIsEntered(rules, rest, utxo, window, s);
    }
    if !FromUser(first) && Inside(Positive(first.inputs), window) != [] {
      assert Inside(Positive(first.inputs), window)[0] in Inside(Positive(first.inputs), window);
    }
  }

  lemma {:induction false} SpentIsEntered(
    rules: Rules, txs: seq<Transaction>, utxo: set<Slip>, window: set<Slip>, s: Slip)
    requires s in window && !s.kind.Bound?
    requires forall tx | tx in txs && FromUser(tx) :: rules.validates(tx, utxo)
    requires forall tx, s | tx in txs && !FromUser(tx) && s in tx.inputs :: s !in window
    ensures s in Spent(txs) ==> s in Entries(rules, txs, utxo)
  {
    if txs != [] {
      assert txs[0] in txs;
      SpentIsEntered(rules, txs[1..], utxo, window, s);
      PositiveMembers(txs[0].inputs, s);
      LookedMembers(txs[0].inputs, s);
    }
  }

  // ---------- the window ----------

  /** The slips that leave the window when the next block arrives. */
  ghost function Leaving(rules: Rules, st: State): set<Slip> {
    Window(st.utxo, Floor(rules, |st.chain|)) - Window(st.utxo, Floor(rules, |st.chain| + 1))
  }

  lemma {:induction false} CreatedValues(txs: seq<Transaction>)
    ensures Along(Created(txs), Value) == Along(txs, OutputValue)
  {
    if txs != [] {
      CreatedValues(txs[1..]);
      PositiveValues(txs[0].outputs);
      AlongConcat(Positive(txs[0].outputs), Created(txs[1..]), Value);
    }
  }

  lemma {:induction false} WorthNothing(slips: set<Slip>)
    requires forall s | s in slips :: s.kind.Bound?
    ensures Over(slips, Value) == 0
    decreases slips
  {
    if slips != {} {
      var s :| s in slips;
      Remove(slips, Value, s);
      WorthNothing(slips - {s});
    }
  }

  /** How winding one transaction onto a utxoset changes the value from `floor` on. */
  lemma {:induction false} WindingOne(utxo: set<Slip>, tx: Transaction, floor: nat)
    requires Elements(Positive(tx.outputs)) !! utxo && NoRepeats(Positive(tx.outputs))
    requires forall s | s in Positive(tx.outputs) :: s.blockId >= floor
    ensures Over(Window(WindTx(utxo, tx), floor), Value)
      + Over(Elements(Positive(tx.inputs)) * Window(utxo, floor), Value) ==
      Over(Window(utxo, floor), Value) + Values(tx.outputs)
  {
    var (spent, created) := (Elements(Positive(tx.inputs)), Elements(Positive(tx.outputs)));
    var window := Window(utxo, floor);
    var kept := window - (spent * window);
    var bound := set s | s in created && s.kind.Bound?;
    assert Window(WindTx(utxo, tx), floor) == kept + (created - bound);
    Disjoint(kept, created - bound, Value);
    Difference(created, bound, Value);
    WorthNothing(bound);
    Difference(window, spent * window, Value);
    AlongIsOver(Positive(tx.outputs), Value);
    PositiveValues(tx.outputs);
  }

  /** How winding transactions changes it, even if they spend what others among them create. */
  lemma {:induction false} WindingFlow(utxo: set<Slip>, txs: seq<Transaction>, floor: nat, blockId: nat, first: nat)
    requires OutputsAt(txs, blockId, first) && blockId >= floor
    requires forall s | s in utxo :: s.blockId == blockId ==> s.txOrdinal < first
    ensures Over(Window(Wind(utxo, txs), floor), Value) + TakenAlong(utxo, txs, floor) ==
      Over(Window(utxo, floor), Value) + Along(txs, OutputValue)
    decreases txs
  {
    if txs != [] {
      var tx := txs[0];
      PositiveNoRepeats(tx.outputs, 0);
      forall s | s in Positive(tx.outputs) ensures s.blockId == blockId && s.txOrdinal == first {
        PositiveMembers(tx.outputs, s);
      }
      WindingOne(utxo, tx, floor);
      WindingFlow(WindTx(utxo, tx), txs[1..], floor, blockId, first + Spans(tx));
    }
  }

  /** How winding transactions that do not spend what they create changes it. */
  lemma {:induction false} WindingFlowInBulk(utxo: set<Slip>, txs: seq<Transaction>, floor: nat)
    requires Elements(Created(txs)) !! utxo && Elements(Created(txs)) !! Elements(Spent(txs))
    requires NoRepeats(Created(txs)) && forall s | s in Created(txs) :: s.blockId >= floor
    ensures Over(Window(Wind(utxo, txs), floor), Value) + Over(Elements(Spent(txs)) * Window(utxo, floor), Value) ==
      Over(Window(utxo, floor), Value) + Along(txs, OutputValue)
  {
    var (spent, created, window) := (Elements(Spent(txs)), Elements(Created(txs)), Window(utxo, floor));
    var kept := window - (spent * window);
    var bound := set s | s in created && s.kind.Bound?;
    WindIsBulk(utxo, txs);
    assert Window(Wind(utxo, txs), floor) == kept + (created - bound);
    Disjoint(kept, created - bound, Value);
    Difference(created, bound, Value);
    WorthNothing(bound);
    Difference(window, spent * window, Value);
    AlongIsOver(Created(txs), Value);
    CreatedValues(txs);
  }

  /** A block that spends slips of earlier blocks takes what it spends inside the window. */
  lemma {:induction false} TakenInBulk(rules: Rules, st: State, b: Block)
    requires Sound(st) && SoundBlock(b, |st.chain|) && SpendsThePast(b)
    ensures TakenAlong(st.utxo, b.transactions, Floor(rules, b.id)) ==
      Over(Elements(Spent(b.transactions)) * NextWindow(rules, st), Value)
  {
    NewSlips(st, b);
    WindingFlow(st.utxo, b.transactions, Floor(rules, b.id), b.id, 0);
    WindingFlowInBulk(st.utxo, b.transactions, Floor(rules, b.id));
  }

  lemma {:induction false} MovingTheWindow(rules: Rules, st: State)
    ensures Over(Window(st.utxo, Floor(rules, |st.chain|)), Value) ==
      Over(NextWindow(rules, st), Value) + Over(Leaving(rules, st), Value)
  {
    var (before, after) := (Window(st.utxo, Floor(rules, |st.chain|)), NextWindow(rules, st));
    assert before - after == Leaving(rules, st) && after <= before;
    Difference(before, after, Value);
  }

  /** How winding a block and moving the window changes the value inside it. */
  lemma {:induction false} WindowFlow(rules: Rules, st: State, b: Block)
    requires Sound(st) && SoundBlock(b, |st.chain|)
    ensures Over(Window(Wind(st.utxo, b.transactions), Floor(rules, b.id)), Value) + Over(Leaving(rules, st), Value)
      + TakenAlong(st.utxo, b.transactions, Floor(rules, b.id)) ==
      Over(Window(st.utxo, Floor(rules, |st.chain|)), Value) + Along(b.transactions, OutputValue)
  {
    NewSlips(st, b);
    WindingFlow(st.utxo, b.transactions, Floor(rules, b.id), b.id, 0);
    MovingTheWindow(rules, st);
  }

  /** The block spends no slip of a later block. */
  ghost predicate LooksBack(b: Block) {
    forall s | s in Spent(b.transactions) :: s.blockId <= b.id
  }

  /** The value inside the window that is purged along with an old block that mentions it. */
  ghost function PurgeLoss(rules: Rules, st: State, b: Block): Currency {
    Over(Window(Wind(st.utxo, b.transactions), Floor(rules, b.id)) * Purged(rules, st.chain + [b]), Value)
  }

  lemma {:induction false} PurgedWindow(rules: Rules, st: State, b: Block)
    ensures Over(Window(Step(rules, st, b).utxo, Floor(rules, b.id)), Value) + PurgeLoss(rules, st, b) ==
      Over(Window(Wind(st.utxo, b.transactions), Floor(rules, b.id)), Value)
  {
    var before := Window(Wind(st.utxo, b.transactions), Floor(rules, b.id));
    var purged := Purged(rules, st.chain + [b]);
    assert Window(Step(rules, st, b).utxo, Floor(rules, b.id)) == before - before * purged;
    Difference(before, before * purged, Value);
  }

  /** Purging touches only slips that left the window long ago, unless the purged block named a later slip. */
  lemma {:induction false} PurgeOutsideWindow(rules: Rules, chain: seq<Block>, utxo: set<Slip>)
    requires rules.Valid() && forall s | s in utxo :: s.amount > 0
    requires forall i :: 0 <= i < |chain| ==> SoundBlock(chain[i], i) && LooksBack(chain[i])
    ensures Window(utxo, Floor(rules, |chain|)) * Purged(rules, chain) == {}
  {
    if |chain| >= 2 * rules.genesisPeriod + 1 {
      var k := |chain| - 2 * rules.genesisPeriod - 1;
      var txs := chain[k].transactions;
      assert SoundBlock(chain[k], k) && LooksBack(chain[k]);
      forall s | s in SlipsOf(txs) && s.amount > 0 ensures s.blockId <= k + 1 {
        if i :| 0 <= i < |txs| && s in txs[i].inputs {
          SpentMembers(txs, s);
        } else {
          CreatedMembers(txs, s);
          CreatedLocations(txs, k + 1, 0, s);
        }
      }
    }
  }

  lemma {:induction false} WoundSlips(st: State, b: Block)
    requires Sound(st) && SoundBlock(b, |st.chain|)
    ensures forall s | s in Wind(st.utxo, b.transactions) :: SoundSlip(st.chain + [b], s) && s.amount > 0
  {
    var chain := st.chain + [b];
    forall s | s in Wind(st.utxo, b.transactions) ensures SoundSlip(chain, s) && s.amount > 0 {
      WindMembers(st.utxo, b.transactions, s);
      if s in st.utxo {
        assert SoundSlip(st.chain, s);
      } else {
        CreatedLocations(b.transactions, b.id, 0, s);
      }
      CreatedMembers(chain[s.blockId - 1].transactions, s);
    }
  }

  /** Nothing inside the window is purged while no block on the chain names a later slip. */
  lemma {:induction false} NothingIsPurged(rules: Rules, st: State, b: Block)
    requires rules.Valid() && Sound(st) && SoundBlock(b, |st.chain|)
    requires LooksBack(b) && forall i :: 0 <= i < |st.chain| ==> LooksBack(st.chain[i])
    ensures PurgeLoss(rules, st, b) == 0
  {
    var chain := st.chain + [b];
    forall i | 0 <= i < |chain| ensures SoundBlock(chain[i], i) && LooksBack(chain[i]) {
      if i < |st.chain| { assert SoundBlock(st.chain[i], i) && LooksBack(st.chain[i]); }
    }
    WoundSlips(st, b);
    PurgeOutsideWindow(rules, chain, Wind(st.utxo, b.transactions));
  }

  // ---------- rebroadcasts ----------

  /** What the 5% cap does to an accepted block, whose rebroadcasts are compared as they were before it. */
  ghost function CapDrift(rules: Rules, b: Block, ctx: Context): int {
    var raw := RawScan(rules, b, ctx);
    RawScanHasPayloads(rules, b, ctx);
    var scan := CappedScan(rules, b, raw);
    raw.payout - raw.fees + scan.fees - scan.payout
  }

  /** The cap creates the uncapped payout less the waived fees and the payout that is left. */
  lemma {:induction false} CapDriftExact(rules: Rules, b: Block, ctx: Context)
    ensures forall r | r in RawScan(rules, b, ctx).rebroadcasts :: HasPayload(r)
    ensures var raw := RawScan(rules, b, ctx);
      CapDrift(rules, b, ctx) ==
      if CapTaken(rules, b, raw)
      then raw.payout - raw.fees - RescaledPayout(raw.rebroadcasts, CapMultiplier(rules, b, raw)) else 0
  {
    RawScanHasPayloads(rules, b, ctx);
  }

  /** Nolan and fees that the scan books for expired NFT slips beyond the value leaving the window. */
  ghost function NftDrift(rules: Rules, st: State, b: Block): int
    requires st.chain != []
  {
    var ctx := ContextAt(rules, st);
    RawScan(rules, b, ctx).nolan - Over(Leaving(rules, st), Value)
    + if Rebroadcasting(rules, b, ctx)
      then ScanBoundFees(ctx.expiring.value.transactions, 0, PricingFor(rules, ctx), false) else 0
  }

  lemma {:induction false} OutputsStillUnspent(st: State, i: nat)
    requires Sound(st) && i < |st.chain|
    ensures forall s ::
      s in Elements(Created(st.chain[i].transactions)) * st.utxo <==> s in st.utxo && s.blockId == i + 1
  {
    var txs := st.chain[i].transactions;
    assert SoundBlock(st.chain[i], i);
    forall s | s in Created(txs) ensures s.blockId == i + 1 {
      CreatedLocations(txs, i + 1, 0, s);
    }
    forall s | s in st.utxo && s.blockId == i + 1 ensures s in Created(txs) {
      assert SoundSlip(st.chain, s);
    }
  }

  lemma {:induction false} LeavingSlips(rules: Rules, st: State)
    requires |st.chain| > rules.genesisPeriod
    ensures forall s ::
      s in Leaving(rules, st) <==> s in st.utxo && !s.kind.Bound? && s.blockId == ExpiringId(rules, st)
  {
  }

  lemma {:induction false} NothingLeaves(rules: Rules, st: State)
    requires Sound(st) && |st.chain| <= rules.genesisPeriod
    ensures Leaving(rules, st) == {}
  {
    forall s | s in st.utxo ensures s.blockId >= 1 { assert SoundSlip(st.chain, s); }
  }

  /** Leaving the window are the unspent slips of the expiring block, NFT slips counting for nothing. */
  lemma {:induction false} LeavingIsTheExpiringBlock(rules: Rules, st: State)
    requires rules.Valid() && Sound(st) && |st.chain| > rules.genesisPeriod
    ensures Over(Leaving(rules, st), Value) ==
      Over(Elements(Created(st.chain[ExpiringId(rules, st) - 1].transactions)) * st.utxo, Value)
  {
    LeavingSlips(rules, st);
    OutputsStillUnspent(st, ExpiringId(rules, st) - 1);
    WithoutBound(Leaving(rules, st), Elements(Created(st.chain[ExpiringId(rules, st) - 1].transactions)) * st.utxo);
  }

  lemma {:induction false} WithoutBound(a: set<Slip>, b: set<Slip>)
    requires forall s :: s in a <==> s in b && !s.kind.Bound?
    ensures Over(a, Value) == Over(b, Value)
  {
    var bound := set s | s in b && s.kind.Bound?;
    assert a == b - bound;
    Difference(b, bound, Value);
    WorthNothing(bound);
  }

  lemma {:induction false} ScanTakesIn(txs: seq<Transaction>, p: Pricing, id: nat)
    requires p.multiplier >= 1 && OutputsAt(txs, id, 0)
    ensures ScanFrom(EMPTY_SCAN, txs, 0, p).nolan + ScanStranded(txs, 0, p.utxo) ==
      Over(Elements(Created(txs)) * p.utxo, Value) + ScanLoneBound(txs, 0, p.utxo)
  {
    ScanNolan(EMPTY_SCAN, txs, 0, p);
    assert txs[0..] == txs;
    CreatedNoRepeats(txs, id, 0);
    InsideNoRepeats(Created(txs), p.utxo);
    InUtxoIsOver(Created(txs), p.utxo);
  }

  /**
   * NFT slips add the face amount of lone Bound slips and the fees booked for groups, and lose the
   * payloads of broken groups.
   */
  lemma {:induction false} NftDriftExact(rules: Rules, st: State, b: Block)
    requires rules.Valid() && Sound(st) && b.id == |st.chain| + 1
    ensures var ctx := ContextAt(rules, st);
      NftDrift(rules, st, b) ==
      if ctx.expiring.None? then 0
      else
        var txs := ctx.expiring.value.transactions;
        ScanLoneBound(txs, 0, st.utxo) + ScanBoundFees(txs, 0, PricingFor(rules, ctx), false)
        - ScanStranded(txs, 0, st.utxo)
  {
    if |st.chain| > rules.genesisPeriod {
      ExpiringNolan(rules, st, b);
    } else {
      NothingLeaves(rules, st);
    }
  }

  lemma {:induction false} ExpiringNolan(rules: Rules, st: State, b: Block)
    requires rules.Valid() && Sound(st) && b.id == |st.chain| + 1 && |st.chain| > rules.genesisPeriod
    ensures var (ctx, txs) := (ContextAt(rules, st), st.chain[ExpiringId(rules, st) - 1].transactions);
      && Rebroadcasting(rules, b, ctx) && ctx.expiring.value.transactions == txs
      && RawScan(rules, b, ctx).nolan + ScanStranded(txs, 0, st.utxo) ==
         Over(Leaving(rules, st), Value) + ScanLoneBound(txs, 0, st.utxo)
  {
    var id := ExpiringId(rules, st);
    assert SoundBlock(st.chain[id - 1], id - 1);
    LeavingIsTheExpiringBlock(rules, st);
    ScanTakesIn(st.chain[id - 1].transactions, PricingFor(rules, ContextAt(rules, st)), id);
  }

  /** Without NFT slips in the expiring block, the scan takes in exactly what leaves the window. */
  lemma {:induction false} NftDriftVanishes(rules: Rules, st: State, b: Block)
    requires rules.Valid() && Sound(st) && b.id == |st.chain| + 1
    requires ContextAt(rules, st).expiring.Some? ==> NoBoundOutputs(ContextAt(rules, st).expiring.value.transactions)
    ensures NftDrift(rules, st, b) == 0
  {
    NftDriftExact(rules, st, b);
    if ContextAt(rules, st).expiring.Some? {
      var txs := ContextAt(rules, st).expiring.value.transactions;
      NoBoundGap(txs, 0, st.utxo);
      ScanNoBoundFees(txs, 0, PricingFor(rules, ContextAt(rules, st)), false);
    }
  }

  /** Rebroadcast outputs, fees and payout of an accepted block against the value that leaves the window. */
  lemma {:induction false} RebroadcastFlow(rules: Rules, st: State, b: Block)
    requires rules.Valid() && st.chain != [] && Accepted(rules, st, b)
    ensures b.figures.totalFees == Along(b.transactions, NewFee) + b.figures.totalFeesAtr
    ensures Along(OfKind(b.transactions, TransactionType.ATR), OutputValue) + b.figures.totalFeesAtr
      - b.figures.payoutAtr - Over(Leaving(rules, st), Value)
      == NftDrift(rules, st, b) + CapDrift(rules, b, ContextAt(rules, st))
  {
    var ctx := ContextAt(rules, st);
    var cv := ConsensusOf(rules, b, ctx);
    SameSignedValues(OfKind(b.transactions, TransactionType.ATR), cv.hashed);
    RawScanBalance(rules, st, b);
  }

  lemma {:induction false} RawScanBalance(rules: Rules, st: State, b: Block)
    requires st.chain != []
    ensures var raw := RawScan(rules, b, ContextAt(rules, st));
      Along(raw.rebroadcasts, OutputValue) + raw.fees - raw.payout
      == NftDrift(rules, st, b) + Over(Leaving(rules, st), Value)
  {
    var ctx := ContextAt(rules, st);
    if Rebroadcasting(rules, b, ctx) {
      ScanBalance(ctx.expiring.value.transactions, PricingFor(rules, ctx));
    }
  }

  // ---------- settlement of fees ----------

  /** The miner share that a block's ticket drops by naming the burn key. */
  function DroppedShare(b: Block): Currency
    requires forall tx | tx in b.transactions :: tx.kind.GoldenTicket? ==> tx.data.Ticket?
  {
    var ticket := LastOf(b.transactions, TransactionType.GoldenTicket);
    if ticket.Some? && b.transactions[ticket.value].data.solver == BURN_KEY then b.figures.payoutMining else 0
  }

  function FeeOutputs(b: Block): Currency {
    Along(OfKind(b.transactions, TransactionType.Fee), OutputValue)
  }

  /** Where the fees that a block settles go: fee-transaction outputs, treasury, graveyard, or nowhere. */
  function Disbursed(b: Block): Currency
    requires forall tx | tx in b.transactions :: tx.kind.GoldenTicket? ==> tx.data.Ticket?
  {
    FeeOutputs(b) + b.figures.payoutTreasury + b.figures.payoutGraveyard + DroppedShare(b)
  }

  /** What the winners of a block's ticket are due. */
  function WinningsDue(rules: Rules, b: Block, ctx: Context): Currency
    requires Readable(b, ctx)
  {
    if TicketOf(b.transactions).Some? then Values(PayoutsOf(rules, b, ctx, TallyOf(b.transactions)).winners) else 0
  }

  /** Outputs of fee transactions beyond what the winners are due. */
  function FeeDrift(rules: Rules, b: Block, ctx: Context): int
    requires Readable(b, ctx)
  {
    FeeOutputs(b) - WinningsDue(rules, b, ctx)
  }

  lemma {:induction false} TicketMeansGoldenTicket(txs: seq<Transaction>)
    ensures LastOf(txs, TransactionType.GoldenTicket).Some? <==> HasGoldenTicket(txs)
  {
    LastOfExists(txs, TransactionType.GoldenTicket);
  }

  lemma {:induction false} LastFee(txs: seq<Transaction>)
    ensures var (last, fees) := (LastOf(txs, TransactionType.Fee), OfKind(txs, TransactionType.Fee));
      if fees == [] then last.None? else last.Some? && txs[last.value] == fees[|fees| - 1]
  {
    if txs != [] {
      var (front, tx) := (txs[..|txs| - 1], txs[|txs| - 1]);
      assert txs == front + [tx];
      OfKindAppend(front, tx, TransactionType.Fee);
      LastFee(front);
    }
  }

  lemma {:induction false} OfKindAppend(txs: seq<Transaction>, tx: Transaction, kind: TransactionType)
    ensures OfKind(txs + [tx], kind) == OfKind(txs, kind) + if tx.kind == kind then [tx] else []
  {
    if txs == [] {
      assert txs + [tx] == [tx] && [tx][1..] == [];
    } else {
      assert (txs + [tx])[1..] == txs[1..] + [tx];
      OfKindAppend(txs[1..], tx, kind);
    }
  }

  /** Fee transactions that nothing is compared with: all but the last, and that one too without a ticket. */
  function Unchecked(fees: seq<Transaction>, ticket: bool): seq<Transaction> {
    if ticket && fees != [] then fees[..|fees| - 1] else fees
  }

  /**
   * Only the last fee transaction of a block with a ticket is compared with the expected one. So the fee
   * transactions are off by the outputs of all the others, or, where there is a ticket but no fee
   * transaction, by what the winners were due; and they are right exactly when that is nothing.
   */
  lemma {:induction false} FeeDriftExact(rules: Rules, b: Block, ctx: Context)
    requires rules.Valid() && Readable(b, ctx) && ContentsValidate(rules, b, ctx)
    ensures FeeDrift(rules, b, ctx) == FeeExcess(b, WinningsDue(rules, b, ctx))
  {
    WinningsAreExpected(rules, b, ctx);
    FeesOff(b, ConsensusOf(rules, b, ctx), WinningsDue(rules, b, ctx));
  }

  /** Outputs that nothing is compared with, or, for want of any fee transaction, what is still due. */
  function FeeExcess(b: Block, due: Currency): int {
    var (fees, ticket) := (OfKind(b.transactions, TransactionType.Fee), HasGoldenTicket(b.transactions));
    if ticket && fees == [] then 0 - due else Along(Unchecked(fees, ticket), OutputValue)
  }

  /** The expected fee transaction, there with a ticket only, pays what the winners are due. */
  lemma {:induction false} WinningsAreExpected(rules: Rules, b: Block, ctx: Context)
    requires rules.Valid() && Readable(b, ctx)
    ensures var cv := ConsensusOf(rules, b, ctx);
      && (cv.feeTransaction.Some? <==> HasGoldenTicket(b.transactions))
      && WinningsDue(rules, b, ctx) == Expected(cv.feeTransaction)
      && cv.feeIndex == LastOf(b.transactions, TransactionType.Fee)
  {
    TicketMeansGoldenTicket(b.transactions);
  }

  function Expected(fee: Option<Transaction>): Currency {
    if fee.Some? then Values(fee.value.outputs) else 0
  }

  lemma {:induction false} FeesOff(b: Block, cv: ConsensusValues, due: Currency)
    requires ContentsMatch(b, cv) && cv.feeIndex == LastOf(b.transactions, TransactionType.Fee)
    requires (cv.feeTransaction.Some? <==> HasGoldenTicket(b.transactions)) && due == Expected(cv.feeTransaction)
    ensures FeeOutputs(b) - due == FeeExcess(b, due)
  {
    var fees := OfKind(b.transactions, TransactionType.Fee);
    LastFee(b.transactions);
    if cv.feeTransaction.Some? && fees != [] { LastFeeIsChecked(fees, cv.feeTransaction.value); }
  }

  lemma {:induction false} LastFeeIsChecked(fees: seq<Transaction>, expected: Transaction)
    requires fees != [] && Signed(fees[|fees| - 1]) == Signed(expected)
    ensures Along(fees, OutputValue) == Along(fees[..|fees| - 1], OutputValue) + Values(expected.outputs)
  {
    var (front, last) := (fees[..|fees| - 1], fees[|fees| - 1]);
    assert fees == front + [last];
    AlongAppend(front, last, OutputValue);
    SignedValues(last, expected);
  }

  /** A block with exactly the expected fee transaction is right. */
  lemma {:induction false} CarriedFeeIsRight(rules: Rules, b: Block, ctx: Context)
    requires rules.Valid() && Readable(b, ctx)
    requires CarriesFee(OfKind(b.transactions, TransactionType.Fee), ConsensusOf(rules, b, ctx).feeTransaction)
    ensures FeeDrift(rules, b, ctx) == 0
    ensures forall tx | tx in b.transactions && tx.kind.Fee? :: tx.inputs == []
  {
    var cv := ConsensusOf(rules, b, ctx);
    WinningsAreExpected(rules, b, ctx);
    CarriedFee(b, cv.feeTransaction);
  }

  lemma {:induction false} CarriedFee(b: Block, expected: Option<Transaction>)
    requires CarriesFee(OfKind(b.transactions, TransactionType.Fee), expected)
    requires expected.Some? ==> expected.value.inputs == []
    ensures FeeOutputs(b) == Expected(expected)
    ensures forall tx | tx in b.transactions && tx.kind.Fee? :: tx.inputs == []
  {
    var fees := OfKind(b.transactions, TransactionType.Fee);
    if expected.Some? {
      LastFeeIsChecked(fees, expected.value);
      assert fees[..0] == [];
      SignedValues(fees[0], expected.value);
    }
    forall tx | tx in b.transactions && tx.kind.Fee? ensures tx.inputs == [] {
      assert tx in fees;
    }
  }

  /** Exactly the tip's fees and what the tip left unpaid can be settled next. */
  lemma {:induction false} SettledIsDue(rules: Rules, st: State)
    requires Sound(st)
    ensures FeesSettled(ContextAt(rules, st)) == st.Tip().figures.totalFees + st.Tip().previousUnpaid
    ensures NoTicketGraveyard(ContextAt(rules, st)) == st.Tip().previousUnpaid
  {
  }

  /** The block reports these payouts. */
  ghost predicate Reports(b: Block, pay: Payouts) {
    && b.figures.payoutTreasury == pay.treasury
    && b.figures.payoutGraveyard == pay.graveyard
    && b.figures.payoutMining == pay.miner
  }

  /** The payouts settle all that is due, except for the share of a miner who is the burn key. */
  ghost predicate SettlesFor(ticket: Option<Payload>, pay: Payouts, ctx: Context)
    requires ticket.Some? ==> ticket.value.Ticket?
  {
    if ticket.Some? then
      Values(pay.winners) + pay.treasury + pay.graveyard + DroppedMinerShare(pay, ticket.value) == FeesSettled(ctx)
    else pay.treasury == 0 && pay.graveyard == NoTicketGraveyard(ctx)
  }

  ghost predicate Settles(b: Block, pay: Payouts, ctx: Context) {
    var ticket := TicketOf(b.transactions);
    (ticket.Some? ==> ticket.value.Ticket?) && SettlesFor(ticket, pay, ctx)
  }

  lemma {:induction false} TicketSettles(
    rules: Rules, ctx: Context, ticket: Option<Payload>, blockId: nat, ordinal: nat)
    requires ctx.Drawable() && (ticket.Some? ==> ticket.value.Ticket?)
    ensures SettlesFor(ticket, PayoutsFor(rules, ctx, ticket, blockId, ordinal), ctx)
  {
    if ticket.Some? { TicketSettlesEverything(rules, ctx, ticket.value, blockId, ordinal); }
  }

  lemma {:induction false} PayoutsSettle(rules: Rules, b: Block, ctx: Context, t: Tally)
    requires Readable(b, ctx)
    ensures Settles(b, PayoutsOf(rules, b, ctx, t), ctx)
  {
    var ticket := TicketOf(b.transactions);
    assert ticket.Some? ==> ticket.value.Ticket?;
    PayoutsAreFor(rules, b, ctx, t, ticket);
    TicketSettles(rules, ctx, ticket, b.id, t.nonFee + 1);
  }

  lemma {:induction false} PayoutsAreFor(rules: Rules, b: Block, ctx: Context, t: Tally, ticket: Option<Payload>)
    requires Readable(b, ctx) && ticket == TicketOf(b.transactions)
    requires ticket.Some? ==> ticket.value.Ticket?
    ensures PayoutsOf(rules, b, ctx, t) == PayoutsFor(rules, ctx, ticket, b.id, t.nonFee + 1)
  {
  }

  lemma {:induction false} ReportedSettlement(b: Block, pay: Payouts, ctx: Context, due: Currency)
    requires forall tx | tx in b.transactions :: tx.kind.GoldenTicket? ==> tx.data.Ticket?
    requires Reports(b, pay) && Settles(b, pay, ctx)
    requires due == if TicketOf(b.transactions).Some? then Values(pay.winners) else 0
    ensures Disbursed(b) - FeeOutputs(b) + due ==
      if HasGoldenTicket(b.transactions) then FeesSettled(ctx) else NoTicketGraveyard(ctx)
  {
    TicketMeansGoldenTicket(b.transactions);
  }

  lemma {:induction false} ReportsSettle(rules: Rules, b: Block, ctx: Context)
    requires Readable(b, ctx) && Reports(b, PayoutsOf(rules, b, ctx, TallyOf(b.transactions)))
    ensures Disbursed(b) - FeeDrift(rules, b, ctx) ==
      if HasGoldenTicket(b.transactions) then FeesSettled(ctx) else NoTicketGraveyard(ctx)
  {
    var pay := PayoutsOf(rules, b, ctx, TallyOf(b.transactions));
    PayoutsSettle(rules, b, ctx, TallyOf(b.transactions));
    ReportedSettlement(b, pay, ctx, WinningsDue(rules, b, ctx));
  }

  lemma {:induction false} AcceptedReports(rules: Rules, st: State, b: Block)
    requires rules.Valid() && st.chain != [] && Accepted(rules, st, b)
    ensures Reports(b, PayoutsOf(rules, b, ContextAt(rules, st), TallyOf(b.transactions)))
  {
  }

  lemma {:induction false} AcceptedFigures(rules: Rules, st: State, b: Block)
    requires rules.Valid() && st.chain != [] && Accepted(rules, st, b)
    ensures b.previousUnpaid == if HasGoldenTicket(b.transactions) then 0 else st.Tip().figures.totalFees
    ensures b.treasury == st.Tip().treasury + b.figures.payoutTreasury - b.figures.payoutAtr
    ensures b.graveyard == st.Tip().graveyard + b.figures.payoutGraveyard
  {
    TicketMeansGoldenTicket(b.transactions);
  }

  /**
   * The fees a block settles: with a ticket those of the previous block, and those of the one before if
   * they were still unpaid; without a ticket only the latter, which fall into the graveyard. What is
   * disbursed beyond that is the drift of the fee transactions.
   */
  lemma {:induction false} BlockSettles(rules: Rules, st: State, b: Block)
    requires rules.Valid() && Sound(st) && Accepted(rules, st, b)
    ensures Disbursed(b) + b.previousUnpaid ==
      st.Tip().figures.totalFees + st.Tip().previousUnpaid + FeeDrift(rules, b, ContextAt(rules, st))
    ensures b.previousUnpaid == if HasGoldenTicket(b.transactions) then 0 else st.Tip().figures.totalFees
  {
    var ctx := ContextAt(rules, st);
    AcceptedFigures(rules, st, b);
    AcceptedReports(rules, st, b);
    ReportsSettle(rules, b, ctx);
    SettledIsDue(rules, st);
  }

  // ---------- the supply ----------

  /** By how much a block moves the supply. */
  ghost function BlockDrift(rules: Rules, st: State, b: Block): int
    requires st.chain != [] && Readable(b, ContextAt(rules, st))
  {
    UserDrift(rules, st, b) + NftDrift(rules, st, b)
    + CapDrift(rules, b, ContextAt(rules, st)) + FeeDrift(rules, b, ContextAt(rules, st))
    - DroppedShare(b) - PurgeLoss(rules, st, b)
  }

  /** Every legal step leads from a sound state to a sound state. */
  lemma {:induction false} StepIsSound(rules: Rules, st: State, b: Block)
    requires rules.Valid() && Sound(st) && Legal(rules, st, b)
    ensures Sound(Step(rules, st, b))
  {
    WoundSlips(st, b);
    AcceptedFigures(rules, st, b);
    SoundExtension(rules, st, b);
  }

  lemma {:induction false} SoundExtension(rules: Rules, st: State, b: Block)
    requires Sound(st) && SoundBlock(b, |st.chain|)
    requires forall s | s in Wind(st.utxo, b.transactions) :: SoundSlip(st.chain + [b], s)
    requires b.previousUnpaid == if HasGoldenTicket(b.transactions) then 0 else st.Tip().figures.totalFees
    ensures Sound(Step(rules, st, b))
  {
    var next := Step(rules, st, b);
    forall i | 0 <= i < |next.chain| ensures SoundBlock(next.chain[i], i) {
      if i < |st.chain| { assert SoundBlock(st.chain[i], i); }
    }
  }

  /**
   * The exact balance of one step, for every block that `validate` accepts: whatever it spends, whatever
   * the treasury pays for rebroadcasts and whether or not the cap is taken.
   */
  lemma {:induction false} SupplyStep(rules: Rules, st: State, b: Block)
    requires rules.Valid() && Sound(st) && Legal(rules, st, b)
    ensures TotalSupply(rules, Step(rules, st, b)) == TotalSupply(rules, st) + BlockDrift(rules, st, b)
  {
    assert SoundBlock(st.Tip(), |st.chain| - 1);
    PurgedWindow(rules, st, b);
    WindowFlow(rules, st, b);
    OutputsByKind(b.transactions);
    RebroadcastFlow(rules, st, b);
    BlockSettles(rules, st, b);
    AcceptedFigures(rules, st, b);
  }

  // ---------- blocks that do not move it ----------

  /** The transaction spends from inside the window, and pays a fee only if the fee is counted. */
  ghost predicate OrdinaryTx(tx: Transaction, window: set<Slip>) {
    && (forall s | s in tx.inputs :: Value(s) > 0 ==> s in window)
    && (tx.kind.Normal? || tx.kind.GoldenTicket? || Values(tx.outputs) == Values(tx.inputs))
  }

  /**
   * Users' transactions validate, spend no expired slip and pay only counted fees; the golden ticket
   * names a real key; rebroadcasts and fee transaction are the computed ones; no NFT slip expires and
   * the cap is not taken. The treasury may pay for rebroadcasts.
   */
  ghost predicate Ordinary(rules: Rules, st: State, b: Block)
    requires rules.Valid() && st.chain != [] && Readable(b, ContextAt(rules, st))
  {
    var ctx := ContextAt(rules, st);
    var cv := ConsensusOf(rules, b, ctx);
    && HonestUsers(rules, b.transactions, st.utxo)
    && (forall tx | tx in b.transactions && FromUser(tx) :: OrdinaryTx(tx, NextWindow(rules, st)))
    && (forall tx | tx in b.transactions && tx.kind.GoldenTicket? :: tx.data.solver != BURN_KEY)
    && AsScanned(b.transactions, cv.hashed)
    && CarriesFee(OfKind(b.transactions, TransactionType.Fee), cv.feeTransaction)
    && (ctx.expiring.Some? ==> NoBoundOutputs(ctx.expiring.value.transactions))
    && !CapTaken(rules, b, RawScan(rules, b, ctx))
  }

  lemma {:induction false} OrdinaryDrifts(txs: seq<Transaction>, window: set<Slip>)
    requires forall tx | tx in txs && FromUser(tx) ::
      OrdinaryTx(tx, window) && (MustBeFunded(tx.kind) ==> Values(tx.outputs) <= Values(tx.inputs))
    ensures Drifts(txs, window) == 0
  {
    if txs != [] {
      assert txs[0] in txs;
      InUtxoAtMostValues(txs[0].inputs, window);
      OrdinaryDrifts(txs[1..], window);
    }
  }

  /** Rebroadcasts spend slips below the window, multiplied or not. */
  lemma {:induction false} RebroadcastsLieOutside(rules: Rules, st: State, b: Block, tx: Transaction, s: Slip)
    requires rules.Valid() && Sound(st) && b.id == |st.chain| + 1
    requires AsScanned(b.transactions, RawScan(rules, b, ContextAt(rules, st)).rebroadcasts)
    requires tx in b.transactions && tx.kind.ATR? && s in tx.inputs
    ensures s.blockId < Floor(rules, b.id) && s !in NextWindow(rules, st)
  {
    var ctx := ContextAt(rules, st);
    RawScanOrigins(rules, st, b);
    ScannedInputs(st, b.transactions, RawScan(rules, b, ctx).rebroadcasts,
      ExpiringId(rules, st), PayoutMultiplier(rules, ctx), tx, s);
  }

  lemma {:induction false} ScannedInputs(
    st: State, txs: seq<Transaction>, hashed: seq<Transaction>, blockId: nat, multiplier: nat, tx: Transaction, s: Slip)
    requires Sound(st) && AsScanned(txs, hashed) && AllHaveOrigins(hashed, st.utxo, blockId, multiplier)
    requires tx in txs && tx.kind.ATR? && s in tx.inputs
    ensures s.blockId == blockId && blockId > 0
  {
    var atr := OfKind(txs, TransactionType.ATR);
    assert tx in atr;
    var i :| 0 <= i < |atr| && atr[i] == tx;
    var r := hashed[i];
    assert r in hashed && HasOrigin(r, st.utxo, blockId, multiplier);
    var e :| Multiplies(r, e, st.utxo, blockId, multiplier);
    assert SoundSlip(st.chain, e);
    var k :| 0 <= k < |r.inputs| && r.inputs[k] == s;
  }

  /** A block whose users are honest and whose rebroadcasts are the computed ones spends earlier slips only. */
  lemma {:induction false} HonestBlockSpendsThePast(rules: Rules, st: State, b: Block)
    requires rules.Valid() && Sound(st) && b.id == |st.chain| + 1 && HonestUsers(rules, b.transactions, st.utxo)
    requires AsScanned(b.transactions, RawScan(rules, b, ContextAt(rules, st)).rebroadcasts)
    requires forall tx | tx in b.transactions && tx.kind.Fee? :: AllSpendable(tx.inputs, st.utxo)
    ensures SpendsThePast(b)
  {
    forall s | s in Spent(b.transactions) ensures s.blockId < b.id {
      SpentMembers(b.transactions, s);
      var i :| 0 <= i < |b.transactions| && s in b.transactions[i].inputs;
      var tx := b.transactions[i];
      assert tx in b.transactions;
      if tx.kind.ATR? {
        RebroadcastsLieOutside(rules, st, b, tx, s);
      } else {
        assert Spendable(s, st.utxo) && SoundSlip(st.chain, s);
      }
    }
  }

  /**
   * An accepted block holds only transactions that spend slips of the utxoset, and can be unwound
   * without a trace, exactly when the treasury multiplies nothing: at multiplier one, or when nothing is
   * rebroadcast. Otherwise its rebroadcasts spend slips that never existed, and it is accepted all the same.
   */
  lemma {:induction false} ValidIffUnmultiplied(rules: Rules, st: State, b: Block)
    requires rules.Valid() && Sound(st) && Legal(rules, st, b) && HonestUsers(rules, b.transactions, st.utxo)
    requires AsScanned(b.transactions, RawScan(rules, b, ContextAt(rules, st)).rebroadcasts)
    requires forall tx | tx in b.transactions && tx.kind.Fee? :: AllSpendable(tx.inputs, st.utxo)
    ensures var ctx := ContextAt(rules, st);
      var unmultiplied := PayoutMultiplier(rules, ctx) == 1 || RawScan(rules, b, ctx).rebroadcasts == [];
      && ((forall tx | tx in b.transactions :: AllSpendable(tx.inputs, st.utxo)) <==> unmultiplied)
      && (Unwind(Wind(st.utxo, b.transactions), b.transactions) == st.utxo <==> unmultiplied)
  {
    var ctx := ContextAt(rules, st);
    var hashed := RawScan(rules, b, ctx).rebroadcasts;
    RawScanOrigins(rules, st, b);
    OriginsSpendableIff(st, hashed, ExpiringId(rules, st), PayoutMultiplier(rules, ctx));
    AsScannedSpendable(b.transactions, hashed, st.utxo);
    HonestBlockSpendsThePast(rules, st, b);
    UnwindingABlock(st, b);
  }

  lemma {:induction false} InUtxoNone(slips: seq<Slip>, window: set<Slip>)
    requires forall s | s in slips :: s !in window
    ensures InUtxo(slips, window) == 0
  {
    if slips != [] { InUtxoNone(slips[1..], window); }
  }

  /** Where users' transactions validate and protocol inputs lie outside, the drift is that of each transaction. */
  lemma {:induction false} UserDriftByTransaction(rules: Rules, st: State, b: Block)
    requires Sound(st) && SoundBlock(b, |st.chain|) && SpendsThePast(b)
    requires NoDoubleSpend(rules, b.transactions, st.utxo) && HonestUsers(rules, b.transactions, st.utxo)
    requires forall tx, s | tx in b.transactions && !FromUser(tx) && s in tx.inputs :: s !in NextWindow(rules, st)
    ensures UserDrift(rules, st, b) == Drifts(b.transactions, NextWindow(rules, st))
  {
    var window := NextWindow(rules, st);
    forall tx | tx in b.transactions && !FromUser(tx) ensures InUtxo(tx.inputs, window) == 0 {
      InUtxoNone(tx.inputs, window);
    }
    TakenInBulk(rules, st, b);
    WindowSpentOnce(rules, b.transactions, st.utxo, window);
    InUtxoIsOver(Spent(b.transactions), window);
    DriftsAddUp(b.transactions, window);
  }

  /** Ordinary blocks do not move the supply, even when the treasury pays for their rebroadcasts. */
  lemma {:induction false} OrdinaryBlockDrift(rules: Rules, st: State, b: Block)
    requires rules.Valid() && Sound(st) && Legal(rules, st, b) && Ordinary(rules, st, b)
    requires forall i :: 0 <= i < |st.chain| ==> LooksBack(st.chain[i])
    ensures BlockDrift(rules, st, b) == 0 && LooksBack(b)
  {
    var ctx := ContextAt(rules, st);
    CarriedFeeIsRight(rules, b, ctx);
    HonestBlockSpendsThePast(rules, st, b);
    NothingIsPurged(rules, st, b);
    forall tx, s | tx in b.transactions && !FromUser(tx) && s in tx.inputs ensures s !in NextWindow(rules, st) {
      RebroadcastsLieOutside(rules, st, b, tx, s);
    }
    UserDriftByTransaction(rules, st, b);
    OrdinaryDrifts(b.transactions, NextWindow(rules, st));
    NftDriftVanishes(rules, st, b);
    CapDriftExact(rules, b, ctx);
    TicketIsNamed(b);
  }

  lemma {:induction false} TicketIsNamed(b: Block)
    requires forall tx | tx in b.transactions && tx.kind.GoldenTicket? :: tx.data.Ticket? && tx.data.solver != BURN_KEY
    ensures DroppedShare(b) == 0
  {
    var ticket := LastOf(b.transactions, TransactionType.GoldenTicket);
    if ticket.Some? { assert b.transactions[ticket.value] in b.transactions; }
  }

  lemma {:induction false} OrdinaryBlockKeepsSupply(rules: Rules, st: State, b: Block)
    requires rules.Valid() && Sound(st) && Legal(rules, st, b) && Ordinary(rules, st, b)
    requires forall i :: 0 <= i < |st.chain| ==> LooksBack(st.chain[i])
    ensures TotalSupply(rules, Step(rules, st, b)) == TotalSupply(rules, st)
  {
    SupplyStep(rules, st, b);
    OrdinaryBlockDrift(rules, st, b);
  }
}
