/**
 * Token supply. The node panics when the slips inside the genesis window, the treasury, the graveyard
 * and the fees not yet paid out stop adding up to the initial supply (`check_total_supply`). Here is
 * by exactly how much each accepted block moves that sum, and when it does not move it at all.
 */
module Supply {
  import opened Sums
  import opened Types
  import opened Utxo
  import opened Payouts
  import opened Consensus
  import opened Validation

  // ---------- states and steps ----------

  /** A gap-free chain, block `i` at index `i - 1`, and the utxoset of its tip. */
  datatype State = State(chain: seq<Block>, utxo: set<Slip>) {
    function Tip(): Block
      requires chain != []
    {
      chain[|chain| - 1]
    }
  }

  /** What the consensus values of the next block are computed from. */
  function ContextAt(rules: Rules, st: State): Context
    requires st.chain != []
  {
    var n := |st.chain|;
    Context(
      Some(st.Tip()),
      if n >= 2 then Some(st.chain[n - 2]) else None,
      if n > rules.genesisPeriod then Some(st.chain[n - rules.genesisPeriod - 1]) else None,
      st.utxo)
  }

  /** The oldest block whose outputs still count when block `id` is the tip. */
  function Floor(rules: Rules, id: nat): nat {
    if id > rules.genesisPeriod then id - rules.genesisPeriod else 0
  }

  function Window(utxo: set<Slip>, floor: nat): set<Slip> {
    set s | s in utxo && !s.kind.Bound? && s.blockId >= floor
  }

  /** calculate the current supply, as check_total_supply does */
  ghost function TotalSupply(rules: Rules, st: State): nat
    requires st.chain != []
  {
    var tip := st.Tip();
    Over(Window(st.utxo, Floor(rules, tip.id)), Value)
    + tip.graveyard + tip.treasury + tip.previousUnpaid + tip.figures.totalFees
  }

  /**
   * The checks that `validate` makes of the next block: it has transactions, no issuance, the values and
   * contents that are recomputed for it, and no slip entered twice.
   */
  ghost predicate Accepted(rules: Rules, st: State, b: Block)
    requires st.chain != [] && rules.Valid()
  {
    var ctx := ContextAt(rules, st);
    && b.id == |st.chain| + 1
    && Readable(b, ctx)
    && b.transactions != []
    && (forall tx | tx in b.transactions :: !tx.kind.Issuance?)
    && ValuesValidate(rules, b, ctx)
    && NoDoubleSpend(rules, b.transactions, st.utxo)
  }

  /** Accepted, with its outputs located as `generate` locates them before any check is made. */
  ghost predicate Legal(rules: Rules, st: State, b: Block)
    requires st.chain != [] && rules.Valid()
  {
    Accepted(rules, st, b) && SoundBlock(b, |st.chain|)
  }

  function SlipsOf(txs: seq<Transaction>): set<Slip> {
    (set i, s | 0 <= i < |txs| && s in txs[i].inputs :: s) + (set i, s | 0 <= i < |txs| && s in txs[i].outputs :: s)
  }

  /** Two genesis periods after it was added, a block is purged along with all slips it mentions. */
  function Purged(rules: Rules, chain: seq<Block>): set<Slip> {
    if |chain| >= 2 * rules.genesisPeriod + 1
    then SlipsOf(chain[|chain| - 2 * rules.genesisPeriod - 1].transactions)
    else {}
  }

  function Step(rules: Rules, st: State, b: Block): State {
    var chain := st.chain + [b];
    State(chain, Wind(st.utxo, b.transactions) - Purged(rules, chain))
  }

  /** What holds of every reachable state. */
  ghost predicate Sound(st: State) {
    && st.chain != []
    && (forall i :: 0 <= i < |st.chain| ==> SoundBlock(st.chain[i], i))
    && (forall s | s in st.utxo :: SoundSlip(st.chain, s))
    && st.Tip().previousUnpaid == Outstanding(st.chain)
  }

  ghost predicate SoundBlock(b: Block, i: nat) {
    b.id == i + 1 && OutputsAt(b.transactions, i + 1, 0)
  }

  ghost predicate SoundSlip(chain: seq<Block>, s: Slip) {
    1 <= s.blockId <= |chain| && s in Created(chain[s.blockId - 1].transactions)
  }

  /** Fees of the block before the tip that the tip has not settled. */
  function Outstanding(chain: seq<Block>): Currency
    requires chain != []
  {
    var n := |chain|;
    if n < 2 || HasGoldenTicket(chain[n - 1].transactions) then 0 else chain[n - 2].figures.totalFees
  }

  /** Block 1 brings the issuance into an empty utxoset. */
  ghost predicate GenesisBlock(g: Block) {
    SoundBlock(g, 0) && g.previousUnpaid == 0
  }

  lemma {:induction false} GenesisIsSound(g: Block)
    requires GenesisBlock(g)
    ensures Sound(State([g], Wind({}, g.transactions)))
  {
    forall s | s in Wind({}, g.transactions) ensures SoundSlip([g], s) {
      WindMembers({}, g.transactions, s);
      CreatedLocations(g.transactions, 1, 0, s);
    }
  }

  // ---------- what a block spends and creates ----------

  /** The block spends slips of earlier blocks only. */
  ghost predicate SpendsThePast(b: Block) {
    forall s | s in Spent(b.transactions) :: s.blockId < b.id
  }

  /** A block creates distinct slips that are new to the utxoset. */
  lemma {:induction false} NewSlips(st: State, b: Block)
    requires Sound(st) && SoundBlock(b, |st.chain|)
    ensures NoRepeats(Created(b.transactions)) && forall s | s in Created(b.transactions) :: s.blockId == b.id
    ensures Elements(Created(b.transactions)) !! st.utxo
    ensures forall s | s in st.utxo :: s.blockId < b.id
  {
    CreatedNoRepeats(b.transactions, b.id, 0);
    forall s | s in Created(b.transactions) ensures s.blockId == b.id {
      CreatedLocations(b.transactions, b.id, 0, s);
    }
    forall s | s in st.utxo ensures s.blockId <= |st.chain| {
      assert SoundSlip(st.chain, s);
    }
  }

  /**
   * A reorganization restores the utxoset if and only if that held every slip with value that the
   * unwound block spends. Whatever it spent beyond that is conjured up.
   */
  lemma {:induction false} UnwindingABlock(st: State, b: Block)
    requires Sound(st) && SoundBlock(b, |st.chain|) && SpendsThePast(b)
    ensures Unwind(Wind(st.utxo, b.transactions), b.transactions) == st.utxo + Elements(Spent(b.transactions))
    ensures Unwind(Wind(st.utxo, b.transactions), b.transactions) == st.utxo <==>
      forall tx | tx in b.transactions :: AllSpendable(tx.inputs, st.utxo)
  {
    NewSlips(st, b);
    UnwindUndoesWind(st.utxo, b.transactions);
    SpendsItsUtxo(b.transactions, st.utxo);
  }

  lemma {:induction false} SpendsItsUtxo(txs: seq<Transaction>, utxo: set<Slip>)
    ensures Elements(Spent(txs)) <= utxo <==> forall tx | tx in txs :: AllSpendable(tx.inputs, utxo)
  {
    if txs != [] {
      var first := txs[0];
      SpendsItsUtxo(txs[1..], utxo);
      forall s ensures s in Positive(first.inputs) <==> s in first.inputs && s.amount > 0 {
        PositiveMembers(first.inputs, s);
      }
      assert Elements(Spent(txs)) == Elements(Positive(first.inputs)) + Elements(Spent(txs[1..]));
      assert forall tx :: tx in txs <==> tx == first || tx in txs[1..];
      assert Elements(Positive(first.inputs)) <= utxo <==> AllSpendable(first.inputs, utxo);
    }
  }
}
