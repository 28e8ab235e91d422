/** The mempool: running total of routing work, conflict index, and the bundling of blocks. */
module Mempool {
  import opened Sums
  import opened Types
  import opened Modular
  import opened Utxo
  import opened Rebroadcast
  import opened Payouts
  import opened Consensus
  import opened Creation
  import opened Agreement

  type Signature = nat

  // ---------- routing work ----------

  predicate PathLinked(path: seq<Hop>) {
    forall i :: 1 <= i < |path| ==> path[i].sender == path[i - 1].receiver
  }

  function Halved(work: Currency, times: nat): Currency
    decreases times
  {
    if times == 0 then work else Halved(work - work / 2, times - 1)
  }

  /** generate_total_work: the fee, halved for every hop after the first, if the path ends at `key`. */
  function Work(tx: Transaction, key: PublicKey): Currency {
    if tx.path == [] || tx.path[|tx.path| - 1].receiver != key || !PathLinked(tx.path) then 0
    else Halved(FeeOf(tx), |tx.path| - 1)
  }

  /** The `shares`-th part, rounded up. */
  predicate RoundedUp(part: nat, whole: nat, shares: nat) {
    part * shares >= whole && (part > 0 ==> (part - 1) * shares < whole)
  }

  lemma {:induction false} HalvedIsShare(work: Currency, times: nat)
    ensures RoundedUp(Halved(work, times), work, PowerOfTwo(times))
    decreases times
  {
    if times > 0 {
      var half := work - work / 2;
      HalvedIsShare(half, times - 1);
      TwiceRoundedUp(Halved(half, times - 1), half, PowerOfTwo(times - 1), work);
    }
  }

  lemma {:induction false} TwiceRoundedUp(part: nat, half: nat, shares: nat, whole: nat)
    requires RoundedUp(part, half, shares) && half == (whole + 1) / 2
    ensures RoundedUp(part, whole, 2 * shares)
  {
    assert part * (2 * shares) == 2 * (part * shares) && 2 * half >= whole;
    if part > 0 { assert (part - 1) * (2 * shares) == 2 * ((part - 1) * shares); }
  }

  /** The path leads from hop to hop and ends at the key. */
  predicate LeadsTo(path: seq<Hop>, key: PublicKey) {
    && path != [] && path[|path| - 1].receiver == key
    && forall i :: 0 <= i < |path| - 1 ==> path[i].receiver == path[i + 1].sender
  }

  /** The fee's share of two to the number of hops before the last, for whoever the path leads to. */
  lemma {:induction false} WorkIsShare(tx: Transaction, key: PublicKey)
    ensures if LeadsTo(tx.path, key) then RoundedUp(Work(tx, key), FeeOf(tx), PowerOfTwo(|tx.path| - 1))
      else Work(tx, key) == 0
  {
    var path := tx.path;
    if path != [] { HalvedIsShare(FeeOf(tx), |path| - 1); }
    if PathLinked(path) {
      forall i | 0 <= i < |path| - 1 ensures path[i].receiver == path[i + 1].sender {
        assert path[i + 1].sender == path[i + 1 - 1].receiver;
      }
    } else {
      var i :| 1 <= i < |path| && path[i].sender != path[i - 1].receiver;
      assert path[i - 1].receiver != path[i - 1 + 1].sender;
    }
  }

  method GenerateTotalWork(tx: Transaction, key: PublicKey) returns (work: Currency)
    ensures work == Work(tx, key)
    ensures if LeadsTo(tx.path, key) then RoundedUp(work, FeeOf(tx), PowerOfTwo(|tx.path| - 1)) else work == 0
  {
    WorkIsShare(tx, key);
    if tx.path == [] || tx.path[|tx.path| - 1].receiver != key {
      return 0;
    }
    work := FeeOf(tx);
    for i := 1 to |tx.path|
      invariant forall k :: 1 <= k < i ==> tx.path[k].sender == tx.path[k - 1].receiver
      invariant Halved(work, |tx.path| - i) == Halved(FeeOf(tx), |tx.path| - 1)
    {
      if tx.path[i].sender != tx.path[i - 1].receiver {
        return 0;
      }
      work := work - work / 2;
    }
  }

  function WorkBy(key: PublicKey): Transaction -> nat {
    tx => Work(tx, key)
  }

  /** total_work of a block: the work of its transactions for its creator. */
  function BlockWork(b: Block): Currency {
    Along(b.transactions, WorkBy(b.creator))
  }

  function HeldWork(m: map<Signature, Transaction>, key: PublicKey): Signature -> nat {
    s => if s in m then Work(m[s], key) else 0
  }

  /** The work of all held transactions. */
  ghost function TotalHeld(m: map<Signature, Transaction>, key: PublicKey): nat {
    Over(m.Keys, HeldWork(m, key))
  }

  lemma {:induction false} HeldAfterAdd(m: map<Signature, Transaction>, s: Signature, tx: Transaction, key: PublicKey)
    requires s !in m
    ensures TotalHeld(m[s := tx], key) == TotalHeld(m, key) + Work(tx, key)
  {
    var n := m[s := tx];
    Remove(n.Keys, HeldWork(n, key), s);
    assert n.Keys - {s} == m.Keys;
    Pointwise(m.Keys, HeldWork(n, key), HeldWork(m, key));
  }

  /** `txs` lists what the map holds, each transaction once; `sigs` are their signatures. */
  ghost predicate Lists(m: map<Signature, Transaction>, txs: seq<Transaction>, sigs: seq<Signature>) {
    && |sigs| == |txs| && NoRepeats(sigs) && Elements(sigs) == m.Keys
    && forall i :: 0 <= i < |txs| ==> sigs[i] in m && txs[i] == m[sigs[i]]
  }

  lemma {:induction false} SameWorkAlong(
    m: map<Signature, Transaction>, txs: seq<Transaction>, sigs: seq<Signature>, key: PublicKey)
    requires |sigs| == |txs| && forall i :: 0 <= i < |txs| ==> sigs[i] in m && txs[i] == m[sigs[i]]
    ensures Along(txs, WorkBy(key)) == Along(sigs, HeldWork(m, key))
  {
    if txs != [] { SameWorkAlong(m, txs[1..], sigs[1..], key); }
  }

  lemma {:induction false} ListedWork(
    m: map<Signature, Transaction>, txs: seq<Transaction>, sigs: seq<Signature>, key: PublicKey)
    requires Lists(m, txs, sigs)
    ensures Along(txs, WorkBy(key)) == TotalHeld(m, key)
  {
    SameWorkAlong(m, txs, sigs, key);
    AlongIsOver(sigs, HeldWork(m, key));
  }

  /** Draining the map: every transaction once, in some order. */
  method Drain(m: map<Signature, Transaction>) returns (txs: seq<Transaction>, ghost sigs: seq<Signature>)
    ensures Lists(m, txs, sigs)
  {
    txs, sigs := [], [];
    var left := m.Keys;
    while left != {}
      invariant left <= m.Keys && |sigs| == |txs| && NoRepeats(sigs) && Elements(sigs) == m.Keys - left
      invariant forall i :: 0 <= i < |txs| ==> sigs[i] in m && txs[i] == m[sigs[i]]
      decreases left
    {
      var s :| s in left;
      assert s !in Elements(sigs);
      NoRepeatsConcat(sigs, [s]);
      assert Elements(sigs + [s]) == Elements(sigs) + {s};
      txs, sigs := txs + [m[s]], sigs + [s];
      left := left - {s};
    }
  }

  // ---------- conflicts ----------

  /** The two transactions share no input with value. */
  ghost predicate NoConflict(a: Transaction, b: Transaction) {
    forall s | s in a.inputs && s in b.inputs :: s.amount == 0
  }

  /** What every reachable mempool satisfies. */
  ghost predicate Sane(m: map<Signature, Transaction>, index: set<Slip>) {
    && (forall s | s in m :: m[s].signature == s && !m[s].kind.GoldenTicket?)
    && (forall s, i | s in m && i in m[s].inputs :: i.amount > 0 ==> i in index)
    && (forall s, t | s in m && t in m && s != t :: NoConflict(m[s], m[t]))
  }

  lemma {:induction false} DrainedSpendsOnce(txs: seq<Transaction>)
    requires forall i :: 0 <= i < |txs| ==> NoRepeats(Positive(txs[i].inputs))
    requires forall i, j :: 0 <= i < j < |txs| ==> NoConflict(txs[i], txs[j])
    ensures NoRepeats(Spent(txs))
  {
    if txs != [] {
      var rest := txs[1..];
      forall i, j | 0 <= i < j < |rest| ensures NoConflict(rest[i], rest[j]) {
        assert NoConflict(txs[i + 1], txs[j + 1]);
      }
      DrainedSpendsOnce(rest);
      forall s | s in Positive(txs[0].inputs) ensures s !in Spent(rest) {
        PositiveMembers(txs[0].inputs, s);
        SpentMembers(rest, s);
        forall i | 0 <= i < |rest| ensures s !in rest[i].inputs {
          assert NoConflict(txs[0], txs[i + 1]);
        }
      }
      NoRepeatsConcat(Positive(txs[0].inputs), Spent(rest));
    }
  }

  lemma {:induction false} NotFeesOfOthers(txs: seq<Transaction>)
    requires forall tx | tx in txs :: !tx.kind.Fee?
    ensures NotFees(txs) == txs
  {
    if txs != [] {
      assert txs[0] in txs;
      NotFeesOfOthers(txs[1..]);
      assert txs == [txs[0]] + txs[1..];
    }
  }

  /** No conflicts, and a ticket that spends nothing: `create` finds no double spend. */
  lemma {:induction false} BundleHasNoDoubleSpend(rules: Rules, o: Order, ctx: Context)
    requires rules.Valid() && Readable(Draft(o, ctx), ctx)
    requires ConsensusOf(rules, Draft(o, ctx), ctx).rebroadcasts == []
    requires o.ticket.Some? ==> !o.ticket.value.kind.Fee? && Positive(o.ticket.value.inputs) == []
    requires forall tx | tx in o.transactions :: !tx.kind.Fee?
    requires NoRepeats(Spent(o.transactions))
    ensures NoRepeats(Spent(NotFees(AllTransactions(o, ConsensusOf(rules, Draft(o, ctx), ctx)))))
  {
    DraftFeeIsFee(rules, o, ctx);
    BundleSpendsOnce(o, ConsensusOf(rules, Draft(o, ctx), ctx));
  }

  lemma {:induction false} DraftFeeIsFee(rules: Rules, o: Order, ctx: Context)
    requires rules.Valid() && Readable(Draft(o, ctx), ctx)
    ensures var fee := ConsensusOf(rules, Draft(o, ctx), ctx).feeTransaction; fee.Some? ==> fee.value.kind.Fee?
  {
  }

  lemma {:induction false} BundleSpendsOnce(o: Order, cv: ConsensusValues)
    requires cv.rebroadcasts == [] && (cv.feeTransaction.Some? ==> cv.feeTransaction.value.kind.Fee?)
    requires o.ticket.Some? ==> !o.ticket.value.kind.Fee? && Positive(o.ticket.value.inputs) == []
    requires forall tx | tx in o.transactions :: !tx.kind.Fee?
    requires NoRepeats(Spent(o.transactions))
    ensures NoRepeats(Spent(NotFees(AllTransactions(o, cv))))
  {
    var ticket := if o.ticket.Some? then [o.ticket.value] else [];
    var fee := if cv.feeTransaction.Some? then [cv.feeTransaction.value] else [];
    assert cv.rebroadcasts == [] && ticket + o.transactions + [] == ticket + o.transactions;
    assert AllTransactions(o, cv) == ticket + o.transactions + fee;
    OnlyUsersSpend(ticket, o.transactions, fee);
  }

  lemma {:induction false} OnlyUsersSpend(ticket: seq<Transaction>, txs: seq<Transaction>, fee: seq<Transaction>)
    requires |ticket| <= 1 && forall tx | tx in ticket :: !tx.kind.Fee? && Positive(tx.inputs) == []
    requires |fee| <= 1 && forall tx | tx in fee :: tx.kind.Fee?
    requires forall tx | tx in txs :: !tx.kind.Fee?
    ensures Spent(NotFees(ticket + txs + fee)) == Spent(txs)
  {
    NotFeesConcat(ticket + txs, fee);
    NotFeesConcat(ticket, txs);
    NotFeesOfOthers(txs);
    NotFeesOfOthers(ticket);
    assert NotFees(fee) == [];
    SpentConcat(ticket, txs);
    assert Spent(ticket) == [];
    assert NotFees(ticket + txs + fee) == ticket + txs;
  }

  // ---------- work of the finished block ----------

  lemma {:induction false} StampedWork(txs: seq<Transaction>, r: seq<Transaction>, key: PublicKey)
    requires |r| == |txs|
    requires forall i :: 0 <= i < |r| ==> r[i].path == txs[i].path && FeeOf(r[i]) == FeeOf(txs[i])
    ensures Along(r, WorkBy(key)) == Along(txs, WorkBy(key))
  {
    if r != [] { StampedWork(txs[1..], r[1..], key); }
  }

  /** Whatever `create` adds, the block carries at least the work of the bundled transactions. */
  lemma {:induction false} BundleCarriesTheWork(rules: Rules, o: Order, ctx: Context)
    requires rules.Valid() && Readable(Draft(o, ctx), ctx)
    ensures BlockWork(Finished(rules, o, ctx)) >= Along(o.transactions, WorkBy(o.creator))
  {
    var d := Draft(o, ctx);
    var cv := ConsensusOf(rules, d, ctx);
    var all := AllTransactions(o, cv);
    var f := WorkBy(o.creator);
    forall i | 0 <= i < |all| ensures FeeOf(Stamped(all, d.id)[i]) == FeeOf(all[i]) {
      LocatedValues(all[i].outputs, d.id, OrdinalOf(all, i));
    }
    StampedWork(all, Stamped(all, d.id), o.creator);
    var ticket := if o.ticket.Some? then [o.ticket.value] else [];
    var fee := if cv.feeTransaction.Some? then [cv.feeTransaction.value] else [];
    AlongConcat(ticket + o.transactions + cv.rebroadcasts, fee, f);
    AlongConcat(ticket + o.transactions, cv.rebroadcasts, f);
    AlongConcat(ticket, o.transactions, f);
  }

  // ---------- the mempool ----------

  predicate Settles(tx: Transaction, s: Signature) {
    !tx.kind.GoldenTicket? && tx.signature == s
  }

  predicate Solves(tx: Transaction, target: Hash) {
    tx.kind.GoldenTicket? && tx.data.Ticket? && tx.data.target == target
  }

  predicate InBlock(txs: seq<Transaction>, s: Signature) {
    exists i :: 0 <= i < |txs| && Settles(txs[i], s)
  }

  /** What is left after a block with these transactions was added. */
  function Remaining(
    m: map<Signature, Transaction>, keep: set<Signature>, txs: seq<Transaction>): map<Signature, Transaction> {
    map s | s in m && s in keep && !InBlock(txs, s) :: m[s]
  }

  /** The blocks that the golden tickets among these transactions solve. */
  function Targets(txs: seq<Transaction>): set<Hash> {
    set tx | tx in txs && tx.kind.GoldenTicket? && tx.data.Ticket? :: tx.data.target
  }

  lemma {:induction false} SaneSubmap(m: map<Signature, Transaction>, n: map<Signature, Transaction>, index: set<Slip>)
    requires Sane(m, index) && n.Keys <= m.Keys && forall s | s in n :: n[s] == m[s]
    ensures Sane(n, index)
  {
  }

  method RemoveListed(
    m: map<Signature, Transaction>, tickets: map<Hash, Transaction>, keep: set<Signature>, txs: seq<Transaction>)
    returns (left: map<Signature, Transaction>, ticketsLeft: map<Hash, Transaction>)
    requires forall tx | tx in txs :: tx.kind.GoldenTicket? ==> tx.data.Ticket?
    ensures left == Remaining(m, keep, txs)
    ensures ticketsLeft == tickets - Targets(txs)
  {
    left := map s | s in m && s in keep :: m[s];
    ticketsLeft := tickets;
    for i := 0 to |txs|
      invariant left == Remaining(m, keep, txs[..i])
      invariant ticketsLeft == tickets - Targets(txs[..i])
    {
      assert txs[..i + 1] == txs[..i] + [txs[i]];
      forall s ensures InBlock(txs[..i + 1], s) <==>
        InBlock(txs[..i], s) || Settles(txs[i], s)
      {
        InBlockNext(txs, i, s);
      }
      if txs[i].kind.GoldenTicket? {
        ticketsLeft := ticketsLeft - {txs[i].data.target};
        assert Targets(txs[..i + 1]) == Targets(txs[..i]) + {txs[i].data.target};
      } else {
        left := left - {txs[i].signature};
        assert Targets(txs[..i + 1]) == Targets(txs[..i]);
      }
    }
    assert txs[..|txs|] == txs;
  }

  lemma {:induction false} InBlockNext(txs: seq<Transaction>, i: nat, s: Signature)
    requires i < |txs|
    ensures InBlock(txs[..i + 1], s) <==> InBlock(txs[..i], s) || Settles(txs[i], s)
  {
    var (a, b) := (txs[..i], txs[..i + 1]);
    if InBlock(a, s) {
      var k :| 0 <= k < |a| && Settles(a[k], s);
      assert b[k] == a[k];
    }
    if Settles(txs[i], s) { assert b[i] == txs[i]; }
  }

  method AddUpWork(held: seq<Transaction>, key: PublicKey) returns (work: Currency)
    ensures work == Along(held, WorkBy(key))
  {
    work := 0;
    for i := 0 to |held|
      invariant work == Along(held[..i], WorkBy(key))
    {
      assert held[..i + 1] == held[..i] + [held[i]];
      AlongAppend(held[..i], held[i], WorkBy(key));
      work := work + Work(held[i], key);
    }
    assert held[..|held|] == held;
  }

  method RecomputeWork(m: map<Signature, Transaction>, key: PublicKey) returns (work: Currency)
    ensures work == TotalHeld(m, key)
  {
    var held, sigs := Drain(m);
    ListedWork(m, held, sigs, key);
    work := AddUpWork(held, key);
  }

  /** The part of bundling that the mempool does not decide. */
  datatype Surroundings = Surroundings(
    hasBlocks: bool,                       // the chain is not empty
    queueEmpty: bool,                      // no received blocks are waiting
    ticketsSuffice: bool,                  // is_golden_ticket_count_valid
    delay: nat,                            // the key-dependent delay of up to five seconds
    workNeeded: (Currency, nat, nat) -> Currency)

  /** What `bundle_block` comes back with; the source folds the last three into None. */
  datatype Bundle = Bundled(block: Block) | NotReady | NoStake | Rejected

  /** Every transaction lists each of its own inputs once and is not a fee transaction. */
  ghost predicate TidyInputs(tx: Transaction) {
    NoRepeats(Positive(tx.inputs)) && !tx.kind.Fee?
  }

  lemma {:induction false} ListedSpendOnce(
    m: map<Signature, Transaction>, index: set<Slip>, txs: seq<Transaction>, sigs: seq<Signature>)
    requires Lists(m, txs, sigs) && Sane(m, index) && forall s | s in m :: TidyInputs(m[s])
    ensures NoRepeats(Spent(txs)) && forall tx | tx in txs :: !tx.kind.Fee?
  {
    forall i, j | 0 <= i < j < |txs| ensures NoConflict(txs[i], txs[j]) {
      assert sigs[i] != sigs[j];
    }
    DrainedSpendsOnce(txs);
  }

  ghost function InputsOf(txs: seq<Transaction>): set<Slip> {
    set i, s | 0 <= i < |txs| && s in txs[i].inputs :: s
  }

  /** Forget the inputs of a list of transactions. */
  method ForgetInputs(index: set<Slip>, txs: seq<Transaction>) returns (left: set<Slip>)
    ensures left == index - InputsOf(txs)
  {
    left := index;
    for i := 0 to |txs|
      invariant left == index - (set k, s | 0 <= k < i && s in txs[k].inputs :: s)
    {
      ghost var before := left;
      for j := 0 to |txs[i].inputs|
        invariant left == before - (set s | s in txs[i].inputs[..j])
      {
        assert txs[i].inputs[..j + 1] == txs[i].inputs[..j] + [txs[i].inputs[j]];
        left := left - {txs[i].inputs[j]};
      }
      assert txs[i].inputs[..|txs[i].inputs|] == txs[i].inputs;
    }
  }

  lemma {:induction false} ListedIsReadable(
    m: map<Signature, Transaction>, index: set<Slip>, txs: seq<Transaction>, sigs: seq<Signature>,
    o: Order, ctx: Context)
    requires Lists(m, txs, sigs) && Sane(m, index) && ctx.Drawable() && o.transactions == txs
    requires o.ticket.Some? ==> o.ticket.value.data.Ticket?
    ensures Readable(Draft(o, ctx), ctx)
  {
  }

  lemma {:induction false} NoRebroadcastsYet(rules: Rules, o: Order, ctx: Context)
    requires rules.Valid() && Readable(Draft(o, ctx), ctx) && ctx.expiring.None?
    ensures ConsensusOf(rules, Draft(o, ctx), ctx).rebroadcasts == []
  {
  }

  ghost predicate Untidy(m: map<Signature, Transaction>) {
    exists s :: s in m && !TidyInputs(m[s])
  }

  lemma {:induction false} UntidyAfterAdd(
    m: map<Signature, Transaction>, n: map<Signature, Transaction>, tx: Transaction)
    requires n == m || n == m[tx.signature := tx]
    requires Untidy(n)
    ensures Untidy(m) || !TidyInputs(tx)
  {
  }

  lemma {:induction false} EmptyIsSane(index: set<Slip>, key: PublicKey)
    ensures Sane(map[], index) && TotalHeld(map[], key) == 0
  {
  }

  predicate SpendsNothing(ticket: Option<Transaction>) {
    ticket.Some? ==> Positive(ticket.value.inputs) == []
  }

  /** The block is created for this key from all that is held, in some order, and the ticket. */
  ghost predicate Bundles(ctx: Context, m: map<Signature, Transaction>, ticket: Option<Transaction>,
                          previousHash: Hash, timestamp: nat, key: PublicKey, b: Block) {
    exists txs, sigs :: Lists(m, txs, sigs) && Continues(Order(ticket, txs, previousHash, timestamp, key), ctx, b)
  }

  /** Drain the map and create a block from what it held. */
  method BundleHeld(
    rules: Rules, ctx: Context, m: map<Signature, Transaction>, ghost index: set<Slip>, timestamp: nat,
    previousHash: Hash, ticket: Option<Transaction>, key: PublicKey)
    returns (r: Result<Block>)
    requires Sane(m, index) && rules.Valid() && ctx.Drawable()
    requires ticket.Some? ==> ticket.value.kind.GoldenTicket? && ticket.value.data.Ticket?
    ensures r.Ok? ==> BlockWork(r.value) >= TotalHeld(m, key)
    ensures r.Ok? ==> Bundles(ctx, m, ticket, previousHash, timestamp, key, r.value)
    ensures r.Err? && ctx.expiring.None? && SpendsNothing(ticket) ==> Untidy(m)
  {
    var txs, sigs := Drain(m);
    ListedWork(m, txs, sigs, key);
    var o := Order(ticket, txs, previousHash, timestamp, key);
    ListedIsReadable(m, index, txs, sigs, o, ctx);
    if !Untidy(m) && ctx.expiring.None? && SpendsNothing(ticket) {
      ListedSpendOnce(m, index, txs, sigs);
      NoRebroadcastsYet(rules, o, ctx);
      BundleHasNoDoubleSpend(rules, o, ctx);
    }
    BundleCarriesTheWork(rules, o, ctx);
    CreatedBlockContinues(rules, o, ctx);
    r := Create(rules, o, ctx);
  }

  class Mempool {
    var transactions: map<Signature, Transaction>
    var goldenTickets: map<Hash, Transaction>
    var routingWork: Currency
    var newTxAdded: bool
    var utxoMap: set<Slip>
    const publicKey: PublicKey

    /** The running total is the work of what is held, and what is held is free of conflicts. */
    ghost predicate Valid()
      reads this
    {
      routingWork == TotalHeld(transactions, publicKey) && Sane(transactions, utxoMap)
    }

    constructor (key: PublicKey)
      ensures Valid() && transactions == map[] && publicKey == key
    {
      transactions, goldenTickets, routingWork, newTxAdded, utxoMap, publicKey := map[], map[], 0, false, {}, key;
    }

    /** One ticket per target block; a second one is ignored. */
    method AddGoldenTicket(ticket: Transaction)
      requires Valid() && ticket.data.Ticket?
      modifies this`goldenTickets
      ensures Valid()
      ensures goldenTickets == if ticket.data.target in old(goldenTickets) then old(goldenTickets)
                               else old(goldenTickets)[ticket.data.target := ticket]
    {
      if ticket.data.target !in goldenTickets {
        goldenTickets := goldenTickets[ticket.data.target := ticket];
      }
    }

    /** Some input with value is already claimed. */
    static ghost predicate Claimed(tx: Transaction, index: set<Slip>) {
      exists i :: i in tx.inputs && i in index && i.amount > 0
    }

    /** Rejects a transaction that conflicts with the index; the index may be stale, never incomplete. */
    method AddTransaction(tx: Transaction)
      requires Valid() && !tx.kind.GoldenTicket?
      modifies this
      ensures Valid() && goldenTickets == old(goldenTickets) && routingWork >= old(routingWork)
      ensures old(Claimed(tx, utxoMap)) || tx.signature in old(transactions) ==>
        transactions == old(transactions) && utxoMap == old(utxoMap) && newTxAdded == old(newTxAdded)
      ensures !old(Claimed(tx, utxoMap)) && tx.signature !in old(transactions) ==>
        && transactions == old(transactions)[tx.signature := tx]
        && utxoMap == old(utxoMap) + (set i | i in tx.inputs) && newTxAdded
    {
      for k := 0 to |tx.inputs|
        invariant forall j :: 0 <= j < k ==> !(tx.inputs[j] in utxoMap && tx.inputs[j].amount > 0)
        modifies {}
      {
        if tx.inputs[k] in utxoMap && tx.inputs[k].amount > 0 {
          assert Claimed(tx, utxoMap);
          return;
        }
      }
      if tx.signature !in transactions {
        HeldAfterAdd(transactions, tx.signature, tx, publicKey);
        SaneAfterAdd(transactions, utxoMap, tx);
        routingWork := routingWork + Work(tx, publicKey);
        transactions := transactions[tx.signature := tx];
        newTxAdded := true;
        utxoMap := utxoMap + (set i | i in tx.inputs);
      }
    }

    /**
     * Drops what a new block spends or contains: first everything that no longer validates, then the
     * block's own transactions; the running total is recomputed and the index is left stale.
     */
    method DeleteTransactions(txs: seq<Transaction>, keep: set<Signature>)
      requires Sane(transactions, utxoMap)
      requires forall tx | tx in txs :: tx.kind.GoldenTicket? ==> tx.data.Ticket?
      modifies this`transactions, this`goldenTickets, this`routingWork
      ensures Valid()
      ensures forall s :: s in transactions <==>
        s in old(transactions) && s in keep && !exists i :: 0 <= i < |txs| && Settles(txs[i], s)
      ensures forall s | s in transactions :: transactions[s] == old(transactions)[s]
      ensures forall t :: t in goldenTickets <==>
        t in old(goldenTickets) && !exists i :: 0 <= i < |txs| && Solves(txs[i], t)
      ensures forall t | t in goldenTickets :: goldenTickets[t] == old(goldenTickets)[t]
    {
      SaneSubmap(transactions, Remaining(transactions, keep, txs), utxoMap);
      transactions, goldenTickets := RemoveListed(transactions, goldenTickets, keep, txs);
      routingWork := RecomputeWork(transactions, publicKey);
    }

    /** When a block can be bundled on top of this one. */
    ghost predicate Ready(env: Surroundings, previous: Option<Block>, timestamp: nat)
      reads this
    {
      && env.hasBlocks && env.queueEmpty && transactions != map[] && newTxAdded && env.ticketsSuffice
      && (previous.Some? ==>
            var p := previous.value;
            && timestamp >= p.timestamp + env.delay
            && TotalHeld(transactions, publicKey) >= env.workNeeded(p.figures.burnfee, timestamp, p.timestamp))
    }

    method CanBundleBlock(env: Surroundings, previous: Option<Block>, timestamp: nat) returns (work: Option<Currency>)
      requires Valid()
      ensures work.Some? <==> Ready(env, previous, timestamp)
      ensures work.Some? ==> work.value == if previous.Some? then TotalHeld(transactions, publicKey) else 0
    {
      if !env.hasBlocks || !env.queueEmpty || transactions == map[] || !newTxAdded || !env.ticketsSuffice {
        return None;
      }
      if previous.None? {
        return Some(0);
      }
      var p := previous.value;
      if timestamp < p.timestamp + env.delay {
        return None;
      }
      if routingWork < env.workNeeded(p.figures.burnfee, timestamp, p.timestamp) {
        return None;
      }
      return Some(routingWork);
    }

    /** What is held once the staking transaction is added; an invalid or conflicting one is not. */
    ghost function WithStake(tx: Transaction, valid: bool): map<Signature, Transaction>
      reads this
    {
      if !valid || Claimed(tx, utxoMap) || tx.signature in transactions then transactions
      else transactions[tx.signature := tx]
    }

    /**
     * Bundles all held transactions into a block. A bundled block carries the work that `validate` asks
     * for and leaves a valid, empty mempool behind. A rejected one leaves the mempool drained with the old
     * total still on the books; that cannot happen before rebroadcasts set in, when every transaction
     * lists its inputs once and the golden ticket spends nothing.
     */
    method BundleBlock(
      rules: Rules, env: Surroundings, ctx: Context, timestamp: nat, previousHash: Hash,
      ticket: Option<Transaction>, staking: Option<Transaction>, stakingValid: bool)
      returns (r: Bundle)
      requires Valid() && rules.Valid() && ctx.Drawable()
      requires ctx.previous.Some? ==> timestamp > ctx.previous.value.timestamp
      requires ticket.Some? ==> ticket.value.kind.GoldenTicket? && ticket.value.data.Ticket?
      requires staking.Some? ==> !staking.value.kind.GoldenTicket?
      modifies this
      ensures r.NotReady? <==> !old(Ready(env, ctx.previous, timestamp))
      ensures r.NoStake? <==> old(Ready(env, ctx.previous, timestamp)) && staking.None?
      ensures r.NotReady? || r.NoStake? ==> Valid() && transactions == old(transactions)
      ensures r.Bundled? ==> Valid() && transactions == map[] && !newTxAdded
      ensures r.Bundled? ==>
        utxoMap !! InputsOf(r.block.transactions) && utxoMap >= old(utxoMap) - InputsOf(r.block.transactions)
      ensures r.Bundled? ==>
        Bundles(ctx, old(WithStake(staking.value, stakingValid)), ticket, previousHash, timestamp, publicKey, r.block)
      ensures r.Bundled? && ctx.previous.Some? ==>
        var p := ctx.previous.value;
        BlockWork(r.block) >= env.workNeeded(p.figures.burnfee, timestamp, p.timestamp)
      ensures r.Rejected? ==>
        transactions == map[] && routingWork >= old(routingWork) && (Valid() <==> routingWork == 0)
      ensures r.Rejected? && ctx.expiring.None? && SpendsNothing(ticket) ==>
        staking.Some? && (Untidy(old(transactions)) || !TidyInputs(staking.value))
    {
      var work := CanBundleBlock(env, ctx.previous, timestamp);
      if work.None? {
        return NotReady;
      }
      if staking.None? {
        return NoStake;
      }
      ghost var before := transactions;
      if stakingValid {
        AddTransaction(staking.value);
      }
      assert transactions == before || transactions == before[staking.value.signature := staking.value];
      var created := BundleHeld(rules, ctx, transactions, utxoMap, timestamp, previousHash, ticket, publicKey);
      if created.Err? && Untidy(transactions) {
        UntidyAfterAdd(before, transactions, staking.value);
      }
      r := CloseBundle(created);
    }

    /** The map is drained either way; only after a success are total and index brought up to date. */
    method CloseBundle(created: Result<Block>) returns (r: Bundle)
      modifies this
      ensures transactions == map[]
      ensures created.Ok? ==> r == Bundled(created.value) && Valid() && !newTxAdded
      ensures created.Ok? ==> utxoMap == old(utxoMap) - InputsOf(created.value.transactions)
      ensures created.Err? ==> r == Rejected && routingWork == old(routingWork) && (Valid() <==> routingWork == 0)
    {
      transactions := map[];
      if created.Err? {
        EmptyIsSane(utxoMap, publicKey);
        return Rejected;
      }
      newTxAdded, routingWork := false, 0;
      utxoMap := ForgetInputs(utxoMap, created.value.transactions);
      EmptyIsSane(utxoMap, publicKey);
      return Bundled(created.value);
    }
  }

  lemma {:induction false} SaneAfterAdd(m: map<Signature, Transaction>, index: set<Slip>, tx: Transaction)
    requires Sane(m, index) && tx.signature !in m && !tx.kind.GoldenTicket?
    requires forall i | i in tx.inputs :: !(i in index && i.amount > 0)
    ensures Sane(m[tx.signature := tx], index + (set i | i in tx.inputs))
  {
  }
}
