/** Lite blocks: transactions a client does not care for are replaced, and merged, without losing count. */
module LiteBlock {
  import opened Sums
  import opened Types
  import opened Merkle

  // ---------- compression ----------

  /** A transaction with the hash that is stored for it. */
  datatype Item = Item(tx: Transaction, hash: Hash)

  predicate Wanted(tx: Transaction, keys: set<PublicKey>) {
    || tx.kind.GoldenTicket?
    || (exists s :: s in tx.inputs && s.publicKey in keys)
    || (exists s :: s in tx.outputs && s.publicKey in keys)
  }

  function Placeholder(tx: Transaction): Transaction {
    Transaction(TransactionType.SPV, tx.timestamp, [], [], Bytes(0), [], 1, tx.signature)
  }

  function Replaced(txs: seq<Transaction>, keys: set<PublicKey>, hashOf: Transaction -> Hash): (r: seq<Item>)
    ensures |r| == |txs|
    ensures forall i :: 0 <= i < |r| ==>
      r[i] == Item(if Wanted(txs[i], keys) then txs[i] else Placeholder(txs[i]), hashOf(txs[i]))
  {
    seq(|txs|, i requires 0 <= i < |txs| =>
      Item(if Wanted(txs[i], keys) then txs[i] else Placeholder(txs[i]), hashOf(txs[i])))
  }

  predicate Mergeable(a: Item, b: Item) {
    a.tx.kind.SPV? && b.tx.kind.SPV? && a.tx.replacements == b.tx.replacements
  }

  function Merged(h: Combiner, a: Item, b: Item): Item {
    Item(a.tx.(replacements := a.tx.replacements * 2), h(a.hash, b.hash))
  }

  /** The merge loop from its current position on: merge and stay, or move on by two. */
  function Merge(h: Combiner, items: seq<Item>): seq<Item>
    decreases |items|
  {
    if |items| < 2 then items
    else if Mergeable(items[0], items[1]) then Merge(h, [Merged(h, items[0], items[1])] + items[2..])
    else items[..2] + Merge(h, items[2..])
  }

  lemma {:induction false} MergeStep(h: Combiner, items: seq<Item>, i: nat)
    requires i + 1 < |items|
    ensures items[..i] + Merge(h, items[i..]) ==
      if Mergeable(items[i], items[i + 1])
      then items[..i] + Merge(h, [Merged(h, items[i], items[i + 1])] + items[i + 2..])
      else items[..i + 2] + Merge(h, items[i + 2..])
  {
    var rest := items[i..];
    assert rest[2..] == items[i + 2..] && items[..i + 2] == items[..i] + rest[..2];
  }

  method MergeNeighbours(h: Combiner, input: seq<Item>) returns (items: seq<Item>)
    ensures items == Merge(h, input)
  {
    items := input;
    var i := 0;
    while i + 1 < |items|
      invariant i <= |items|
      invariant items[..i] + Merge(h, items[i..]) == Merge(h, input)
      decreases 2 * |items| - i
    {
      MergeStep(h, items, i);
      if Mergeable(items[i], items[i + 1]) {
        var merged := Merged(h, items[i], items[i + 1]);
        ghost var (prefix, rest) := (items[..i], items[i + 2..]);
        items := items[..i] + [merged] + items[i + 2..];
        assert items[..i] == prefix && items[i..] == [merged] + rest;
      } else {
        i := i + 2;
      }
    }
    if i < |items| { assert |items[i..]| == 1; }
  }

  // ---------- ordinals ----------

  /** How many transactions of the full block an entry stands for. */
  function Stands(x: Item): nat {
    Spans(x.tx)
  }

  /** Each entry's ordinal counts, from `start`, what the entries before it stand for. */
  ghost predicate AreOrdinals(items: seq<Item>, ordinals: seq<nat>, start: nat) {
    |ordinals| == |items| && forall i :: 0 <= i < |items| ==> ordinals[i] == start + Along(items[..i], Stands)
  }

  /** Block::generate: the ordinal grows by the replacements of a placeholder and by one otherwise. */
  method AssignOrdinals(items: seq<Item>) returns (ordinals: seq<nat>)
    ensures AreOrdinals(items, ordinals, 0)
  {
    ordinals := [];
    var index := 0;
    for i := 0 to |items|
      invariant |ordinals| == i && index == Along(items[..i], Stands)
      invariant forall k :: 0 <= k < i ==> ordinals[k] == Along(items[..k], Stands)
    {
      ordinals := ordinals + [index];
      assert items[..i + 1] == items[..i] + [items[i]];
      AlongAppend(items[..i], items[i], Stands);
      if items[i].tx.kind.SPV? {
        index := index + items[i].tx.replacements;
      } else {
        index := index + 1;
      }
    }
  }

  /** The kept transactions with the ordinals they get, counting from `start`. */
  function Placed(items: seq<Item>, start: nat): seq<(nat, Item)> {
    if items == [] then []
    else (if items[0].tx.kind.SPV? then [] else [(start, items[0])]) + Placed(items[1..], start + Stands(items[0]))
  }

  /** The transactions that were kept, each with the ordinal it was assigned. */
  function KeptWith(items: seq<Item>, ordinals: seq<nat>): seq<(nat, Item)>
    requires |ordinals| == |items|
  {
    if items == [] then []
    else (if items[0].tx.kind.SPV? then [] else [(ordinals[0], items[0])]) + KeptWith(items[1..], ordinals[1..])
  }

  /** The loop of `generate` puts the kept transactions where `Placed` says. */
  lemma {:induction false} OrdinalsPlace(items: seq<Item>, ordinals: seq<nat>, start: nat)
    requires AreOrdinals(items, ordinals, start)
    ensures KeptWith(items, ordinals) == Placed(items, start)
  {
    if items != [] {
      assert ordinals[0] == start by { assert items[..0] == []; }
      forall i | 0 <= i < |items[1..]|
        ensures ordinals[1..][i] == start + Stands(items[0]) + Along(items[1..][..i], Stands)
      {
        assert ordinals[1..][i] == ordinals[i + 1];
        assert items[..i + 1][1..] == items[1..][..i];
      }
      OrdinalsPlace(items[1..], ordinals[1..], start + Stands(items[0]));
    }
  }

  lemma {:induction false} PlacedAfter(x: Item, rest: seq<Item>, start: nat)
    ensures Placed([x] + rest, start) ==
      (if x.tx.kind.SPV? then [] else [(start, x)]) + Placed(rest, start + Stands(x))
    ensures Along([x] + rest, Stands) == Stands(x) + Along(rest, Stands)
  {
    assert ([x] + rest)[1..] == rest;
  }

  lemma {:induction false} PlacedPair(x: Item, y: Item, rest: seq<Item>, start: nat)
    ensures var next := start + Stands(x);
      var (a, b) := (if x.tx.kind.SPV? then [] else [(start, x)], if y.tx.kind.SPV? then [] else [(next, y)]);
      Placed([x] + ([y] + rest), start) == (a + b) + Placed(rest, next + Stands(y))
    ensures Along([x] + ([y] + rest), Stands) == Stands(x) + Stands(y) + Along(rest, Stands)
  {
    var next := start + Stands(x);
    PlacedAfter(x, [y] + rest, start);
    PlacedAfter(y, rest, next);
    Associative(if x.tx.kind.SPV? then [] else [(start, x)], if y.tx.kind.SPV? then [] else [(next, y)],
      Placed(rest, next + Stands(y)));
  }

  lemma {:induction false} PlacedTwo(items: seq<Item>, start: nat)
    requires |items| >= 2
    ensures Placed(items, start) ==
      Placed(items[..2], start) + Placed(items[2..], start + Stands(items[0]) + Stands(items[1]))
    ensures Along(items, Stands) == Stands(items[0]) + Stands(items[1]) + Along(items[2..], Stands)
  {
    var (x, y, rest) := (items[0], items[1], items[2..]);
    assert items == [x] + ([y] + rest) && items[..2] == [x] + ([y] + []);
    PlacedPair(x, y, rest, start);
    PlacedPair(x, y, [], start);
    assert Placed([], start + Stands(x) + Stands(y)) == [];
  }

  /** Merging keeps every kept transaction, its order and its ordinal, and the total they stand for. */
  lemma {:induction false} MergeKeepsPlaces(h: Combiner, items: seq<Item>, start: nat)
    ensures Placed(Merge(h, items), start) == Placed(items, start)
    ensures Along(Merge(h, items), Stands) == Along(items, Stands)
    decreases |items|
  {
    if |items| >= 2 {
      PlacedTwo(items, start);
      var next := start + Stands(items[0]) + Stands(items[1]);
      if Mergeable(items[0], items[1]) {
        var merged := Merged(h, items[0], items[1]);
        var shorter := [merged] + items[2..];
        assert shorter[1..] == items[2..];
        MergeKeepsPlaces(h, shorter, start);
        assert items[..2][1..] == [items[1]] && [items[1]][1..] == [];
        assert Placed(items[..2], start) == [];
      } else {
        var rest := Merge(h, items[2..]);
        MergeKeepsPlaces(h, items[2..], next);
        assert (items[..2] + rest)[2..] == rest && (items[..2] + rest)[..2] == items[..2];
        PlacedTwo(items[..2] + rest, start);
      }
    }
  }

  /** Merged entries stand for one or two transactions, never more: a merged entry is never merged again. */
  lemma {:induction false} MergeCounts(h: Combiner, items: seq<Item>)
    requires forall i :: 1 <= i < |items| && items[i].tx.kind.SPV? ==> items[i].tx.replacements == 1
    requires items != [] && items[0].tx.kind.SPV? ==> items[0].tx.replacements in {1, 2}
    ensures forall x | x in Merge(h, items) :: x.tx.kind.SPV? ==> x.tx.replacements in {1, 2}
    decreases |items|
  {
    if |items| >= 2 {
      if Mergeable(items[0], items[1]) {
        var shorter := [Merged(h, items[0], items[1])] + items[2..];
        assert items[0].tx.replacements == 1;
        MergeCounts(h, shorter);
      } else {
        MergeCounts(h, items[2..]);
        assert forall x | x in items[..2] :: x == items[0] || x == items[1];
      }
    }
  }

  /** The wanted transactions of a full block, each with its position. */
  function WantedAt(
    txs: seq<Transaction>, keys: set<PublicKey>, hashOf: Transaction -> Hash, start: nat): seq<(nat, Item)> {
    if txs == [] then []
    else (if Wanted(txs[0], keys) then [(start, Item(txs[0], hashOf(txs[0])))] else [])
         + WantedAt(txs[1..], keys, hashOf, start + 1)
  }

  lemma {:induction false} ReplacedPlaces(
    txs: seq<Transaction>, keys: set<PublicKey>, hashOf: Transaction -> Hash, start: nat)
    requires forall tx | tx in txs :: !tx.kind.SPV?
    ensures Placed(Replaced(txs, keys, hashOf), start) == WantedAt(txs, keys, hashOf, start)
    ensures Along(Replaced(txs, keys, hashOf), Stands) == |txs|
  {
    if txs != [] {
      assert txs[0] in txs;
      ReplacedPlaces(txs[1..], keys, hashOf, start + 1);
      assert Replaced(txs, keys, hashOf)[1..] == Replaced(txs[1..], keys, hashOf);
    }
  }

  /**
   * How far the merge loop gets: a merged pair never merges with what follows, so the loop passes over that
   * entry unseen and tries again behind it.
   */
  lemma {:induction false} MergeSkipsOne(h: Combiner, items: seq<Item>)
    requires forall i :: 0 <= i < |items| ==> Stands(items[i]) == 1
    requires |items| >= 2 && items[0].tx.kind.SPV? && items[1].tx.kind.SPV?
    ensures var merged := Merged(h, items[0], items[1]);
      Merge(h, items) == if |items| == 2 then [merged] else [merged, items[2]] + Merge(h, items[3..])
  {
    var merged := Merged(h, items[0], items[1]);
    var shorter := [merged] + items[2..];
    if |items| > 2 {
      assert Stands(items[2]) == 1 && shorter[0] == merged && shorter[1] == items[2];
      assert !Mergeable(shorter[0], shorter[1]);
      assert shorter[..2] == [merged, items[2]] && shorter[2..] == items[3..];
    } else {
      assert shorter == [merged];
    }
  }

  /** Of placeholders in a row only every third neighbourhood is merged: two thirds of the entries remain. */
  lemma {:induction false} MergeLeavesTwoThirds(h: Combiner, items: seq<Item>)
    requires forall i :: 0 <= i < |items| ==> items[i].tx.kind.SPV? && Stands(items[i]) == 1
    ensures |Merge(h, items)| == |items| - (|items| + 1) / 3
    decreases |items|
  {
    if |items| >= 2 {
      MergeSkipsOne(h, items);
      if |items| > 2 { MergeLeavesTwoThirds(h, items[3..]); }
    }
  }

  /** All keys that a transaction takes from or pays to. */
  function Parties(tx: Transaction): set<PublicKey> {
    set s | s in tx.inputs + tx.outputs :: s.publicKey
  }

  lemma {:induction false} WantedIff(tx: Transaction, keys: set<PublicKey>)
    ensures Wanted(tx, keys) <==> tx.kind.GoldenTicket? || Parties(tx) * keys != {}
  {
    if Wanted(tx, keys) && !tx.kind.GoldenTicket? {
      var s :| s in tx.inputs + tx.outputs && s.publicKey in keys;
      assert s.publicKey in Parties(tx) * keys;
    }
    if Parties(tx) * keys != {} {
      var key :| key in Parties(tx) * keys;
      var s :| s in tx.inputs + tx.outputs && s.publicKey == key;
      assert s in tx.inputs || s in tx.outputs;
    }
  }

  lemma {:induction false} WantedFront(
    txs: seq<Transaction>, keys: set<PublicKey>, hashOf: Transaction -> Hash, start: nat, e: (nat, Item))
    requires txs != []
    ensures e in WantedAt(txs, keys, hashOf, start) <==>
      || (Wanted(txs[0], keys) && e == (start, Item(txs[0], hashOf(txs[0]))))
      || e in WantedAt(txs[1..], keys, hashOf, start + 1)
  {
  }

  lemma {:induction false} ItemBehind(
    txs: seq<Transaction>, rest: seq<Transaction>, hashOf: Transaction -> Hash, k: nat)
    requires 0 < k < |txs| && rest == txs[1..]
    ensures Item(rest[k - 1], hashOf(rest[k - 1])) == Item(txs[k], hashOf(txs[k]))
  {
  }

  /** The kept transactions are those with a party among the keys, and the golden tickets. */
  lemma {:induction false} WantedAtIff(
    txs: seq<Transaction>, keys: set<PublicKey>, hashOf: Transaction -> Hash, start: nat, ordinal: nat, x: Item)
    ensures (ordinal, x) in WantedAt(txs, keys, hashOf, start) <==>
      && start <= ordinal < start + |txs| && x == Item(txs[ordinal - start], hashOf(txs[ordinal - start]))
      && (x.tx.kind.GoldenTicket? || Parties(x.tx) * keys != {})
  {
    if txs != [] {
      WantedIff(txs[0], keys);
      WantedAtIff(txs[1..], keys, hashOf, start + 1, ordinal, x);
      WantedFront(txs, keys, hashOf, start, (ordinal, x));
      if start < ordinal < start + |txs| { ItemBehind(txs, txs[1..], hashOf, ordinal - start); }
    }
  }

  // ---------- what the entries commit to ----------

  /** The entry has the hash of the one transaction that it stands for, or of both of them combined. */
  predicate Commits(h: Combiner, x: Item, txs: seq<Transaction>, hashOf: Transaction -> Hash, at: nat) {
    && at + Stands(x) <= |txs| && 1 <= Stands(x) <= 2
    && x.hash == if Stands(x) == 1 then hashOf(txs[at]) else h(hashOf(txs[at]), hashOf(txs[at + 1]))
  }

  ghost predicate AllCommit(
    h: Combiner, items: seq<Item>, txs: seq<Transaction>, hashOf: Transaction -> Hash, at: nat) {
    items == [] || (Commits(h, items[0], txs, hashOf, at)
                    && AllCommit(h, items[1..], txs, hashOf, at + Stands(items[0])))
  }

  lemma {:induction false} ReplacedCommit(
    h: Combiner, txs: seq<Transaction>, keys: set<PublicKey>, hashOf: Transaction -> Hash, at: nat)
    requires at <= |txs| && forall tx | tx in txs :: !tx.kind.SPV?
    ensures AllCommit(h, Replaced(txs[at..], keys, hashOf), txs, hashOf, at)
    decreases |txs| - at
  {
    if at < |txs| {
      var items := Replaced(txs[at..], keys, hashOf);
      assert txs[at] in txs && txs[at..][0] == txs[at] && Stands(items[0]) == 1;
      assert items[1..] == Replaced(txs[at + 1..], keys, hashOf);
      ReplacedCommit(h, txs, keys, hashOf, at + 1);
    }
  }

  /** Merging two single entries combines their hashes in order. */
  lemma {:induction false} MergeCommits(
    h: Combiner, items: seq<Item>, txs: seq<Transaction>, hashOf: Transaction -> Hash, at: nat)
    requires forall i :: 1 <= i < |items| ==> Stands(items[i]) == 1
    requires AllCommit(h, items, txs, hashOf, at)
    ensures AllCommit(h, Merge(h, items), txs, hashOf, at)
    decreases |items|
  {
    if |items| >= 2 {
      var (x, y, rest) := (items[0], items[1], items[2..]);
      assert items[1..][0] == y && items[1..][1..] == rest;
      if Mergeable(x, y) {
        var merged := Merged(h, x, y);
        var shorter := [merged] + rest;
        assert shorter[1..] == rest && Stands(merged) == 2;
        MergeCommits(h, shorter, txs, hashOf, at);
      } else {
        var next := at + Stands(x) + Stands(y);
        MergeCommits(h, rest, txs, hashOf, next);
        var all := items[..2] + Merge(h, rest);
        assert all[0] == x && all[1..][0] == y && all[1..][1..] == Merge(h, rest);
      }
    }
  }

  lemma {:induction false} CommitsAt(
    h: Combiner, items: seq<Item>, txs: seq<Transaction>, hashOf: Transaction -> Hash, at: nat, i: nat)
    requires AllCommit(h, items, txs, hashOf, at) && i < |items|
    ensures Commits(h, items[i], txs, hashOf, at + Along(items[..i], Stands))
    decreases i
  {
    if i > 0 {
      CommitsAt(h, items[1..], txs, hashOf, at + Stands(items[0]), i - 1);
      assert items[..i][1..] == items[1..][..i - 1];
    } else {
      assert items[..0] == [];
    }
  }

  /** Every entry of the lite block commits to the transactions of the full block that it stands for. */
  lemma {:induction false} EntriesCommit(
    h: Combiner, txs: seq<Transaction>, keys: set<PublicKey>, hashOf: Transaction -> Hash, ordinals: seq<nat>, i: nat)
    requires forall tx | tx in txs :: !tx.kind.SPV?
    requires AreOrdinals(Merge(h, Replaced(txs, keys, hashOf)), ordinals, 0) && i < |ordinals|
    ensures Commits(h, Merge(h, Replaced(txs, keys, hashOf))[i], txs, hashOf, ordinals[i])
  {
    var items := Replaced(txs, keys, hashOf);
    assert txs[0..] == txs;
    ReplacedCommit(h, txs, keys, hashOf, 0);
    forall k | 0 <= k < |items| ensures Stands(items[k]) == 1 { assert txs[k] in txs; }
    MergeCommits(h, items, txs, hashOf, 0);
    CommitsAt(h, Merge(h, items), txs, hashOf, 0, i);
  }

  /**
   * Lite-block compression. For every full block and key list the wanted transactions come through
   * unchanged and in order, and `generate` gives each of them its position in the full block as ordinal;
   * the entries together stand for all transactions; and no placeholder stands for more than two of them.
   */
  lemma {:induction false} CompressionIsFaithful(
    h: Combiner, txs: seq<Transaction>, keys: set<PublicKey>, hashOf: Transaction -> Hash, ordinals: seq<nat>)
    requires forall tx | tx in txs :: !tx.kind.SPV?
    requires AreOrdinals(Merge(h, Replaced(txs, keys, hashOf)), ordinals, 0)
    ensures var lite := Merge(h, Replaced(txs, keys, hashOf));
      && KeptWith(lite, ordinals) == WantedAt(txs, keys, hashOf, 0)
      && Along(lite, Stands) == |txs|
      && forall x | x in lite :: x.tx.kind.SPV? ==> x.tx.replacements in {1, 2}
  {
    var items := Replaced(txs, keys, hashOf);
    ReplacedPlaces(txs, keys, hashOf, 0);
    MergeKeepsPlaces(h, items, 0);
    OrdinalsPlace(Merge(h, items), ordinals, 0);
    forall i | 0 <= i < |items| && items[i].tx.kind.SPV? ensures items[i].tx.replacements == 1 {
      assert txs[i] in txs;
    }
    MergeCounts(h, items);
  }

  // ---------- the block hash ----------

  /** serialize_for_signature: the seventeen header fields that are hashed and signed. */
  datatype Header = Header(
    id: nat, timestamp: nat, previousHash: Hash, creator: PublicKey, merkleRoot: Hash,
    graveyard: Currency, treasury: Currency, burnfee: Currency, difficulty: nat,
    avgFeePerByte: Currency, avgNolanRebroadcast: Currency, previousUnpaid: Currency,
    avgTotalFees: Currency, avgTotalFeesNew: Currency, avgTotalFeesAtr: Currency,
    avgPayoutRouting: Currency, avgPayoutMining: Currency)

  function HeaderOf(b: Block): Header {
    Header(
      b.id, b.timestamp, b.previousHash, b.creator, b.merkleRoot, b.graveyard, b.treasury,
      b.figures.burnfee, b.figures.difficulty, b.figures.avgFeePerByte, b.figures.avgNolanRebroadcast,
      b.previousUnpaid, b.figures.avgTotalFees, b.figures.avgTotalFeesNew, b.figures.avgTotalFeesAtr,
      b.figures.avgPayoutRouting, b.figures.avgPayoutMining)
  }

  datatype Hashing = Hashing(combine: Combiner, header: Header -> Hash, transaction: Transaction -> Hash)

  function PreHash(hs: Hashing, b: Block): Hash {
    hs.header(HeaderOf(b))
  }

  /** serialize_for_hash: the parent's hash followed by the pre-hash. */
  function BlockHash(hs: Hashing, b: Block): Hash {
    hs.combine(b.previousHash, PreHash(hs, b))
  }

  ghost predicate HeaderCollision(hs: Hashing) {
    exists x, y :: x != y && hs.header(x) == hs.header(y)
  }

  /** The two blocks agree in everything that is hashed: all but some figures and the transactions themselves. */
  predicate SameHeaders(a: Block, b: Block) {
    && a.id == b.id && a.timestamp == b.timestamp && a.previousHash == b.previousHash && a.creator == b.creator
    && a.merkleRoot == b.merkleRoot && a.treasury == b.treasury && a.graveyard == b.graveyard
    && a.previousUnpaid == b.previousUnpaid
    && a.figures.burnfee == b.figures.burnfee && a.figures.difficulty == b.figures.difficulty
    && a.figures.avgFeePerByte == b.figures.avgFeePerByte
    && a.figures.avgNolanRebroadcast == b.figures.avgNolanRebroadcast
    && a.figures.avgTotalFees == b.figures.avgTotalFees && a.figures.avgTotalFeesNew == b.figures.avgTotalFeesNew
    && a.figures.avgTotalFeesAtr == b.figures.avgTotalFeesAtr
    && a.figures.avgPayoutRouting == b.figures.avgPayoutRouting
    && a.figures.avgPayoutMining == b.figures.avgPayoutMining
  }

  /** The block hash commits to the header: equal hashes mean equal headers, or one of the hashes has a collision. */
  lemma {:induction false} HashBindsHeader(hs: Hashing, a: Block, b: Block)
    ensures SameHeaders(a, b) ==> BlockHash(hs, a) == BlockHash(hs, b)
    ensures BlockHash(hs, a) == BlockHash(hs, b) ==>
      SameHeaders(a, b) || HasCollision(hs.combine) || HeaderCollision(hs)
  {
    if BlockHash(hs, a) == BlockHash(hs, b) && !HasCollision(hs.combine) {
      if a.previousHash != b.previousHash || PreHash(hs, a) != PreHash(hs, b) {
        assert Collides(hs.combine, a.previousHash, PreHash(hs, a), b.previousHash, PreHash(hs, b));
      }
      assert HeaderOf(a) != HeaderOf(b) ==> HeaderCollision(hs);
    }
  }

  /** generate_merkle_root(true, true): without transactions the stored root stands. */
  function MerkleRoot(hs: Hashing, b: Block): Hash {
    if b.transactions == [] then b.merkleRoot else
      TxLeavesShape(b.transactions, hs.transaction, 0);
      RootOf(hs.combine, HashesOf(TxLeaves(b.transactions, hs.transaction, 0)))
  }

  /** The transactions of the lite block; its header is copied field by field, its root recomputed. */
  function LiteTransactions(items: seq<Item>): (r: seq<Transaction>)
    ensures |r| == |items| && forall i :: 0 <= i < |r| ==> r[i] == items[i].tx
  {
    seq(|items|, i requires 0 <= i < |items| => items[i].tx)
  }

  method GenerateLiteBlock(hs: Hashing, b: Block, keys: set<PublicKey>) returns (lite: Block, items: seq<Item>)
    ensures items == Merge(hs.combine, Replaced(b.transactions, keys, hs.transaction))
    ensures lite == b.(transactions := LiteTransactions(items), merkleRoot := MerkleRoot(hs, b))
    ensures b.merkleRoot == MerkleRoot(hs, b) ==>
      PreHash(hs, lite) == PreHash(hs, b) && BlockHash(hs, lite) == BlockHash(hs, b)
    ensures HeaderOf(lite) == HeaderOf(b) <==> b.merkleRoot == MerkleRoot(hs, b)
  {
    items := MergeNeighbours(hs.combine, Replaced(b.transactions, keys, hs.transaction));
    var root := b.merkleRoot;
    if b.transactions != [] {
      var tree := Generate(hs.combine, b.transactions, hs.transaction);
      root := tree.value.hash;
    }
    lite := Block(
      b.id, b.timestamp, b.previousHash, b.creator, root, b.treasury, b.graveyard, b.previousUnpaid,
      b.figures, LiteTransactions(items));
  }

  /**
   * A light client that receives the lite block and runs `generate` on it: every transaction it wanted
   * has the ordinal of the full block, and the block has the hash of the full block.
   */
  method ReceiveLiteBlock(hs: Hashing, b: Block, keys: set<PublicKey>)
    returns (lite: Block, items: seq<Item>, ordinals: seq<nat>)
    requires (forall tx | tx in b.transactions :: !tx.kind.SPV?) && b.merkleRoot == MerkleRoot(hs, b)
    ensures |ordinals| == |items| && lite.transactions == LiteTransactions(items)
    ensures KeptWith(items, ordinals) == WantedAt(b.transactions, keys, hs.transaction, 0)
    ensures forall i :: 0 <= i < |items| ==> Commits(hs.combine, items[i], b.transactions, hs.transaction, ordinals[i])
    ensures BlockHash(hs, lite) == BlockHash(hs, b)
  {
    lite, items := GenerateLiteBlock(hs, b, keys);
    ordinals := AssignOrdinals(items);
    CompressionIsFaithful(hs.combine, b.transactions, keys, hs.transaction, ordinals);
    forall i | 0 <= i < |items|
      ensures Commits(hs.combine, items[i], b.transactions, hs.transaction, ordinals[i])
    {
      EntriesCommit(hs.combine, b.transactions, keys, hs.transaction, ordinals, i);
    }
  }
}
