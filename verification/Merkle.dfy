/** The Merkle tree over a block's transactions: built level by level, pruned node by node. */
module Merkle {
  import opened Sums
  import opened Types

  /** The hash of the concatenation of two hashes. Nothing is assumed about it. */
  type Combiner = (Hash, Hash) -> Hash

  datatype Node =
    | Leaf(index: nat, hash: Hash, spv: bool)
    | Inner(left: Option<Node>, right: Option<Node>, hash: Hash, count: nat)

  function Count(n: Node): nat {
    match n case Leaf(_, _, _) => 1 case Inner(_, _, _, c) => c
  }

  /** Two different pairs of hashes with the same combined hash. */
  ghost predicate Collides(h: Combiner, a: Hash, b: Hash, c: Hash, d: Hash) {
    (a != c || b != d) && h(a, b) == h(c, d)
  }

  ghost predicate HasCollision(h: Combiner) {
    exists a, b, c, d :: Collides(h, a, b, c, d)
  }

  // ---------- the root as a recursion from the top ----------

  /** The largest power of two below `n`. */
  function Split(n: nat): (k: nat)
    requires n >= 2
    ensures 0 < k < n <= 2 * k
  {
    if n == 2 then 1 else 2 * Split((n + 1) / 2)
  }

  /** The root of the left `Split` hashes combined with the root of the rest. */
  function RootOf(h: Combiner, hs: seq<Hash>): Hash
    decreases |hs|
  {
    if |hs| == 0 then 0 else if |hs| == 1 then hs[0] else
      var k := Split(|hs|);
      h(RootOf(h, hs[..k]), RootOf(h, hs[k..]))
  }

  /** One level up: neighbours are combined, an odd last one is promoted unchanged. */
  function LevelUp(h: Combiner, hs: seq<Hash>): (r: seq<Hash>)
    ensures |r| == (|hs| + 1) / 2
  {
    if |hs| == 0 then [] else if |hs| == 1 then hs else [h(hs[0], hs[1])] + LevelUp(h, hs[2..])
  }

  lemma {:induction false} LevelUpConcat(h: Combiner, a: seq<Hash>, b: seq<Hash>)
    requires |a| % 2 == 0
    ensures LevelUp(h, a + b) == LevelUp(h, a) + LevelUp(h, b)
    decreases |a|
  {
    if a == [] {
      assert a + b == b;
    } else {
      assert (a + b)[2..] == a[2..] + b;
      LevelUpConcat(h, a[2..], b);
    }
  }

  lemma {:induction false} RootOfConcat(h: Combiner, a: seq<Hash>, b: seq<Hash>)
    requires |a| + |b| >= 2 && |a| == Split(|a| + |b|)
    ensures RootOf(h, a + b) == h(RootOf(h, a), RootOf(h, b))
  {
    assert (a + b)[..|a|] == a && (a + b)[|a|..] == b;
  }

  lemma {:induction false} SplitDoubles(n: nat, half: nat)
    requires n > 2 && half == (n + 1) / 2
    ensures half >= 2 && Split(n) == 2 * Split(half)
  {
  }

  /** Splitting commutes with going up: both parts of a split shrink to half. */
  lemma {:induction false} SplitHalves(m: nat, n: nat, p: nat, q: nat)
    requires m + n > 2 && m == Split(m + n) && p == (m + 1) / 2 && q == (n + 1) / 2
    ensures m % 2 == 0 && p + q >= 2 && p == Split(p + q)
  {
    var half := (m + n + 1) / 2;
    SplitDoubles(m + n, half);
    Halves(m, n, p, q, half, Split(half));
  }

  lemma {:induction false} Halves(m: nat, n: nat, p: nat, q: nat, half: nat, k: nat)
    requires m == 2 * k && p == (m + 1) / 2 && q == (n + 1) / 2 && half == (m + n + 1) / 2
    ensures p == k && p + q == half
  {
  }

  /** Two lists, each split in its own place, with the same roots on both sides. */
  lemma {:induction false} SameRoots(
    h: Combiner, ab: seq<Hash>, a: seq<Hash>, b: seq<Hash>, cd: seq<Hash>, c: seq<Hash>, d: seq<Hash>)
    requires ab == a + b && |ab| >= 2 && |a| == Split(|ab|)
    requires cd == c + d && |cd| >= 2 && |c| == Split(|cd|)
    requires RootOf(h, a) == RootOf(h, c) && RootOf(h, b) == RootOf(h, d)
    ensures RootOf(h, ab) == RootOf(h, cd)
  {
    RootOfConcat(h, a, b);
    RootOfConcat(h, c, d);
  }

  lemma {:induction false} LevelSplit(h: Combiner, a: seq<Hash>, b: seq<Hash>)
    requires |a| + |b| > 2 && |a| == Split(|a| + |b|)
    ensures LevelUp(h, a + b) == LevelUp(h, a) + LevelUp(h, b)
    ensures |LevelUp(h, a)| + |LevelUp(h, b)| >= 2
    ensures |LevelUp(h, a)| == Split(|LevelUp(h, a)| + |LevelUp(h, b)|)
  {
    SplitHalves(|a|, |b|, |LevelUp(h, a)|, |LevelUp(h, b)|);
    LevelUpConcat(h, a, b);
  }

  /** Going up one level from the bottom does not change the root seen from the top. */
  lemma {:induction false} LevelUpKeepsRoot(h: Combiner, hs: seq<Hash>)
    ensures RootOf(h, LevelUp(h, hs)) == RootOf(h, hs)
    decreases |hs|
  {
    if |hs| == 2 {
      LevelUpOfTwo(h, hs);
    } else if |hs| > 2 {
      var k := Split(|hs|);
      var (a, b) := (hs[..k], hs[k..]);
      assert hs == a + b;
      LevelUpKeepsRoot(h, a);
      LevelUpKeepsRoot(h, b);
      LevelSplit(h, a, b);
      SameRoots(h, LevelUp(h, hs), LevelUp(h, a), LevelUp(h, b), hs, a, b);
    }
  }

  lemma {:induction false} LevelUpOfTwo(h: Combiner, hs: seq<Hash>)
    requires |hs| == 2
    ensures RootOf(h, LevelUp(h, hs)) == RootOf(h, hs)
  {
    assert LevelUp(h, hs) == [h(hs[0], hs[1])];
    assert hs == [hs[0]] + [hs[1]];
    RootOfConcat(h, [hs[0]], [hs[1]]);
  }

  /** Equal roots over equally many leaves: the leaves are equal, or the hash has a collision. */
  lemma {:induction false} RootBindsLeaves(h: Combiner, xs: seq<Hash>, ys: seq<Hash>)
    requires |xs| == |ys| && RootOf(h, xs) == RootOf(h, ys)
    ensures xs == ys || HasCollision(h)
    decreases |xs|
  {
    if |xs| > 1 {
      var k := Split(|xs|);
      var (a, b, c, d) := (RootOf(h, xs[..k]), RootOf(h, xs[k..]), RootOf(h, ys[..k]), RootOf(h, ys[k..]));
      if a == c && b == d {
        RootBindsLeaves(h, xs[..k], ys[..k]);
        RootBindsLeaves(h, xs[k..], ys[k..]);
        assert xs == xs[..k] + xs[k..] && ys == ys[..k] + ys[k..];
      } else {
        assert Collides(h, a, b, c, d);
      }
    }
  }

  // ---------- trees ----------

  function HashesOf(nodes: seq<Node>): (r: seq<Hash>)
    ensures |r| == |nodes| && forall i :: 0 <= i < |r| ==> r[i] == nodes[i].hash
  {
    seq(|nodes|, i requires 0 <= i < |nodes| => nodes[i].hash)
  }

  /** The leaves under a node, from left to right. */
  function LeavesOf(n: Node): seq<Node> {
    match n
    case Leaf(_, _, _) => [n]
    case Inner(l, r, _, _) => LeavesUnder(l) + LeavesUnder(r)
  }

  function LeavesUnder(n: Option<Node>): seq<Node> {
    match n case None => [] case Some(x) => LeavesOf(x)
  }

  function LeavesOfAll(nodes: seq<Node>): seq<Node> {
    if nodes == [] then [] else LeavesOf(nodes[0]) + LeavesOfAll(nodes[1..])
  }

  function Size(n: Node): nat {
    match n
    case Leaf(_, _, _) => 1
    case Inner(l, r, _, _) =>
      1 + (match l case None => 0 case Some(x) => Size(x)) + match r case None => 0 case Some(x) => Size(x)
  }

  /** Every count is the number of nodes, and every hash follows from the children or stands for a stub. */
  predicate WellFormed(h: Combiner, n: Node) {
    match n
    case Leaf(_, _, _) => true
    case Inner(l, r, hash, count) =>
      && count == Size(n)
      && match (l, r) {
           case (None, None) => true
           case (None, Some(_)) => false
           case (Some(x), None) => hash == x.hash && WellFormed(h, x)
           case (Some(x), Some(y)) => hash == h(x.hash, y.hash) && WellFormed(h, x) && WellFormed(h, y)
         }
  }

  /** generate_hash and calculate_child_count for a pair, or for an odd node that is promoted. */
  function Parent(h: Combiner, l: Node, r: Option<Node>): Node {
    match r
    case None => Inner(Some(l), None, l.hash, 1 + Count(l))
    case Some(y) => Inner(Some(l), r, h(l.hash, y.hash), 1 + Count(l) + Count(y))
  }

  lemma {:induction false} ParentIsWellFormed(h: Combiner, l: Node, r: Option<Node>)
    requires WellFormed(h, l) && (r.Some? ==> WellFormed(h, r.value))
    ensures WellFormed(h, Parent(h, l, r)) && LeavesOf(Parent(h, l, r)) == LeavesOf(l) + LeavesUnder(r)
  {
    CountIsSize(h, l);
    if r.Some? { CountIsSize(h, r.value); }
  }

  lemma {:induction false} CountIsSize(h: Combiner, n: Node)
    requires WellFormed(h, n)
    ensures Count(n) == Size(n)
  {
  }

  lemma {:induction false} LeavesOfAllConcat(a: seq<Node>, b: seq<Node>)
    ensures LeavesOfAll(a + b) == LeavesOfAll(a) + LeavesOfAll(b)
  {
    if a == [] {
      assert a + b == b;
    } else {
      assert (a + b)[1..] == a[1..] + b;
      LeavesOfAllConcat(a[1..], b);
    }
  }

  lemma {:induction false} LeavesOfAppend(a: seq<Node>, n: Node)
    ensures LeavesOfAll(a + [n]) == LeavesOfAll(a) + LeavesOf(n)
  {
    LeavesOfAllConcat(a, [n]);
    assert [n][1..] == [];
    assert LeavesOfAll([n]) == LeavesOf(n);
  }

  // ---------- generate ----------

  function Copies(n: Node, times: nat): (r: seq<Node>)
    ensures |r| == times && forall i :: 0 <= i < |r| ==> r[i] == n
  {
    seq(times, _ => n)
  }

  /** The leaves of a transaction list; a merged SPV entry stands for several. */
  function TxLeaves(txs: seq<Transaction>, hashOf: Transaction -> Hash, index: nat): seq<Node> {
    if txs == [] then []
    else
      (if txs[0].replacements > 1 then Copies(Leaf(index, hashOf(txs[0]), true), txs[0].replacements)
       else [Leaf(index, hashOf(txs[0]), false)])
      + TxLeaves(txs[1..], hashOf, index + 1)
  }

  method MakeCopies(n: Node, times: nat) returns (copies: seq<Node>)
    ensures copies == Copies(n, times)
  {
    copies := [];
    for c := 0 to times
      invariant copies == Copies(n, c)
    {
      copies := copies + [n];
    }
  }

  lemma {:induction false} NextTxLeaves(txs: seq<Transaction>, hashOf: Transaction -> Hash, i: nat, made: seq<Node>)
    requires i < |txs|
    ensures made + TxLeaves(txs[i..], hashOf, i) ==
      made + (if txs[i].replacements > 1 then Copies(Leaf(i, hashOf(txs[i]), true), txs[i].replacements)
              else [Leaf(i, hashOf(txs[i]), false)])
      + TxLeaves(txs[i + 1..], hashOf, i + 1)
  {
    assert txs[i..][1..] == txs[i + 1..];
  }

  method MakeLeaves(txs: seq<Transaction>, hashOf: Transaction -> Hash) returns (leaves: seq<Node>)
    ensures leaves == TxLeaves(txs, hashOf, 0)
  {
    leaves := [];
    for i := 0 to |txs|
      invariant leaves + TxLeaves(txs[i..], hashOf, i) == TxLeaves(txs, hashOf, 0)
    {
      NextTxLeaves(txs, hashOf, i, leaves);
      if txs[i].replacements > 1 {
        var copies := MakeCopies(Leaf(i, hashOf(txs[i]), true), txs[i].replacements);
        leaves := leaves + copies;
      } else {
        leaves := leaves + [Leaf(i, hashOf(txs[i]), false)];
      }
    }
  }

  /** The parents of one level. */
  function ParentsOf(h: Combiner, nodes: seq<Node>): seq<Node> {
    if |nodes| == 0 then []
    else if |nodes| == 1 then [Parent(h, nodes[0], None)]
    else [Parent(h, nodes[0], Some(nodes[1]))] + ParentsOf(h, nodes[2..])
  }

  lemma {:induction false} ParentsOfLevel(h: Combiner, nodes: seq<Node>)
    requires forall n | n in nodes :: WellFormed(h, n)
    ensures HashesOf(ParentsOf(h, nodes)) == LevelUp(h, HashesOf(nodes))
    ensures LeavesOfAll(ParentsOf(h, nodes)) == LeavesOfAll(nodes)
    ensures forall n | n in ParentsOf(h, nodes) :: WellFormed(h, n)
    decreases |nodes|
  {
    if |nodes| == 1 {
      assert nodes == [nodes[0]] && nodes[1..] == [];
      ParentIsWellFormed(h, nodes[0], None);
      LeavesOfAppend([], Parent(h, nodes[0], None));
      assert [] + [Parent(h, nodes[0], None)] == ParentsOf(h, nodes);
    } else if |nodes| > 1 {
      var parent := Parent(h, nodes[0], Some(nodes[1]));
      ParentIsWellFormed(h, nodes[0], Some(nodes[1]));
      ParentsOfLevel(h, nodes[2..]);
      HashesOfTwo(h, nodes, parent, ParentsOf(h, nodes[2..]));
      LeavesOfTwo(nodes, parent, ParentsOf(h, nodes[2..]));
    }
  }

  lemma {:induction false} HashesOfTwo(h: Combiner, nodes: seq<Node>, parent: Node, rest: seq<Node>)
    requires |nodes| > 1 && parent.hash == h(nodes[0].hash, nodes[1].hash)
    requires HashesOf(rest) == LevelUp(h, HashesOf(nodes[2..]))
    ensures HashesOf([parent] + rest) == LevelUp(h, HashesOf(nodes))
  {
    assert HashesOf(nodes)[2..] == HashesOf(nodes[2..]);
    assert HashesOf([parent] + rest) == [parent.hash] + HashesOf(rest);
  }

  lemma {:induction false} LeavesOfTwo(nodes: seq<Node>, parent: Node, rest: seq<Node>)
    requires |nodes| > 1 && LeavesOf(parent) == LeavesOf(nodes[0]) + LeavesOf(nodes[1])
    requires LeavesOfAll(rest) == LeavesOfAll(nodes[2..])
    ensures LeavesOfAll([parent] + rest) == LeavesOfAll(nodes)
  {
    var (a, b, c) := (LeavesOf(nodes[0]), LeavesOf(nodes[1]), LeavesOfAll(nodes[2..]));
    assert LeavesOfAll(nodes) == a + (b + c) by {
      LeavesOfFront(nodes);
      LeavesOfFront(nodes[1..]);
      assert nodes[1..][1..] == nodes[2..];
    }
    assert LeavesOfAll([parent] + rest) == (a + b) + c by {
      LeavesOfFront([parent] + rest);
      assert ([parent] + rest)[1..] == rest;
    }
    Associative(a, b, c);
  }

  lemma {:induction false} Associative<T>(a: seq<T>, b: seq<T>, c: seq<T>)
    ensures (a + b) + c == a + (b + c)
  {
  }

  lemma {:induction false} LeavesOfFront(nodes: seq<Node>)
    requires nodes != []
    ensures LeavesOfAll(nodes) == LeavesOf(nodes[0]) + LeavesOfAll(nodes[1..])
  {
  }

  /** One round of the outer loop: pop two, push their parent. */
  method CombineLevel(h: Combiner, nodes: seq<Node>) returns (parents: seq<Node>)
    ensures parents == ParentsOf(h, nodes)
  {
    parents := [];
    var rest := nodes;
    while rest != []
      invariant parents + ParentsOf(h, rest) == ParentsOf(h, nodes)
      decreases |rest|
    {
      if |rest| > 1 {
        parents := parents + [Parent(h, rest[0], Some(rest[1]))];
        rest := rest[2..];
      } else {
        parents := parents + [Parent(h, rest[0], None)];
        rest := [];
      }
    }
  }

  /** How many leaves stand for a transaction: a merged placeholder has one for each that it replaces. */
  function LeavesFor(tx: Transaction): nat {
    if tx.replacements > 1 then tx.replacements else 1
  }

  /** The first leaf of transaction `i`. */
  function FirstLeaf(txs: seq<Transaction>, i: nat): nat
    requires i <= |txs|
  {
    Along(txs[..i], LeavesFor)
  }

  /** The leaves stand for the transactions, in order: each of them has the index and the hash of its own. */
  ghost predicate StandFor(leaves: seq<Node>, txs: seq<Transaction>, hashOf: Transaction -> Hash) {
    && |leaves| == FirstLeaf(txs, |txs|)
    && forall i: nat, c: nat :: i < |txs| && c < LeavesFor(txs[i]) ==> StandsAt(leaves, txs, hashOf, i, c)
  }

  /** Leaf `c` of transaction `i`. */
  ghost predicate StandsAt(leaves: seq<Node>, txs: seq<Transaction>, hashOf: Transaction -> Hash, i: nat, c: nat)
    requires i < |txs|
  {
    var at := FirstLeaf(txs, i) + c;
    at < |leaves| && leaves[at] == Leaf(i, hashOf(txs[i]), txs[i].replacements > 1)
  }

  lemma {:induction false} TxLeafCount(txs: seq<Transaction>, hashOf: Transaction -> Hash, index: nat)
    ensures |TxLeaves(txs, hashOf, index)| == Along(txs, LeavesFor)
  {
    if txs != [] { TxLeafCount(txs[1..], hashOf, index + 1); }
  }

  lemma {:induction false} TxLeafAt(txs: seq<Transaction>, hashOf: Transaction -> Hash, index: nat, i: nat, c: nat)
    requires i < |txs| && c < LeavesFor(txs[i])
    ensures var (leaves, at) := (TxLeaves(txs, hashOf, index), FirstLeaf(txs, i) + c);
      at < |leaves| && leaves[at] == Leaf(index + i, hashOf(txs[i]), txs[i].replacements > 1)
  {
    var first := LeavesFor(txs[0]);
    if i > 0 {
      TxLeafAt(txs[1..], hashOf, index + 1, i - 1, c);
      assert txs[..i][1..] == txs[1..][..i - 1];
      assert FirstLeaf(txs, i) == first + FirstLeaf(txs[1..], i - 1);
    } else {
      assert txs[..0] == [];
    }
  }

  lemma {:induction false} TxLeavesStandFor(txs: seq<Transaction>, hashOf: Transaction -> Hash)
    ensures StandFor(TxLeaves(txs, hashOf, 0), txs, hashOf)
  {
    TxLeafCount(txs, hashOf, 0);
    assert txs[..|txs|] == txs;
    forall i: nat, c: nat | i < |txs| && c < LeavesFor(txs[i])
      ensures StandsAt(TxLeaves(txs, hashOf, 0), txs, hashOf, i, c)
    {
      TxLeafAt(txs, hashOf, 0, i, c);
    }
  }

  /** A tree whose leaves stand for the transactions and whose hash is the root over them. */
  ghost predicate TreeOver(h: Combiner, root: Node, txs: seq<Transaction>, hashOf: Transaction -> Hash) {
    && StandFor(LeavesOf(root), txs, hashOf)
    && root.hash == RootOf(h, HashesOf(LeavesOf(root)))
  }

  lemma {:induction false} SameProfile(a: seq<Transaction>, b: seq<Transaction>, i: nat)
    requires |a| == |b| && forall j :: 0 <= j < |a| ==> LeavesFor(a[j]) == LeavesFor(b[j])
    requires i <= |a|
    ensures FirstLeaf(a, i) == FirstLeaf(b, i)
  {
    if i > 0 {
      SameProfile(a, b, i - 1);
      assert a[..i] == a[..i - 1] + [a[i - 1]] && b[..i] == b[..i - 1] + [b[i - 1]];
      AlongAppend(a[..i - 1], a[i - 1], LeavesFor);
      AlongAppend(b[..i - 1], b[i - 1], LeavesFor);
    }
  }

  /**
   * The root commits to the transactions: of two lists with the same numbers of leaves at each place (as
   * lists of one length without placeholders have) and the same root, the transactions hash alike one by
   * one, or the hash has a collision.
   */
  lemma {:induction false} RootBindsTransactions(h: Combiner, hashOf: Transaction -> Hash,
                                                 a: seq<Transaction>, b: seq<Transaction>, m: Node, n: Node)
    requires TreeOver(h, m, a, hashOf) && TreeOver(h, n, b, hashOf) && m.hash == n.hash
    requires |a| == |b| && forall j :: 0 <= j < |a| ==> LeavesFor(a[j]) == LeavesFor(b[j])
    ensures HasCollision(h) || forall i :: 0 <= i < |a| ==> hashOf(a[i]) == hashOf(b[i])
  {
    var (x, y) := (HashesOf(LeavesOf(m)), HashesOf(LeavesOf(n)));
    SameProfile(a, b, |a|);
    RootBindsLeaves(h, x, y);
    if !HasCollision(h) {
      forall i | 0 <= i < |a| ensures hashOf(a[i]) == hashOf(b[i]) {
        SameProfile(a, b, i);
        assert StandsAt(LeavesOf(m), a, hashOf, i, 0) && StandsAt(LeavesOf(n), b, hashOf, i, 0);
        assert x[FirstLeaf(a, i)] == y[FirstLeaf(b, i)];
      }
    }
  }

  /**
   * The whole construction: nothing for no transactions, and otherwise a tree over leaves that stand for
   * the transactions in order, whose counts count nodes and whose root is the one defined from the top.
   */
  method Generate(h: Combiner, txs: seq<Transaction>, hashOf: Transaction -> Hash) returns (root: Option<Node>)
    ensures root.None? <==> txs == []
    ensures root.Some? ==>
      var leaves := TxLeaves(txs, hashOf, 0);
      && leaves != []
      && WellFormed(h, root.value) && Count(root.value) == Size(root.value)
      && LeavesOf(root.value) == leaves
      && TreeOver(h, root.value, txs, hashOf)
  {
    if txs == [] {
      return None;
    }
    var nodes := MakeLeaves(txs, hashOf);
    ghost var leaves := nodes;
    TxLeavesShape(txs, hashOf, 0);
    TxLeavesStandFor(txs, hashOf);
    LeavesOfLeaves(leaves);
    while |nodes| > 1
      invariant nodes != [] && forall n | n in nodes :: WellFormed(h, n)
      invariant RootOf(h, HashesOf(nodes)) == RootOf(h, HashesOf(leaves))
      invariant LeavesOfAll(nodes) == leaves
      decreases |nodes|
    {
      LevelUpKeepsRoot(h, HashesOf(nodes));
      ParentsOfLevel(h, nodes);
      nodes := CombineLevel(h, nodes);
    }
    assert nodes == [nodes[0]] && nodes[0] in nodes;
    LeavesOfAppend([], nodes[0]);
    assert [] + [nodes[0]] == nodes;
    CountIsSize(h, nodes[0]);
    return Some(nodes[0]);
  }

  lemma {:induction false} TxLeavesShape(txs: seq<Transaction>, hashOf: Transaction -> Hash, index: nat)
    ensures txs != [] ==> TxLeaves(txs, hashOf, index) != []
    ensures forall n | n in TxLeaves(txs, hashOf, index) :: n.Leaf?
  {
    if txs != [] { TxLeavesShape(txs[1..], hashOf, index + 1); }
  }

  lemma {:induction false} LeavesOfLeaves(leaves: seq<Node>)
    requires forall n | n in leaves :: n.Leaf?
    ensures LeavesOfAll(leaves) == leaves
  {
    if leaves != [] {
      LeavesOfLeaves(leaves[1..]);
      assert leaves[0] in leaves && leaves == [leaves[0]] + leaves[1..];
    }
  }

  // ---------- prune ----------

  /** The pruned node, and whether all of it may go. A missing child may always go. */
  function Prune(n: Node, p: nat -> bool): (Node, bool) {
    match n
    case Leaf(index, _, _) => (n, p(index))
    case Inner(l, r, hash, _) =>
      var (l', goL) := PruneChild(l, p);
      var (r', goR) := PruneChild(r, p);
      if goL && goR then (Inner(None, None, hash, 1), true)
      else (Inner(l', r', hash, 1 + CountOf(l') + CountOf(r')), false)
  }

  function PruneChild(n: Option<Node>, p: nat -> bool): (Option<Node>, bool) {
    match n case None => (None, true) case Some(x) => var (y, go) := Prune(x, p); (Some(y), go)
  }

  function CountOf(n: Option<Node>): nat {
    match n case None => 0 case Some(x) => Count(x)
  }

  function Kept(leaves: seq<Node>, p: nat -> bool): seq<Node>
    requires forall n | n in leaves :: n.Leaf?
  {
    if leaves == [] then [] else
      assert leaves[0] in leaves;
      (if p(leaves[0].index) then [] else [leaves[0]]) + Kept(leaves[1..], p)
  }

  lemma {:induction false} LeavesAreLeaves(n: Node)
    ensures forall x | x in LeavesOf(n) :: x.Leaf?
  {
    if n.Inner? {
      if n.left.Some? { LeavesAreLeaves(n.left.value); }
      if n.right.Some? { LeavesAreLeaves(n.right.value); }
    }
  }

  lemma {:induction false} KeptConcat(a: seq<Node>, b: seq<Node>, p: nat -> bool)
    requires (forall n | n in a :: n.Leaf?) && (forall n | n in b :: n.Leaf?)
    ensures forall n | n in a + b :: n.Leaf?
    ensures Kept(a + b, p) == Kept(a, p) + Kept(b, p)
  {
    if a == [] {
      assert a + b == b;
    } else {
      assert (a + b)[1..] == a[1..] + b;
      KeptConcat(a[1..], b, p);
    }
  }

  /** Node by node: the hash is kept, and the node is as before or a stub with nothing wanted below it. */
  ghost predicate PrunedFrom(t: Node, n: Node, p: nat -> bool) {
    && t.hash == n.hash
    && match n {
         case Leaf(_, _, _) => t == n
         case Inner(l, r, _, _) =>
           || (t.Inner? && t.left.None? && t.right.None? && forall x | x in LeavesOf(n) :: x.Leaf? && p(x.index))
           || (t.Inner? && SameChild(t.left, l, p) && SameChild(t.right, r, p))
       }
  }

  ghost predicate SameChild(t: Option<Node>, n: Option<Node>, p: nat -> bool) {
    match n case None => t.None? case Some(x) => t.Some? && PrunedFrom(t.value, x, p)
  }

  lemma {:induction false} PruneStaysWellFormed(h: Combiner, n: Node, p: nat -> bool)
    requires WellFormed(h, n)
    ensures WellFormed(h, Prune(n, p).0) && Prune(n, p).0.hash == n.hash
    ensures Count(Prune(n, p).0) == Size(Prune(n, p).0)
  {
    if n.Inner? {
      if n.left.Some? { PruneStaysWellFormed(h, n.left.value, p); }
      if n.right.Some? { PruneStaysWellFormed(h, n.right.value, p); }
    }
  }

  /** A node may go exactly when all leaves below it may. */
  lemma {:induction false} PruneGoesIff(n: Node, p: nat -> bool)
    ensures forall x | x in LeavesOf(n) :: x.Leaf?
    ensures Prune(n, p).1 <==> forall x | x in LeavesOf(n) :: p(x.index)
  {
    LeavesAreLeaves(n);
    if n.Inner? {
      if n.left.Some? { PruneGoesIff(n.left.value, p); }
      if n.right.Some? { PruneGoesIff(n.right.value, p); }
      assert forall x :: x in LeavesOf(n) <==> x in LeavesUnder(n.left) || x in LeavesUnder(n.right);
    }
  }

  ghost function KeptUnder(n: Node, p: nat -> bool): seq<Node> {
    LeavesAreLeaves(n);
    Kept(LeavesOf(n), p)
  }

  ghost function KeptBelow(n: Option<Node>, p: nat -> bool): seq<Node> {
    match n case None => [] case Some(x) => KeptUnder(x, p)
  }

  lemma {:induction false} KeptInner(n: Node, p: nat -> bool)
    requires n.Inner?
    ensures KeptUnder(n, p) == KeptBelow(n.left, p) + KeptBelow(n.right, p)
  {
    LeavesAreLeaves(n);
    if n.left.Some? { LeavesAreLeaves(n.left.value); }
    if n.right.Some? { LeavesAreLeaves(n.right.value); }
    KeptConcat(LeavesUnder(n.left), LeavesUnder(n.right), p);
  }

  lemma {:induction false} PruneKeepsLeaves(n: Node, p: nat -> bool)
    ensures KeptUnder(Prune(n, p).0, p) == KeptUnder(n, p)
  {
    if n.Inner? {
      var (t, go) := Prune(n, p);
      if n.left.Some? { PruneKeepsLeaves(n.left.value, p); }
      if n.right.Some? { PruneKeepsLeaves(n.right.value, p); }
      KeptInner(n, p);
      KeptInner(t, p);
      if go {
        PruneGoesIff(n, p);
        KeptNothing(LeavesOf(n), p);
      }
    }
  }

  lemma {:induction false} PruneIsPrunedFrom(n: Node, p: nat -> bool)
    ensures PrunedFrom(Prune(n, p).0, n, p)
  {
    if n.Inner? {
      var (t, go) := Prune(n, p);
      if go {
        PruneGoesIff(n, p);
        assert t.left.None? && t.right.None?;
      } else {
        assert t.left == PruneChild(n.left, p).0 && t.right == PruneChild(n.right, p).0;
        PrunedChildIsSame(n.left, p);
        PrunedChildIsSame(n.right, p);
      }
    }
  }

  lemma {:induction false} PrunedChildIsSame(n: Option<Node>, p: nat -> bool)
    ensures SameChild(PruneChild(n, p).0, n, p)
  {
    if n.Some? {
      PruneIsPrunedFrom(n.value, p);
      assert PruneChild(n, p).0 == Some(Prune(n.value, p).0);
    }
  }

  /** Nothing is left below a node that is not wanted: whatever still has children has a wanted leaf. */
  ghost predicate Tight(t: Node, p: nat -> bool) {
    match t
    case Leaf(_, _, _) => true
    case Inner(l, r, _, _) =>
      && (l.Some? || r.Some? ==> KeptUnder(t, p) != [])
      && (l.Some? ==> Tight(l.value, p)) && (r.Some? ==> Tight(r.value, p))
  }

  lemma {:induction false} KeptSome(leaves: seq<Node>, p: nat -> bool, x: Node)
    requires (forall n | n in leaves :: n.Leaf?) && x in leaves && !p(x.index)
    ensures Kept(leaves, p) != []
  {
    if leaves[0] != x { KeptSome(leaves[1..], p, x); }
  }

  lemma {:induction false} PruneIsTight(n: Node, p: nat -> bool)
    ensures Tight(Prune(n, p).0, p)
  {
    if n.Inner? {
      var (t, go) := Prune(n, p);
      if n.left.Some? { PruneIsTight(n.left.value, p); }
      if n.right.Some? { PruneIsTight(n.right.value, p); }
      PruneGoesIff(n, p);
      if !go {
        var x :| x in LeavesOf(n) && !p(x.index);
        LeavesAreLeaves(n);
        KeptSome(LeavesOf(n), p, x);
        PruneKeepsLeaves(n, p);
      }
    }
  }

  /**
   * Pruning with any predicate keeps the tree well formed (counts and hashes) and every hash where it
   * was, keeps each leaf that is not to be pruned, and gives a node up, with all that is below it, exactly
   * when nothing below it is wanted.
   */
  lemma {:induction false} PruneIsFaithful(h: Combiner, n: Node, p: nat -> bool)
    requires WellFormed(h, n)
    ensures var (t, go) := Prune(n, p);
      && WellFormed(h, t) && Count(t) == Size(t)
      && PrunedFrom(t, n, p)
      && KeptUnder(t, p) == KeptUnder(n, p)
      && Tight(t, p)
      && (forall x | x in LeavesOf(n) :: x.Leaf?)
      && (go <==> forall x | x in LeavesOf(n) :: p(x.index))
  {
    PruneStaysWellFormed(h, n, p);
    PruneGoesIff(n, p);
    PruneKeepsLeaves(n, p);
    PruneIsPrunedFrom(n, p);
    PruneIsTight(n, p);
  }

  lemma {:induction false} KeptNothing(leaves: seq<Node>, p: nat -> bool)
    requires forall n | n in leaves :: n.Leaf? && p(n.index)
    ensures Kept(leaves, p) == []
  {
    if leaves != [] {
      assert leaves[0] in leaves;
      KeptNothing(leaves[1..], p);
    }
  }

  // ---------- what a pruned tree proves ----------

  /** The hash a verifier computes from a tree: from the children where they are, else the given one. */
  function Recompute(h: Combiner, n: Node): Hash {
    match n
    case Leaf(_, hash, _) => hash
    case Inner(l, r, hash, _) =>
      match (l, r) {
        case (Some(x), Some(y)) => h(Recompute(h, x), Recompute(h, y))
        case (Some(x), None) => Recompute(h, x)
        case (None, _) => hash
      }
  }

  lemma {:induction false} RecomputeIsHash(h: Combiner, n: Node)
    requires WellFormed(h, n)
    ensures Recompute(h, n) == n.hash
  {
    if n.Inner? {
      if n.left.Some? { RecomputeIsHash(h, n.left.value); }
      if n.right.Some? { RecomputeIsHash(h, n.right.value); }
    }
  }

  /** A claimed tree that is cut off at some nodes but otherwise branches like the real one. */
  predicate ShapedLike(t: Node, n: Node) {
    match (t, n) {
      case (Leaf(_, _, _), Leaf(_, _, _)) => true
      case (Inner(None, None, _, _), Inner(_, _, _, _)) => true
      case (Inner(Some(a), None, _, _), Inner(Some(x), None, _, _)) => ShapedLike(a, x)
      case (Inner(Some(a), Some(b), _, _), Inner(Some(x), Some(y), _, _)) => ShapedLike(a, x) && ShapedLike(b, y)
      case _ => false
    }
  }

  /** The claimed tree shows the real leaves wherever it shows any. */
  predicate ShowsRealLeaves(t: Node, n: Node)
    requires ShapedLike(t, n)
  {
    match (t, n) {
      case (Leaf(_, a, _), Leaf(_, b, _)) => a == b
      case (Inner(None, None, _, _), _) => true
      case (Inner(Some(a), None, _, _), Inner(Some(x), None, _, _)) => ShowsRealLeaves(a, x)
      case (Inner(Some(a), Some(b), _, _), Inner(Some(x), Some(y), _, _)) =>
        ShowsRealLeaves(a, x) && ShowsRealLeaves(b, y)
    }
  }

  /** A pruned tree that recomputes to the root cannot show a forged leaf without a hash collision. */
  lemma {:induction false} PrunedTreeProves(h: Combiner, t: Node, n: Node)
    requires ShapedLike(t, n) && Recompute(h, t) == Recompute(h, n)
    ensures ShowsRealLeaves(t, n) || HasCollision(h)
  {
    match (t, n) {
      case (Leaf(_, _, _), Leaf(_, _, _)) =>
      case (Inner(None, None, _, _), _) =>
      case (Inner(Some(a), None, _, _), Inner(Some(x), None, _, _)) =>
        PrunedTreeProves(h, a, x);
      case (Inner(Some(a), Some(b), _, _), Inner(Some(x), Some(y), _, _)) =>
        var (ra, rb, rx, ry) := (Recompute(h, a), Recompute(h, b), Recompute(h, x), Recompute(h, y));
        if ra == rx && rb == ry {
          PrunedTreeProves(h, a, x);
          PrunedTreeProves(h, b, y);
        } else {
          assert Collides(h, ra, rb, rx, ry);
        }
    }
  }
}
