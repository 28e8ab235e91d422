/** The ghost chain: a full node sends header data, a light client rebuilds the block hashes from it. */
module GhostChain {
  import opened Types
  import opened Merkle
  import opened LiteBlock

  /** What the sender reads off one block of its longest chain. */
  datatype Summary = Summary(
    id: nat, timestamp: nat, previousHash: Hash, preHash: Hash, hasTicket: bool, relevant: bool)

  function HashOf(h: Combiner, b: Summary): Hash {
    h(b.previousHash, b.preHash)
  }

  /** The message: parallel vectors behind the hash of the shared ancestor. */
  datatype GhostChainSync = GhostChainSync(
    start: Hash,
    prehashes: seq<Hash>,
    previousBlockHashes: seq<Hash>,
    blockIds: seq<nat>,
    blockTs: seq<nat>,
    txs: seq<bool>,
    gts: seq<bool>)
  {
    predicate Valid() {
      |prehashes| == |previousBlockHashes| == |blockIds| == |blockTs| == |txs| == |gts|
    }
  }

  // ---------- the sender ----------

  /** The blocks found at the ids from `low` up to but not including `high`. */
  function Found(chain: map<nat, Summary>, low: nat, high: nat): seq<Summary>
    requires low <= high
    decreases high - low
  {
    if low == high then []
    else (if low in chain then [chain[low]] else []) + Found(chain, low + 1, high)
  }

  /** The blocks of the longest chain above the ancestor, up to the tip. */
  function Above(chain: map<nat, Summary>, ancestor: nat, latest: nat): seq<Summary> {
    if ancestor < latest then Found(chain, ancestor + 1, latest + 1) else []
  }

  /** The message carries exactly these blocks. */
  predicate Carries(g: GhostChainSync, bs: seq<Summary>) {
    && g.Valid() && |g.prehashes| == |bs|
    && forall i :: 0 <= i < |bs| ==>
         && g.prehashes[i] == bs[i].preHash && g.previousBlockHashes[i] == bs[i].previousHash
         && g.blockIds[i] == bs[i].id && g.blockTs[i] == bs[i].timestamp
         && g.txs[i] == bs[i].relevant && g.gts[i] == bs[i].hasTicket
  }

  /** One more block pushed onto each of the parallel vectors. */
  function Extended(g: GhostChainSync, b: Summary): GhostChainSync {
    GhostChainSync(g.start, g.prehashes + [b.preHash], g.previousBlockHashes + [b.previousHash], g.blockIds + [b.id],
      g.blockTs + [b.timestamp], g.txs + [b.relevant], g.gts + [b.hasTicket])
  }

  lemma {:induction false} CarriesMore(g: GhostChainSync, bs: seq<Summary>, b: Summary)
    requires Carries(g, bs)
    ensures Carries(Extended(g, b), bs + [b])
  {
  }

  lemma {:induction false} FoundStep(chain: map<nat, Summary>, low: nat, high: nat, sent: seq<Summary>)
    requires low < high
    ensures (sent + if low in chain then [chain[low]] else []) + Found(chain, low + 1, high) ==
      sent + Found(chain, low, high)
  {
  }

  method GenerateGhostChain(chain: map<nat, Summary>, ancestor: nat, start: Hash, latest: nat)
    returns (g: GhostChainSync)
    ensures g.start == start
    ensures Carries(g, Above(chain, ancestor, latest))
  {
    g := GhostChainSync(start, [], [], [], [], [], []);
    ghost var sent: seq<Summary> := [];
    var i := ancestor + 1;
    while i <= latest
      invariant ancestor + 1 <= i && (i <= latest + 1 || ancestor >= latest)
      invariant g.start == start && Carries(g, sent)
      invariant ancestor < latest ==> sent + Found(chain, i, latest + 1) == Found(chain, ancestor + 1, latest + 1)
      invariant ancestor >= latest ==> sent == []
      decreases latest + 1 - i
    {
      FoundStep(chain, i, latest + 1, sent);
      if i in chain {
        CarriesMore(g, sent, chain[i]);
        g := Extended(g, chain[i]);
        sent := sent + [chain[i]];
      }
      i := i + 1;
    }
  }

  /** Nothing is missing between the ancestor and the tip. */
  lemma {:induction false} GapFreeFound(chain: map<nat, Summary>, low: nat, high: nat)
    requires low <= high && forall id :: low <= id < high ==> id in chain
    ensures |Found(chain, low, high)| == high - low
    ensures forall k :: 0 <= k < high - low ==> Found(chain, low, high)[k] == chain[low + k]
    decreases high - low
  {
    if low < high { GapFreeFound(chain, low + 1, high); }
  }

  // ---------- the receiver ----------

  datatype Ghost = Ghost(id: nat, previousHash: Hash, timestamp: nat, preHash: Hash, hasTicket: bool, hash: Hash)

  datatype Request = Request(hash: Hash, id: nat)

  /** What processing a message amounts to. */
  datatype Outcome = Outcome(requests: seq<Request>, ghosts: seq<Ghost>, reorgId: nat, reorgHash: Hash)

  /** The running hash after each block, starting from the ancestor's. */
  function Running(h: Combiner, start: Hash, prehashes: seq<Hash>): (r: seq<Hash>)
    ensures |r| == |prehashes|
    decreases prehashes
  {
    if prehashes == [] then [] else
      var first := h(start, prehashes[0]);
      [first] + Running(h, first, prehashes[1..])
  }

  lemma {:induction false} RunningStep(h: Combiner, start: Hash, prehashes: seq<Hash>, i: nat)
    requires i < |prehashes|
    ensures Running(h, start, prehashes)[i] ==
      h(if i == 0 then start else Running(h, start, prehashes)[i - 1], prehashes[i])
    decreases |prehashes|
  {
    if i > 0 { RunningStep(h, h(start, prehashes[0]), prehashes[1..], i - 1); }
  }

  /** Requests and ghosts for the blocks below position `n`, in order. */
  function Requests(g: GhostChainSync, hashes: seq<Hash>, n: nat): seq<Request>
    requires g.Valid() && |hashes| == |g.txs| && n <= |g.txs|
  {
    if n == 0 then []
    else Requests(g, hashes, n - 1) + if g.txs[n - 1] then [Request(hashes[n - 1], g.blockIds[n - 1])] else []
  }

  function GhostAt(g: GhostChainSync, hashes: seq<Hash>, i: nat): Ghost
    requires g.Valid() && |hashes| == |g.txs| && i < |g.txs|
  {
    Ghost(g.blockIds[i], g.previousBlockHashes[i], g.blockTs[i], g.prehashes[i], g.gts[i], hashes[i])
  }

  function Ghosts(g: GhostChainSync, hashes: seq<Hash>, n: nat): seq<Ghost>
    requires g.Valid() && |hashes| == |g.txs| && n <= |g.txs|
  {
    if n == 0 then []
    else Ghosts(g, hashes, n - 1) + if g.txs[n - 1] then [] else [GhostAt(g, hashes, n - 1)]
  }

  /** The length of the longest prefix without relevant transactions. */
  function QuietPrefix(txs: seq<bool>): (k: nat)
    ensures k <= |txs| && (forall i :: 0 <= i < k ==> !txs[i]) && (k < |txs| ==> txs[k])
  {
    if txs == [] || txs[0] then 0 else 1 + QuietPrefix(txs[1..])
  }

  predicate TargetOf(h: Combiner, g: GhostChainSync, o: Outcome)
    requires g.Valid()
  {
    var k := QuietPrefix(g.txs);
    if k == 0 then o.reorgId == 0 && o.reorgHash == 0
    else o.reorgId == g.blockIds[k - 1] && o.reorgHash == Running(h, g.start, g.prehashes)[k - 1]
  }

  method ProcessGhostChain(h: Combiner, g: GhostChainSync) returns (o: Outcome)
    requires g.Valid()
    ensures var hashes := Running(h, g.start, g.prehashes);
      && o.requests == Requests(g, hashes, |hashes|)
      && o.ghosts == Ghosts(g, hashes, |hashes|)
      && TargetOf(h, g, o)
  {
    ghost var hashes := Running(h, g.start, g.prehashes);
    ghost var k := QuietPrefix(g.txs);
    var previous := g.start;
    var requests: seq<Request>, ghosts: seq<Ghost> := [], [];
    var (lowestId, lowestHash) := (0, 0);
    var needBlocksFetched := false;
    for i := 0 to |g.prehashes|
      invariant previous == if i == 0 then g.start else hashes[i - 1]
      invariant requests == Requests(g, hashes, i) && ghosts == Ghosts(g, hashes, i)
      invariant needBlocksFetched <==> k < i
      invariant var quiet := if i <= k then i else k;
        if quiet == 0 then lowestId == 0 && lowestHash == 0
        else lowestId == g.blockIds[quiet - 1] && lowestHash == hashes[quiet - 1]
    {
      RunningStep(h, g.start, g.prehashes, i);
      var hash := h(previous, g.prehashes[i]);
      if g.txs[i] {
        requests := requests + [Request(hash, g.blockIds[i])];
        needBlocksFetched := true;
      } else {
        if !needBlocksFetched {
          lowestId, lowestHash := g.blockIds[i], hash;
        }
        ghosts := ghosts +
          [Ghost(g.blockIds[i], g.previousBlockHashes[i], g.blockTs[i], g.prehashes[i], g.gts[i], hash)];
      }
      previous := hash;
    }
    o := Outcome(requests, ghosts, lowestId, lowestHash);
  }

  // ---------- the round trip ----------

  /** Each block names the one before it as its parent, the first one the shared ancestor. */
  ghost predicate Linked(h: Combiner, start: Hash, bs: seq<Summary>) {
    forall i :: 0 <= i < |bs| ==> bs[i].previousHash == ParentHash(h, start, bs, i)
  }

  function ParentHash(h: Combiner, start: Hash, bs: seq<Summary>, i: nat): Hash
    requires i < |bs|
  {
    if i == 0 then start else HashOf(h, bs[i - 1])
  }

  ghost predicate Rebuilt(h: Combiner, start: Hash, prehashes: seq<Hash>, bs: seq<Summary>)
    requires |prehashes| == |bs|
  {
    forall i :: 0 <= i < |bs| ==> Running(h, start, prehashes)[i] == HashOf(h, bs[i])
  }

  /** The receiver rebuilds the sender's hashes if the blocks are linked, and, barring collisions, only then. */
  lemma {:induction false} RoundTrip(h: Combiner, g: GhostChainSync, bs: seq<Summary>)
    requires Carries(g, bs)
    ensures Linked(h, g.start, bs) ==> Rebuilt(h, g.start, g.prehashes, bs)
    ensures Rebuilt(h, g.start, g.prehashes, bs) ==> Linked(h, g.start, bs) || HasCollision(h)
  {
    if Linked(h, g.start, bs) { LinkedIsRebuilt(h, g, bs, |bs|); }
    if Rebuilt(h, g.start, g.prehashes, bs) && !HasCollision(h) {
      forall i | 0 <= i < |bs| ensures bs[i].previousHash == ParentHash(h, g.start, bs, i) {
        RunningStep(h, g.start, g.prehashes, i);
        var parent := if i == 0 then g.start else Running(h, g.start, g.prehashes)[i - 1];
        if parent != bs[i].previousHash {
          assert Collides(h, parent, g.prehashes[i], bs[i].previousHash, bs[i].preHash);
        }
      }
    }
  }

  lemma {:induction false} LinkedIsRebuilt(h: Combiner, g: GhostChainSync, bs: seq<Summary>, n: nat)
    requires Carries(g, bs) && Linked(h, g.start, bs) && n <= |bs|
    ensures forall i :: 0 <= i < n ==> Running(h, g.start, g.prehashes)[i] == HashOf(h, bs[i])
    decreases n
  {
    if n > 0 {
      LinkedIsRebuilt(h, g, bs, n - 1);
      RunningStep(h, g.start, g.prehashes, n - 1);
    }
  }

  /** What the sender reads off a block. */
  function SummaryOf(hs: Hashing, b: Block, relevant: bool): Summary {
    Summary(b.id, b.timestamp, b.previousHash, PreHash(hs, b), HasGoldenTicket(b.transactions), relevant)
  }

  function Summaries(hs: Hashing, bs: seq<Block>, relevant: nat -> bool): (r: seq<Summary>)
    ensures |r| == |bs| && forall i :: 0 <= i < |r| ==> r[i] == SummaryOf(hs, bs[i], relevant(i))
  {
    seq(|bs|, i requires 0 <= i < |bs| => SummaryOf(hs, bs[i], relevant(i)))
  }

  lemma {:induction false} SummaryHash(hs: Hashing, b: Block, relevant: bool)
    ensures HashOf(hs.combine, SummaryOf(hs, b, relevant)) == BlockHash(hs, b)
    ensures SummaryOf(hs, b, relevant).previousHash == b.previousHash
  {
  }

  function HashBefore(hs: Hashing, start: Hash, bs: seq<Block>, k: nat): Hash
    requires k < |bs|
  {
    if k == 0 then start else BlockHash(hs, bs[k - 1])
  }

  /** Every block names the hash of the one before it. */
  ghost predicate Chained(hs: Hashing, start: Hash, bs: seq<Block>) {
    forall k :: 0 <= k < |bs| ==> bs[k].previousHash == HashBefore(hs, start, bs, k)
  }

  lemma {:induction false} ChainedIsLinked(hs: Hashing, start: Hash, bs: seq<Block>, relevant: nat -> bool)
    requires Chained(hs, start, bs)
    ensures Linked(hs.combine, start, Summaries(hs, bs, relevant))
  {
    var sent := Summaries(hs, bs, relevant);
    forall k | 0 <= k < |sent| ensures sent[k].previousHash == ParentHash(hs.combine, start, sent, k) {
      SummaryHash(hs, bs[k], relevant(k));
      if k > 0 { SummaryHash(hs, bs[k - 1], relevant(k - 1)); }
    }
  }

  /** Where every block names its parent's hash, the receiver rebuilds the hash of every block. */
  lemma {:induction false} BlockHashesAreRebuilt(
    hs: Hashing, g: GhostChainSync, bs: seq<Block>, relevant: nat -> bool, i: nat)
    requires Carries(g, Summaries(hs, bs, relevant)) && Chained(hs, g.start, bs) && i < |bs|
    ensures Running(hs.combine, g.start, g.prehashes)[i] == BlockHash(hs, bs[i])
  {
    ChainedIsLinked(hs, g.start, bs, relevant);
    RoundTrip(hs.combine, g, Summaries(hs, bs, relevant));
    SummaryHash(hs, bs[i], relevant(i));
  }

  /** The rebuilt entry of a block: it is requested if relevant and otherwise added as a ghost, once. */
  lemma {:induction false} EveryBlockIsHandled(g: GhostChainSync, hashes: seq<Hash>, n: nat, i: nat)
    requires g.Valid() && |hashes| == |g.txs| && i < n <= |g.txs|
    ensures |Requests(g, hashes, n)| + |Ghosts(g, hashes, n)| == n
    ensures g.txs[i] ==> Request(hashes[i], g.blockIds[i]) in Requests(g, hashes, n)
    ensures !g.txs[i] ==> GhostAt(g, hashes, i) in Ghosts(g, hashes, n)
    decreases n
  {
    if i < n - 1 {
      EveryBlockIsHandled(g, hashes, n - 1, i);
    } else {
      HandledCount(g, hashes, n);
    }
  }

  lemma {:induction false} HandledCount(g: GhostChainSync, hashes: seq<Hash>, n: nat)
    requires g.Valid() && |hashes| == |g.txs| && n <= |g.txs|
    ensures |Requests(g, hashes, n)| + |Ghosts(g, hashes, n)| == n
  {
    if n > 0 { HandledCount(g, hashes, n - 1); }
  }

  // ---------- sender and receiver together ----------

  function AsGhost(h: Combiner, b: Summary): Ghost {
    Ghost(b.id, b.previousHash, b.timestamp, b.preHash, b.hasTicket, HashOf(h, b))
  }

  /** Every block was requested or added as a ghost, under its own hash, and nothing else was. */
  ghost predicate HandlesAll(h: Combiner, bs: seq<Summary>, o: Outcome) {
    && |o.requests| + |o.ghosts| == |bs|
    && forall i :: 0 <= i < |bs| ==>
         if bs[i].relevant then Request(HashOf(h, bs[i]), bs[i].id) in o.requests else AsGhost(h, bs[i]) in o.ghosts
  }

  /** The reorganization target is the last of the first `k` blocks, the longest prefix of irrelevant ones. */
  ghost predicate Targets(h: Combiner, bs: seq<Summary>, o: Outcome, k: nat) {
    && k <= |bs|
    && (forall i :: 0 <= i < k ==> !bs[i].relevant)
    && (k < |bs| ==> bs[k].relevant)
    && if k == 0 then o.reorgId == 0 && o.reorgHash == 0
       else o.reorgId == bs[k - 1].id && o.reorgHash == HashOf(h, bs[k - 1])
  }

  lemma {:induction false} LinkedIsHandled(h: Combiner, g: GhostChainSync, bs: seq<Summary>, o: Outcome)
    requires Carries(g, bs) && Linked(h, g.start, bs)
    requires var hashes := Running(h, g.start, g.prehashes);
      o.requests == Requests(g, hashes, |hashes|) && o.ghosts == Ghosts(g, hashes, |hashes|)
    ensures HandlesAll(h, bs, o)
  {
    var hashes := Running(h, g.start, g.prehashes);
    RoundTrip(h, g, bs);
    HandledCount(g, hashes, |hashes|);
    forall i | 0 <= i < |bs|
      ensures if bs[i].relevant then Request(HashOf(h, bs[i]), bs[i].id) in o.requests
        else AsGhost(h, bs[i]) in o.ghosts
    {
      EveryBlockIsHandled(g, hashes, |hashes|, i);
    }
  }

  lemma {:induction false} LinkedTarget(h: Combiner, g: GhostChainSync, bs: seq<Summary>, o: Outcome)
    requires Carries(g, bs) && Linked(h, g.start, bs) && TargetOf(h, g, o)
    ensures Targets(h, bs, o, QuietPrefix(g.txs))
  {
    RoundTrip(h, g, bs);
  }

  /**
   * For any linked chain above a known ancestor, sending and processing a ghost chain handles each block
   * once under the hash it has at the sender, and picks the right reorganization target.
   */
  method SyncLightClient(h: Combiner, chain: map<nat, Summary>, ancestor: nat, start: Hash, latest: nat)
    returns (o: Outcome)
    requires Linked(h, start, Above(chain, ancestor, latest))
    ensures HandlesAll(h, Above(chain, ancestor, latest), o)
    ensures exists k :: Targets(h, Above(chain, ancestor, latest), o, k)
  {
    var g := GenerateGhostChain(chain, ancestor, start, latest);
    o := ProcessGhostChain(h, g);
    LinkedIsHandled(h, g, Above(chain, ancestor, latest), o);
    LinkedTarget(h, g, Above(chain, ancestor, latest), o);
  }

  /** Without gaps on the chain, every id above the ancestor up to the tip has been handled. */
  lemma {:induction false} GapFreeIsHandled(
    h: Combiner, chain: map<nat, Summary>, ancestor: nat, latest: nat, o: Outcome, id: nat)
    requires HandlesAll(h, Above(chain, ancestor, latest), o)
    requires forall k :: ancestor < k <= latest ==> k in chain
    requires ancestor < id <= latest
    ensures |o.requests| + |o.ghosts| == latest - ancestor
    ensures if chain[id].relevant then Request(HashOf(h, chain[id]), chain[id].id) in o.requests
            else AsGhost(h, chain[id]) in o.ghosts
  {
    GapFreeFound(chain, ancestor + 1, latest + 1);
    assert Above(chain, ancestor, latest)[id - ancestor - 1] == chain[id];
  }
}
