/** `BlockchainSyncState` as the object it is; every method is tied to the scheduler on values. */
module SyncState {
  import opened Sums
  import opened Types
  import opened SyncModel
  import opened SyncRuns

  // ---------- one list ----------

  method CountFetching(q: seq<BlockData>) returns (count: nat)
    ensures count == FetchingCount(q)
  {
    count := 0;
    for i := 0 to |q|
      invariant count == FetchingCount(q[..i])
    {
      assert q[..i + 1] == q[..i] + [q[i]];
      AlongAppend(q[..i], q[i], IsFetching);
      if q[i].status.Fetching? {
        count := count + 1;
      }
    }
    assert q[..|q|] == q;
  }

  /** What happens to one entry: its new state, the quota it uses, and whether it is handed out. */
  method VisitEntry(d: BlockData) returns (r: BlockData, cost: nat, picked: bool)
    ensures r == Visit(d) && cost == Cost(d) && (picked <==> d.status.Queued?)
  {
    r, cost, picked := d, 0, false;
    match d.status {
      case Queued =>
        cost, picked := 1, true;
        r := d.(status := Fetching);
      case Fetching =>
      case Fetched =>
      case Failed =>
        if d.retries < MAX_RETRIES_PER_BLOCK {
          cost := 1;
          r := d.(status := Queued, retries := d.retries + 1);
        } else if d.retries == MAX_RETRIES_PER_BLOCK {
          r := d.(retries := d.retries + 1);
        }
    }
  }

  lemma {:induction false} ScanUnfolds(q: seq<BlockData>, i: nat, quota: nat, r: seq<BlockData>, picks: seq<Key>)
    requires i < |q| && quota > 0
    ensures r + Scan(q[i..], quota) == r + [Visit(q[i])] + Scan(q[i + 1..], quota - Cost(q[i]))
    ensures picks + Picks(q[i..], quota) ==
      (if q[i].status.Queued? then picks + [q[i].key] else picks) + Picks(q[i + 1..], quota - Cost(q[i]))
  {
    assert q[i..][1..] == q[i + 1..];
  }

  /** The selection loop; it leaves as soon as the quota is used up. */
  method SelectFrom(q: seq<BlockData>, allowed: nat) returns (r: seq<BlockData>, picks: seq<Key>)
    ensures r == Scan(q, allowed) && picks == Picks(q, allowed)
  {
    r, picks := [], [];
    var quota: nat := allowed;
    var i := 0;
    while i < |q| && quota > 0
      invariant i <= |q|
      invariant r + Scan(q[i..], quota) == Scan(q, allowed)
      invariant picks + Picks(q[i..], quota) == Picks(q, allowed)
    {
      ScanUnfolds(q, i, quota, r, picks);
      var d, cost, picked := VisitEntry(q[i]);
      r := r + [d];
      if picked {
        picks := picks + [q[i].key];
      }
      quota := quota - cost;
      i := i + 1;
    }
    assert Scan(q[i..], quota) == q[i..];
    r := r + q[i..];
  }

  method SelectForPeer(q: seq<BlockData>, batch: nat) returns (r: seq<BlockData>, picks: seq<Key>)
    requires Quota(q, batch) >= 0
    ensures r == SelectList(q, batch) && picks == PickList(q, batch)
  {
    var sorted := Sort(q);
    SortAlong(q, IsFetching);
    var fetching := CountFetching(sorted);
    var quota: nat := batch - fetching;
    r, picks := SelectFrom(sorted, quota);
  }

  /** Pops the sorted announcements one by one and queues those that are new. */
  method EnqueueAll(q: seq<BlockData>, keys: seq<Key>, onChain: set<Hash>) returns (r: seq<BlockData>)
    ensures r == Enqueue(q, keys, onChain)
  {
    r := q;
    var left := keys;
    while left != []
      invariant Enqueue(r, left, onChain) == Enqueue(q, keys, onChain)
      decreases |left|
    {
      var k := left[0];
      left := left[1..];
      if k.hash !in onChain {
        var exists_ := false;
        for i := 0 to |r|
          invariant exists_ <==> exists j :: 0 <= j < i && r[j].key == k
        {
          if r[i].key == k {
            exists_ := true;
          }
        }
        assert exists_ <==> Listed(r, k);
        if !exists_ {
          r := r + [BlockData(k, Queued, 0)];
        }
      }
    }
  }

  lemma {:induction false} MarkStep(q: seq<BlockData>, i: nat, hash: Hash)
    requires i < |q|
    ensures q[..i] + MarkHash(q[i..], hash) ==
      if q[i].key.hash == hash then q[i := q[i].(status := Fetched)] else q[..i + 1] + MarkHash(q[i + 1..], hash)
  {
    assert q[i..][1..] == q[i + 1..];
  }

  /** Marks the first entry for the hash and stops there. */
  method MarkFirstFetched(q: seq<BlockData>, hash: Hash) returns (r: seq<BlockData>)
    ensures r == MarkHash(q, hash)
  {
    for i := 0 to |q|
      invariant q[..i] + MarkHash(q[i..], hash) == MarkHash(q, hash)
    {
      MarkStep(q, i, hash);
      if q[i].key.hash == hash {
        return q[i := q[i].(status := Fetched)];
      }
    }
    return q;
  }

  // ---------- the loops over the peers ----------

  method AnnounceToAll(received: map<Peer, seq<Key>>, k: Key, askable: set<Peer>) returns (r: map<Peer, seq<Key>>)
    ensures r == AddEntry(Sync(received, map[]), k, 0, askable).received
  {
    r := received;
    var left := askable;
    while left != {}
      invariant left <= askable
      invariant r.Keys == received.Keys + (askable - left)
      invariant forall p | p in r :: r[p] == ListOf(received, p) + if p in askable - left then [k] else []
      decreases left
    {
      var p :| p in left;
      r := r[p := ListOf(r, p) + [k]];
      left := left - {p};
    }
  }

  /** The lists once the announcements of the peers outside `left` are queued. */
  ghost predicate Built(r: map<Peer, seq<BlockData>>, received: map<Peer, seq<Key>>,
                        toFetch: map<Peer, seq<BlockData>>, onChain: set<Hash>, left: set<Peer>) {
    && r.Keys == toFetch.Keys + (received.Keys - left)
    && forall p | p in r :: r[p] ==
         if p in received && p !in left then Enqueue(ListOf(toFetch, p), SortKeys(received[p]), onChain)
         else ListOf(toFetch, p)
  }

  lemma {:induction false} BuiltStep(r: map<Peer, seq<BlockData>>, received: map<Peer, seq<Key>>,
                                     toFetch: map<Peer, seq<BlockData>>, onChain: set<Hash>, left: set<Peer>, p: Peer)
    requires Built(r, received, toFetch, onChain, left) && p in left && left <= received.Keys
    ensures ListOf(r, p) == ListOf(toFetch, p)
    ensures var list := Enqueue(ListOf(toFetch, p), SortKeys(received[p]), onChain);
      Built(r[p := list], received, toFetch, onChain, left - {p})
  {
  }

  method BuildLists(received: map<Peer, seq<Key>>, toFetch: map<Peer, seq<BlockData>>, onChain: set<Hash>)
    returns (r: map<Peer, seq<BlockData>>)
    ensures r == BuildMap(received, toFetch, onChain)
  {
    r := toFetch;
    var left := received.Keys;
    while left != {}
      invariant left <= received.Keys && Built(r, received, toFetch, onChain, left)
      decreases left
    {
      var p :| p in left;
      BuiltStep(r, received, toFetch, onChain, left, p);
      var list := EnqueueAll(ListOf(r, p), SortKeys(received[p]), onChain);
      r := r[p := list];
      left := left - {p};
    }
    assert SortKeys([]) == [];
  }

  /** The quota subtraction is on unsigned integers; `WithinBatch` is what keeps it from underflowing. */
  method SelectLists(toFetch: map<Peer, seq<BlockData>>, batch: nat)
    returns (r: map<Peer, seq<BlockData>>, selected: map<Peer, seq<Key>>)
    requires WithinBatch(toFetch, batch)
    ensures r == SelectMap(toFetch, batch)
    ensures selected == NonEmpty(PicksMap(toFetch, batch))
  {
    r := map[];
    var picked: map<Peer, seq<Key>> := map[];
    var left := toFetch.Keys;
    while left != {}
      invariant left <= toFetch.Keys && r.Keys == picked.Keys == toFetch.Keys - left
      invariant forall p | p in r :: r[p] == SelectList(toFetch[p], batch)
      invariant forall p | p in picked :: picked[p] == PickList(toFetch[p], batch)
      decreases left
    {
      var p :| p in left;
      var list, picks := SelectForPeer(toFetch[p], batch);
      r, picked := r[p := list], picked[p := picks];
      left := left - {p};
    }
    selected := NonEmpty(picked);
    assert picked == PicksMap(toFetch, batch);
  }

  method MarkLists(toFetch: map<Peer, seq<BlockData>>, hash: Hash) returns (r: map<Peer, seq<BlockData>>)
    ensures r == MarkMap(toFetch, hash)
  {
    r := map[];
    var left := toFetch.Keys;
    while left != {}
      invariant left <= toFetch.Keys && r.Keys == toFetch.Keys - left
      invariant forall p | p in r :: r[p] == MarkHash(toFetch[p], hash)
      decreases left
    {
      var p :| p in left;
      var list := MarkFirstFetched(toFetch[p], hash);
      r := r[p := list];
      left := left - {p};
    }
  }

  // ---------- the scheduler ----------

  class BlockchainSyncState {
    var receivedBlockPicture: map<Peer, seq<Key>>
    var blocksToFetch: map<Peer, seq<BlockData>>
    const batchSize: nat

    ghost function Model(): Sync
      reads this
    {
      Sync(receivedBlockPicture, blocksToFetch)
    }

    constructor (batch: nat)
      ensures batchSize == batch && Model() == EMPTY_SYNC && Good(Model(), batch)
    {
      batchSize, receivedBlockPicture, blocksToFetch := batch, map[], map[];
    }

    method AddEntry(k: Key, peer: Peer, askable: set<Peer>)
      requires Good(Model(), batchSize) && 0 !in askable
      modifies this
      ensures Model() == SyncModel.AddEntry(old(Model()), k, peer, askable)
      ensures Good(Model(), batchSize)
    {
      EventKeepsGood(Model(), Announce(k, peer, askable), batchSize);
      if peer == 0 {
        receivedBlockPicture := AnnounceToAll(receivedBlockPicture, k, askable);
      } else {
        ghost var all := SyncModel.AddEntry(Model(), k, peer, askable).received;
        receivedBlockPicture := receivedBlockPicture[peer := ListOf(receivedBlockPicture, peer) + [k]];
        assert forall p | p in all && p != peer :: all[p] == receivedBlockPicture[p];
        assert receivedBlockPicture == all;
      }
    }

    method BuildPeerBlockPicture(onChain: set<Hash>)
      requires Good(Model(), batchSize)
      modifies this
      ensures Model() == Build(old(Model()), onChain)
      ensures Good(Model(), batchSize)
    {
      EventKeepsGood(Model(), BuildPicture(onChain), batchSize);
      var lists := BuildLists(receivedBlockPicture, blocksToFetch, onChain);
      receivedBlockPicture := map[];
      blocksToFetch := NonEmpty(lists);
    }

    /** Hands out blocks; afterwards every peer still has at most `batchSize` blocks being fetched. */
    method GetBlocksToFetchPerPeer() returns (selected: map<Peer, seq<Key>>)
      requires Good(Model(), batchSize)
      modifies this
      ensures Model() == Select(old(Model()), batchSize)
      ensures selected == Selected(old(Model()), batchSize)
      ensures Good(Model(), batchSize)
    {
      EventKeepsGood(Model(), SelectBlocks, batchSize);
      blocksToFetch, selected := SelectLists(blocksToFetch, batchSize);
    }

    method MarkAsFetched(hash: Hash)
      requires Good(Model(), batchSize)
      modifies this
      ensures Model() == SyncModel.MarkAsFetched(old(Model()), hash)
      ensures Good(Model(), batchSize)
    {
      EventKeepsGood(Model(), MarkFetched(hash), batchSize);
      blocksToFetch := MarkLists(blocksToFetch, hash);
      blocksToFetch := NonEmpty(DropFetchedMap(blocksToFetch));
    }

    method MarkAsFailed(k: Key, peer: Peer)
      requires Good(Model(), batchSize)
      modifies this
      ensures Model() == SyncModel.MarkAsFailed(old(Model()), k, peer)
      ensures Good(Model(), batchSize)
    {
      EventKeepsGood(Model(), MarkFailed(k, peer), batchSize);
      if peer in blocksToFetch {
        blocksToFetch := blocksToFetch[peer := MarkKeyFailed(blocksToFetch[peer], k)];
      }
    }

    method RemoveEntry(hash: Hash)
      requires Good(Model(), batchSize)
      modifies this
      ensures Model() == SyncModel.RemoveEntry(old(Model()), hash)
      ensures Good(Model(), batchSize)
    {
      EventKeepsGood(Model(), Remove(hash), batchSize);
      blocksToFetch := NonEmpty(DropHashMap(blocksToFetch, hash));
    }
  }
}
