/** Invariants of every run of the fetch scheduler, and the bounds that make it come to rest. */
module SyncRuns {
  import opened Sums
  import opened Types
  import opened SyncModel
  import opened SyncLists

  datatype Event =
    | Announce(key: Key, peer: Peer, askable: set<Peer>)
    | BuildPicture(onChain: set<Hash>)
    | SelectBlocks
    | MarkFetched(hash: Hash)
    | MarkFailed(key: Key, peer: Peer)
    | Remove(hash: Hash)

  // ---------- the invariant ----------

  ghost predicate GoodList(q: seq<BlockData>, batch: nat) {
    GoodEntries(q) && FetchingCount(q) <= batch
  }

  /**
   * No peer zero, no empty list, no duplicates, and at most `batch` blocks being fetched from a peer; so
   * the subtraction that computes a quota never underflows.
   */
  ghost predicate Good(s: Sync, batch: nat) {
    && 0 !in s.received && 0 !in s.toFetch
    && forall p | p in s.toFetch :: s.toFetch[p] != [] && GoodList(s.toFetch[p], batch)
  }

  /** Peer indices start at one. */
  predicate Sensible(ev: Event) {
    ev.Announce? ==> 0 !in ev.askable
  }

  ghost function After(s: Sync, ev: Event, batch: nat): Sync
    requires Good(s, batch)
  {
    match ev
    case Announce(k, p, askable) => AddEntry(s, k, p, askable)
    case BuildPicture(onChain) => Build(s, onChain)
    case SelectBlocks => Select(s, batch)
    case MarkFetched(hash) => MarkAsFetched(s, hash)
    case MarkFailed(k, p) => MarkAsFailed(s, k, p)
    case Remove(hash) => RemoveEntry(s, hash)
  }

  /** The list of one peer after an event. */
  ghost function ListAfter(s: Sync, ev: Event, batch: nat, p: Peer): seq<BlockData>
    requires Good(s, batch)
  {
    var q := ListOf(s.toFetch, p);
    match ev
    case Announce(_, _, _) => q
    case BuildPicture(onChain) => Enqueue(q, SortKeys(ListOf(s.received, p)), onChain)
    case SelectBlocks => if q == [] then [] else Scan(Sort(q), Quota(q, batch))
    case MarkFetched(hash) => DropFetched(MarkHash(q, hash))
    case MarkFailed(k, peer) => if p == peer then MarkKeyFailed(q, k) else q
    case Remove(hash) => DropHash(q, hash)
  }

  lemma {:induction false} ListsAfter(s: Sync, ev: Event, batch: nat, p: Peer)
    requires Good(s, batch)
    ensures ListOf(After(s, ev, batch).toFetch, p) == ListAfter(s, ev, batch, p)
  {
    if ev.BuildPicture? && p !in s.received && p !in s.toFetch {
      assert SortKeys([]) == [];
    }
  }

  lemma {:induction false} ListAfterIsGood(s: Sync, ev: Event, batch: nat, p: Peer)
    requires Good(s, batch)
    ensures GoodList(ListAfter(s, ev, batch, p), batch)
  {
    var q := ListOf(s.toFetch, p);
    assert GoodList(q, batch);
    match ev {
      case Announce(_, _, _) =>
      case BuildPicture(onChain) =>
        EnqueueKeepsList(q, SortKeys(ListOf(s.received, p)), onChain);
      case SelectBlocks =>
        if q != [] { SelectedListIsGood(q, batch); }
      case MarkFetched(hash) =>
        FetchedListIsGood(q, hash);
      case MarkFailed(k, peer) =>
        MarkFailedLowers(q, k);
        LoweredDistinct(MarkKeyFailed(q, k), q);
      case Remove(hash) =>
        DropHashThins(q, hash);
        ThinnedDistinct(DropHash(q, hash), q);
        ThinnedAlong(DropHash(q, hash), q, IsFetching);
    }
  }

  lemma {:induction false} SelectedListIsGood(q: seq<BlockData>, batch: nat)
    requires GoodList(q, batch)
    ensures GoodList(Scan(Sort(q), Quota(q, batch)), batch)
    ensures Lowered(Scan(Sort(q), Quota(q, batch)), Sort(q))
  {
    forall d | d in Sort(q) ensures GoodEntry(d) { SortMembers(q, d); }
    SortIncreasing(q);
    SortAlong(q, IsFetching);
    ScanLowers(Sort(q), Quota(q, batch));
    LoweredDistinct(Scan(Sort(q), Quota(q, batch)), Sort(q));
  }

  lemma {:induction false} FetchedListIsGood(q: seq<BlockData>, hash: Hash)
    requires GoodEntries(q)
    ensures GoodEntries(DropFetched(MarkHash(q, hash)))
    ensures FetchingCount(DropFetched(MarkHash(q, hash))) <= FetchingCount(q)
  {
    var m := MarkHash(q, hash);
    MarkHashLowers(q, hash);
    LoweredDistinct(m, q);
    DropFetchedThins(m);
    ThinnedDistinct(DropFetched(m), m);
    ThinnedAlong(DropFetched(m), m, IsFetching);
    forall d | d in DropFetched(m) ensures GoodEntry(d) {
      var i :| 0 <= i < |m| && m[i] == d;
      assert d == q[i];
    }
  }

  /** Every event keeps the invariant. */
  lemma {:induction false} EventKeepsGood(s: Sync, ev: Event, batch: nat)
    requires Good(s, batch) && Sensible(ev)
    ensures Good(After(s, ev, batch), batch)
  {
    var t := After(s, ev, batch);
    forall p | p in t.toFetch ensures t.toFetch[p] != [] && GoodList(t.toFetch[p], batch) {
      ListsAfter(s, ev, batch, p);
      ListAfterIsGood(s, ev, batch, p);
      if ev.MarkFailed? { MarkFailedLowers(s.toFetch[p], ev.key); }
    }
    if ev.BuildPicture? { assert 0 !in t.toFetch; }
  }

  ghost predicate SensibleRun(evs: seq<Event>) {
    forall ev | ev in evs :: Sensible(ev)
  }

  ghost function Run(s: Sync, evs: seq<Event>, batch: nat): Sync
    requires Good(s, batch) && SensibleRun(evs)
    decreases evs
  {
    if evs == [] then s else
      assert evs[0] in evs;
      EventKeepsGood(s, evs[0], batch);
      Run(After(s, evs[0], batch), evs[1..], batch)
  }

  /** Every reachable state of the scheduler satisfies the invariant. */
  lemma {:induction false} ReachableIsGood(evs: seq<Event>, batch: nat)
    requires SensibleRun(evs)
    ensures Good(EMPTY_SYNC, batch) && Good(Run(EMPTY_SYNC, evs, batch), batch)
  {
    RunKeepsGood(EMPTY_SYNC, evs, batch);
  }

  lemma {:induction false} RunKeepsGood(s: Sync, evs: seq<Event>, batch: nat)
    requires Good(s, batch) && SensibleRun(evs)
    ensures Good(Run(s, evs, batch), batch)
    decreases evs
  {
    if evs != [] {
      assert evs[0] in evs;
      EventKeepsGood(s, evs[0], batch);
      RunKeepsGood(After(s, evs[0], batch), evs[1..], batch);
    }
  }

  // ---------- one selection ----------

  /**
   * What one peer is handed: an increasing list, and a queued block is left out exactly when the quota
   * has been used up by blocks that come before it.
   */
  lemma {:induction false} SelectionIsInOrder(q: seq<BlockData>, batch: nat, i: nat)
    requires GoodList(q, batch) && i < |q| && Sort(q)[i].status.Queued?
    ensures Increasing(Picks(Sort(q), Quota(q, batch)))
    ensures Sort(q)[i].key !in Picks(Sort(q), Quota(q, batch)) <==> Along(Sort(q)[..i], Cost) >= Quota(q, batch)
  {
    SortIncreasing(q);
    PicksIncrease(Sort(q), Quota(q, batch));
    PickedIff(Sort(q), Quota(q, batch), Sort(q)[i].key);
  }

  // ---------- nothing is lost ----------

  ghost predicate Tracked(s: Sync, p: Peer, k: Key) {
    k in ListOf(s.received, p) || Listed(ListOf(s.toFetch, p), k)
  }

  /** The only ways for a block to be forgotten: it is on chain, fetched, or removed. */
  predicate Dismisses(ev: Event, k: Key) {
    || (ev.BuildPicture? && k.hash in ev.onChain)
    || (ev.MarkFetched? && ev.hash == k.hash)
    || (ev.Remove? && ev.hash == k.hash)
  }

  lemma {:induction false} SortKeysMembers(ks: seq<Key>, k: Key)
    ensures k in SortKeys(ks) <==> k in ks
  {
    if ks != [] {
      SortKeysMembers(ks[1..], k);
      InsertKeyMembers(ks[0], SortKeys(ks[1..]), k);
    }
  }

  lemma {:induction false} InsertKeyMembers(x: Key, ks: seq<Key>, k: Key)
    ensures k in InsertKey(x, ks) <==> k == x || k in ks
  {
    if ks != [] && Less(ks[0], x) { InsertKeyMembers(x, ks[1..], k); }
  }

  lemma {:induction false} LoweredKeepsKeys(a: seq<BlockData>, b: seq<BlockData>, k: Key)
    requires Lowered(a, b) && Listed(b, k)
    ensures Listed(a, k)
  {
    var d :| d in b && d.key == k;
    var i :| 0 <= i < |b| && b[i] == d;
    assert a[i] in a;
  }

  lemma {:induction false} ListedAfter(s: Sync, ev: Event, batch: nat, p: Peer, k: Key)
    requires Good(s, batch) && Listed(ListOf(s.toFetch, p), k)
    requires !(ev.MarkFetched? && ev.hash == k.hash) && !(ev.Remove? && ev.hash == k.hash)
    ensures Listed(ListAfter(s, ev, batch, p), k)
  {
    var q := ListOf(s.toFetch, p);
    assert GoodList(q, batch);
    var d :| d in q && d.key == k;
    match ev {
      case Announce(_, _, _) =>
      case BuildPicture(onChain) =>
        EnqueueKeepsList(q, SortKeys(ListOf(s.received, p)), onChain);
        assert d in Enqueue(q, SortKeys(ListOf(s.received, p)), onChain);
      case SelectBlocks =>
        SelectedListIsGood(q, batch);
        SortMembers(q, d);
        LoweredKeepsKeys(Scan(Sort(q), Quota(q, batch)), Sort(q), k);
      case MarkFetched(hash) =>
        MarkHashLowers(q, hash);
        var i :| 0 <= i < |q| && q[i] == d;
        assert d in MarkHash(q, hash);
        DropFetchedThins(MarkHash(q, hash));
      case MarkFailed(key, peer) =>
        MarkFailedLowers(q, key);
        LoweredKeepsKeys(MarkKeyFailed(q, key), q, k);
      case Remove(hash) =>
        DropHashThins(q, hash);
    }
  }

  /** Announced blocks stay on record until an event dismisses them. */
  lemma {:induction false} NothingIsLost(s: Sync, ev: Event, batch: nat, p: Peer, k: Key)
    requires Good(s, batch) && Tracked(s, p, k) && !Dismisses(ev, k)
    ensures Tracked(After(s, ev, batch), p, k)
  {
    ListsAfter(s, ev, batch, p);
    if Listed(ListOf(s.toFetch, p), k) {
      ListedAfter(s, ev, batch, p, k);
    } else if ev.BuildPicture? {
      var q := ListOf(s.toFetch, p);
      assert GoodList(q, batch);
      SortKeysMembers(ListOf(s.received, p), k);
      EnqueueKeepsList(q, SortKeys(ListOf(s.received, p)), ev.onChain);
    }
  }

  lemma {:induction false} NothingIsLostInRuns(s: Sync, evs: seq<Event>, batch: nat, p: Peer, k: Key)
    requires Good(s, batch) && SensibleRun(evs) && Tracked(s, p, k)
    requires forall ev | ev in evs :: !Dismisses(ev, k)
    ensures Tracked(Run(s, evs, batch), p, k)
    decreases evs
  {
    if evs != [] {
      assert evs[0] in evs;
      EventKeepsGood(s, evs[0], batch);
      NothingIsLost(s, evs[0], batch, p, k);
      NothingIsLostInRuns(After(s, evs[0], batch), evs[1..], batch, p, k);
    }
  }
}
