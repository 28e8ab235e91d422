/** Without new announcements the scheduler comes to rest, and no block is asked for without end. */
module SyncBounds {
  import opened Sums
  import opened Types
  import opened SyncModel
  import opened SyncLists
  import opened SyncRuns

  // ---------- a measure over the whole state ----------

  ghost function Weight(q: seq<BlockData>): nat {
    Along(q, Rank)
  }

  /** More than a freshly queued entry can ever weigh. */
  const PENDING: nat := 4 * (MAX_RETRIES_PER_BLOCK + 1) + 4

  /** What lies ahead for one peer: its entries by rank, and the announcements not yet looked at. */
  ghost function LoadOf(s: Sync): Peer -> nat {
    p => Weight(ListOf(s.toFetch, p)) + PENDING * |ListOf(s.received, p)|
  }

  ghost function TotalLoad(s: Sync, peers: set<Peer>): nat {
    Over(peers, LoadOf(s))
  }

  lemma {:induction false} SortKeysLength(ks: seq<Key>)
    ensures |SortKeys(ks)| == |ks|
  {
    if ks != [] {
      SortKeysLength(ks[1..]);
      InsertKeyLength(ks[0], SortKeys(ks[1..]));
    }
  }

  lemma {:induction false} InsertKeyLength(k: Key, ks: seq<Key>)
    ensures |InsertKey(k, ks)| == |ks| + 1
  {
    if ks != [] { InsertKeyLength(k, ks[1..]); }
  }

  lemma {:induction false} EnqueueWeight(q: seq<BlockData>, keys: seq<Key>, onChain: set<Hash>)
    ensures Weight(Enqueue(q, keys, onChain)) <= Weight(q) + (PENDING - 1) * |keys|
    decreases keys
  {
    if keys != [] {
      var d := BlockData(keys[0], Queued, 0);
      AlongAppend(q, d, Rank);
      if keys[0].hash in onChain || Listed(q, keys[0]) {
        EnqueueWeight(q, keys[1..], onChain);
      } else {
        EnqueueWeight(q + [d], keys[1..], onChain);
      }
      assert (PENDING - 1) * |keys| == (PENDING - 1) * |keys[1..]| + (PENDING - 1);
    }
  }

  /** Some peer's list differs by more than the order of its entries. */
  ghost predicate Changes(s: Sync, ev: Event, batch: nat, p: Peer)
    requires Good(s, batch)
  {
    ListAfter(s, ev, batch, p) != ListOf(s.toFetch, p) && ListAfter(s, ev, batch, p) != Sort(ListOf(s.toFetch, p))
  }

  lemma {:induction false} ListGetsLighter(s: Sync, ev: Event, batch: nat, p: Peer)
    requires Good(s, batch) && !ev.BuildPicture?
    ensures Weight(ListAfter(s, ev, batch, p)) <= Weight(ListOf(s.toFetch, p))
    ensures Changes(s, ev, batch, p) ==> Weight(ListAfter(s, ev, batch, p)) < Weight(ListOf(s.toFetch, p))
  {
    var q := ListOf(s.toFetch, p);
    assert GoodList(q, batch);
    match ev {
      case Announce(_, _, _) =>
      case SelectBlocks =>
        if q != [] {
          SelectedListIsGood(q, batch);
          LoweredWeight(Scan(Sort(q), Quota(q, batch)), Sort(q));
          SortAlong(q, Rank);
        }
      case MarkFetched(hash) =>
        var m := MarkHash(q, hash);
        MarkHashLowers(q, hash);
        LoweredWeight(m, q);
        DropFetchedThins(m);
        ThinnedAlong(DropFetched(m), m, Rank);
      case MarkFailed(k, peer) =>
        MarkFailedLowers(q, k);
        LoweredWeight(MarkKeyFailed(q, k), q);
      case Remove(hash) =>
        DropHashThins(q, hash);
        ThinnedAlong(DropHash(q, hash), q, Rank);
    }
  }

  lemma {:induction false} PictureGetsLighter(s: Sync, onChain: set<Hash>, batch: nat, p: Peer)
    requires Good(s, batch)
    ensures var t := After(s, BuildPicture(onChain), batch);
      && LoadOf(t)(p) <= LoadOf(s)(p)
      && (Changes(s, BuildPicture(onChain), batch, p) ==> LoadOf(t)(p) < LoadOf(s)(p))
  {
    var keys := ListOf(s.received, p);
    ListsAfter(s, BuildPicture(onChain), batch, p);
    SortKeysLength(keys);
    EnqueueWeight(ListOf(s.toFetch, p), SortKeys(keys), onChain);
    assert PENDING * |keys| == (PENDING - 1) * |keys| + |keys|;
    if keys == [] { assert SortKeys(keys) == []; }
  }

  /** Apart from announcements, every event lowers the measure or changes no status at all. */
  lemma {:induction false} EventLowersMeasure(s: Sync, ev: Event, batch: nat, peers: set<Peer>)
    requires Good(s, batch) && !ev.Announce?
    ensures TotalLoad(After(s, ev, batch), peers) <= TotalLoad(s, peers)
    ensures (exists p :: p in peers && Changes(s, ev, batch, p)) ==>
      TotalLoad(After(s, ev, batch), peers) < TotalLoad(s, peers)
  {
    var t := After(s, ev, batch);
    forall p
      ensures LoadOf(t)(p) <= LoadOf(s)(p)
      ensures Changes(s, ev, batch, p) ==> LoadOf(t)(p) < LoadOf(s)(p)
    {
      if ev.BuildPicture? {
        PictureGetsLighter(s, ev.onChain, batch, p);
      } else {
        ListsAfter(s, ev, batch, p);
        ListGetsLighter(s, ev, batch, p);
      }
    }
    Lighter(LoadOf(t), LoadOf(s), peers);
  }

  /** How many events of a run change anything at one of these peers. */
  ghost function ChangingEvents(s: Sync, evs: seq<Event>, batch: nat, peers: set<Peer>): nat
    requires Good(s, batch) && SensibleRun(evs)
    decreases evs
  {
    if evs == [] then 0 else
      assert evs[0] in evs;
      EventKeepsGood(s, evs[0], batch);
      (if exists p :: p in peers && Changes(s, evs[0], batch, p) then 1 else 0)
      + ChangingEvents(After(s, evs[0], batch), evs[1..], batch, peers)
  }

  /**
   * However long the run, and however often pictures are built and blocks selected in it, without new
   * announcements only boundedly many of its events change a status.
   */
  lemma {:induction false} FinitelyManyChanges(s: Sync, evs: seq<Event>, batch: nat, peers: set<Peer>)
    requires Good(s, batch) && SensibleRun(evs) && forall ev | ev in evs :: !ev.Announce?
    ensures ChangingEvents(s, evs, batch, peers) + TotalLoad(Run(s, evs, batch), peers) <= TotalLoad(s, peers)
    decreases evs
  {
    if evs != [] {
      assert evs[0] in evs;
      EventKeepsGood(s, evs[0], batch);
      EventLowersMeasure(s, evs[0], batch, peers);
      FinitelyManyChanges(After(s, evs[0], batch), evs[1..], batch, peers);
    }
  }

  // ---------- how often a block is handed out ----------

  /** The hand-outs an entry can still cause. */
  function EntryBudget(d: BlockData): nat {
    if d.retries > MAX_RETRIES_PER_BLOCK then 0
    else MAX_RETRIES_PER_BLOCK - d.retries + if d.status.Queued? then 1 else 0
  }

  /** Bounds the budget of every entry that a list holds for the block. */
  ghost predicate BudgetAtMost(q: seq<BlockData>, k: Key, n: nat) {
    forall d | d in q && d.key == k :: EntryBudget(d) <= n
  }

  function HandedOut(s: Sync, ev: Event, batch: nat, p: Peer, k: Key): nat
    requires forall x | x in s.toFetch :: Quota(s.toFetch[x], batch) >= 0
  {
    if ev.SelectBlocks? && p in s.toFetch && k in Picks(Sort(s.toFetch[p]), Quota(s.toFetch[p], batch)) then 1 else 0
  }

  lemma {:induction false} SelectionSpendsBudget(q: seq<BlockData>, batch: nat, k: Key, n: nat)
    requires GoodList(q, batch) && BudgetAtMost(q, k, n)
    ensures k in Picks(Sort(q), Quota(q, batch)) ==> n >= 1 && BudgetAtMost(Scan(Sort(q), Quota(q, batch)), k, n - 1)
    ensures BudgetAtMost(Scan(Sort(q), Quota(q, batch)), k, n)
  {
    var (sorted, quota) := (Sort(q), Quota(q, batch));
    SortIncreasing(q);
    PickedIff(sorted, quota, k);
    forall i | 0 <= i < |sorted| && sorted[i].key == k
      ensures EntryBudget(Scan(sorted, quota)[i]) <= EntryBudget(sorted[i]) <= n
      ensures k in Picks(sorted, quota) ==> EntryBudget(Scan(sorted, quota)[i]) < EntryBudget(sorted[i])
    {
      SortMembers(q, sorted[i]);
      VisitedIff(sorted, quota, i);
    }
    SelectedListIsGood(q, batch);
    assert forall i :: 0 <= i < |sorted| ==> Scan(sorted, quota)[i].key == sorted[i].key;
  }

  lemma {:induction false} LoweredBudget(a: seq<BlockData>, b: seq<BlockData>, k: Key, n: nat)
    requires |a| == |b| && BudgetAtMost(b, k, n)
    requires forall i :: 0 <= i < |a| ==> a[i].key == b[i].key && EntryBudget(a[i]) <= EntryBudget(b[i])
    ensures BudgetAtMost(a, k, n)
  {
  }

  lemma {:induction false} MarkFailedBudget(q: seq<BlockData>, k: Key)
    ensures |MarkKeyFailed(q, k)| == |q|
    ensures forall i :: 0 <= i < |q| ==>
      MarkKeyFailed(q, k)[i].key == q[i].key && EntryBudget(MarkKeyFailed(q, k)[i]) <= EntryBudget(q[i])
  {
    if q != [] { MarkFailedBudget(q[1..], k); }
  }

  lemma {:induction false} MarkHashKeepsOthers(q: seq<BlockData>, hash: Hash)
    ensures forall d | d in MarkHash(q, hash) && !d.status.Fetched? :: d in q
  {
    if q != [] { MarkHashKeepsOthers(q[1..], hash); }
  }

  /** The event makes no new entry for the block, however often it is announced. */
  ghost predicate Quiet(s: Sync, ev: Event, p: Peer, k: Key) {
    ev.BuildPicture? ==>
      k !in ListOf(s.received, p) || k.hash in ev.onChain || Listed(ListOf(s.toFetch, p), k)
  }

  lemma {:induction false} EnqueueAddsOnlyKeys(q: seq<BlockData>, keys: seq<Key>, onChain: set<Hash>, d: BlockData)
    requires d in Enqueue(q, keys, onChain)
    ensures d in q || (d.key in keys && d.key.hash !in onChain && !Listed(q, d.key))
    decreases keys
  {
    if keys != [] {
      if keys[0].hash in onChain || Listed(q, keys[0]) {
        EnqueueAddsOnlyKeys(q, keys[1..], onChain, d);
      } else {
        EnqueueAddsOnlyKeys(q + [BlockData(keys[0], Queued, 0)], keys[1..], onChain, d);
        assert forall x | x in q :: x in q + [BlockData(keys[0], Queued, 0)];
      }
    }
  }

  /** Every hand-out is paid for from the block's budget, and no event refills it. */
  lemma {:induction false} EventSpendsBudget(s: Sync, ev: Event, batch: nat, p: Peer, k: Key, n: nat)
    requires Good(s, batch) && Quiet(s, ev, p, k) && BudgetAtMost(ListOf(s.toFetch, p), k, n)
    ensures HandedOut(s, ev, batch, p, k) <= n
    ensures BudgetAtMost(ListOf(After(s, ev, batch).toFetch, p), k, n - HandedOut(s, ev, batch, p, k))
  {
    var q := ListOf(s.toFetch, p);
    ListsAfter(s, ev, batch, p);
    assert GoodList(q, batch);
    match ev {
      case Announce(_, _, _) =>
      case BuildPicture(onChain) =>
        var keys := SortKeys(ListOf(s.received, p));
        SortKeysMembers(ListOf(s.received, p), k);
        forall d | d in Enqueue(q, keys, onChain) && d.key == k ensures EntryBudget(d) <= n {
          EnqueueAddsOnlyKeys(q, keys, onChain, d);
        }
      case SelectBlocks =>
        if q != [] { SelectionSpendsBudget(q, batch, k, n); }
      case MarkFetched(hash) =>
        MarkHashKeepsOthers(q, hash);
        DropFetchedThins(MarkHash(q, hash));
      case MarkFailed(key, peer) =>
        MarkFailedBudget(q, key);
        LoweredBudget(MarkKeyFailed(q, key), q, k, n);
      case Remove(hash) =>
        DropHashThins(q, hash);
    }
  }

  ghost predicate QuietRun(s: Sync, evs: seq<Event>, batch: nat, p: Peer, k: Key)
    requires Good(s, batch) && SensibleRun(evs)
    decreases evs
  {
    evs == [] || (
      assert evs[0] in evs;
      EventKeepsGood(s, evs[0], batch);
      Quiet(s, evs[0], p, k) && QuietRun(After(s, evs[0], batch), evs[1..], batch, p, k))
  }

  ghost function HandOuts(s: Sync, evs: seq<Event>, batch: nat, p: Peer, k: Key): nat
    requires Good(s, batch) && SensibleRun(evs)
    decreases evs
  {
    if evs == [] then 0 else
      assert evs[0] in evs;
      EventKeepsGood(s, evs[0], batch);
      HandedOut(s, evs[0], batch, p, k) + HandOuts(After(s, evs[0], batch), evs[1..], batch, p, k)
  }

  lemma {:induction false} HandOutsWithinBudget(s: Sync, evs: seq<Event>, batch: nat, p: Peer, k: Key, n: nat)
    requires Good(s, batch) && SensibleRun(evs) && QuietRun(s, evs, batch, p, k)
    requires BudgetAtMost(ListOf(s.toFetch, p), k, n)
    ensures HandOuts(s, evs, batch, p, k) <= n
    decreases evs
  {
    if evs != [] {
      assert evs[0] in evs;
      EventKeepsGood(s, evs[0], batch);
      EventSpendsBudget(s, evs[0], batch, p, k, n);
      HandOutsWithinBudget(After(s, evs[0], batch), evs[1..], batch, p, k, n - HandedOut(s, evs[0], batch, p, k));
    }
  }

  /**
   * As long as a peer's entry for a block is the same one, the block is handed out for fetching at most
   * MAX_RETRIES_PER_BLOCK + 1 times, whatever fails, whenever it is retried and however often it is
   * announced again.
   */
  lemma {:induction false} HandOutsAreBounded(s: Sync, evs: seq<Event>, batch: nat, p: Peer, k: Key)
    requires Good(s, batch) && SensibleRun(evs) && QuietRun(s, evs, batch, p, k)
    ensures HandOuts(s, evs, batch, p, k) <= MAX_RETRIES_PER_BLOCK + 1
  {
    HandOutsWithinBudget(s, evs, batch, p, k, MAX_RETRIES_PER_BLOCK + 1);
  }
}
