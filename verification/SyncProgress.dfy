/** What each event of the fetch scheduler brings about, entry by entry and without the order of the lists. */
module SyncProgress {
  import opened Sums
  import opened Types
  import opened SyncModel
  import opened SyncLists
  import opened SyncRuns

  // ---------- announcements ----------

  /** The peers an announcement is recorded for: all that can be asked, if it names no peer. */
  predicate AnnouncedTo(p: Peer, peer: Peer, askable: set<Peer>) {
    if peer == 0 then p in askable else p == peer
  }

  /** An announced block is tracked at each of those peers, behind what is there; no other peer is affected. */
  lemma {:induction false} AnnouncementIsRecorded(
    s: Sync, k: Key, peer: Peer, askable: set<Peer>, batch: nat, p: Peer)
    requires Good(s, batch)
    ensures var t := After(s, Announce(k, peer, askable), batch);
      && t.toFetch == s.toFetch
      && ListOf(t.received, p) == ListOf(s.received, p) + (if AnnouncedTo(p, peer, askable) then [k] else [])
      && (AnnouncedTo(p, peer, askable) ==> Tracked(t, p, k))
  {
    var t := After(s, Announce(k, peer, askable), batch);
    if AnnouncedTo(p, peer, askable) {
      assert ListOf(t.received, p)[|ListOf(s.received, p)|] == k;
    }
  }

  // ---------- the picture ----------

  lemma {:induction false} EnqueueMembers(q: seq<BlockData>, keys: seq<Key>, onChain: set<Hash>, d: BlockData)
    ensures d in Enqueue(q, keys, onChain) <==>
      d in q || (d == BlockData(d.key, Queued, 0) && d.key in keys && d.key.hash !in onChain && !Listed(q, d.key))
    decreases keys
  {
    if keys != [] {
      var added := BlockData(keys[0], Queued, 0);
      if keys[0].hash in onChain || Listed(q, keys[0]) {
        EnqueueMembers(q, keys[1..], onChain, d);
      } else {
        EnqueueMembers(q + [added], keys[1..], onChain, d);
        assert forall x :: x in q + [added] <==> x in q || x == added;
        assert Listed(q + [added], d.key) <==> Listed(q, d.key) || d.key == keys[0];
      }
    }
  }

  /**
   * The picture adds exactly the announced blocks that are neither on chain nor listed, as fresh queued
   * entries, leaves what is listed alone, and uses the announcements up.
   */
  lemma {:induction false} PictureIsExact(s: Sync, onChain: set<Hash>, batch: nat, p: Peer, d: BlockData)
    requires Good(s, batch)
    ensures var t := After(s, BuildPicture(onChain), batch);
      && ListOf(t.received, p) == []
      && (d in ListOf(t.toFetch, p) <==>
            || d in ListOf(s.toFetch, p)
            || (d == BlockData(d.key, Queued, 0) && d.key in ListOf(s.received, p)
                && d.key.hash !in onChain && !Listed(ListOf(s.toFetch, p), d.key)))
  {
    ListsAfter(s, BuildPicture(onChain), batch, p);
    EnqueueMembers(ListOf(s.toFetch, p), SortKeys(ListOf(s.received, p)), onChain, d);
    SortKeysMembers(ListOf(s.received, p), d.key);
  }

  // ---------- selection ----------

  /** An entry that takes up quota when it is reached: to be handed out, or to be queued again. */
  predicate Due(d: BlockData) {
    d.status.Queued? || (d.status.Failed? && d.retries < MAX_RETRIES_PER_BLOCK)
  }

  ghost function DueBefore(q: seq<BlockData>, k: Key): set<BlockData> {
    set d | d in q && Due(d) && Less(d.key, k)
  }

  ghost function InFetch(q: seq<BlockData>): set<BlockData> {
    set d | d in q && d.status.Fetching?
  }

  /** The entries due before this block leave some of the batch free, as do the blocks being fetched. */
  ghost predicate Reached(q: seq<BlockData>, k: Key, batch: nat) {
    |DueBefore(q, k)| + |InFetch(q)| < batch
  }

  /** Along a list without duplicates, a test that counts one counts the entries that pass it. */
  lemma {:induction false} CountedOnce(q: seq<BlockData>, f: BlockData -> nat, passing: set<BlockData>)
    requires Distinct(q) && forall d :: d in passing <==> d in q && f(d) == 1
    requires forall d | d in q :: f(d) <= 1
    ensures Along(q, f) == |passing|
  {
    if q != [] {
      assert q[0] in q && q[0] !in q[1..];
      assert forall d | d in q[1..] :: d in q;
      CountedOnce(q[1..], f, passing - {q[0]});
    }
  }

  lemma {:induction false} FetchingAreCounted(q: seq<BlockData>)
    requires Distinct(q)
    ensures FetchingCount(q) == |InFetch(q)|
  {
    CountedOnce(q, IsFetching, InFetch(q));
  }

  /** In sorted order, the entries in front of one are those with a smaller key. */
  lemma {:induction false} CostBefore(q: seq<BlockData>, sorted: seq<BlockData>, i: nat)
    requires i < |sorted| && Increasing(KeysOf(sorted)) && Distinct(sorted)
    requires forall d :: d in sorted <==> d in q
    ensures Along(sorted[..i], Cost) == |DueBefore(q, sorted[i].key)|
  {
    var k := sorted[i].key;
    forall a, b | 0 <= a < b < |sorted| ensures Less(sorted[a].key, sorted[b].key) {
      assert Less(KeysOf(sorted)[a], KeysOf(sorted)[b]);
    }
    forall d ensures d in sorted[..i] <==> d in q && Less(d.key, k) {
      if d in sorted[..i] {
        var j :| 0 <= j < i && sorted[j] == d;
      }
      if d in q && Less(d.key, k) {
        var j :| 0 <= j < |sorted| && sorted[j] == d;
        assert j < i && sorted[..i][j] == d;
      }
    }
    CountedOnce(sorted[..i], Cost, DueBefore(q, k));
  }

  /** What a selection makes of an entry. */
  ghost function Selection(d: BlockData, reached: bool): BlockData {
    if !reached || d.status.Fetching? || d.status.Fetched? then d
    else if d.status.Queued? then BlockData(d.key, Fetching, d.retries)
    else if d.retries > MAX_RETRIES_PER_BLOCK then d
    else BlockData(d.key, if d.retries == MAX_RETRIES_PER_BLOCK then Failed else Queued, d.retries + 1)
  }

  /**
   * A selection hands out exactly the queued blocks that are reached and marks them as being fetched. A
   * failed block that is reached is queued again, until its retries are used up and it is given up.
   */
  lemma {:induction false} SelectionIsExact(s: Sync, batch: nat, p: Peer, d: BlockData)
    requires Good(s, batch) && d in ListOf(s.toFetch, p)
    ensures var reached := Reached(ListOf(s.toFetch, p), d.key, batch);
      && (d.key in ListOf(Selected(s, batch), p) <==> d.status.Queued? && reached)
      && Selection(d, reached) in ListOf(After(s, SelectBlocks, batch).toFetch, p)
  {
    var q := s.toFetch[p];
    assert GoodList(q, batch);
    var i := Placed(q, d);
    CostBefore(q, Sort(q), i);
    FetchingAreCounted(q);
    VisitedIff(Sort(q), Quota(q, batch), i);
    PickedOnce(Sort(q), Quota(q, batch), i);
    assert SelectList(q, batch)[i] in SelectList(q, batch);
    assert ListOf(Selected(s, batch), p) == PickList(q, batch);
  }

  lemma {:induction false} Placed(q: seq<BlockData>, d: BlockData) returns (i: nat)
    requires Distinct(q) && d in q
    ensures i < |Sort(q)| && Sort(q)[i] == d
    ensures Increasing(KeysOf(Sort(q))) && Distinct(Sort(q)) && forall x :: x in Sort(q) <==> x in q
  {
    SortIncreasing(q);
    forall x ensures x in Sort(q) <==> x in q { SortMembers(q, x); }
    i :| 0 <= i < |Sort(q)| && Sort(q)[i] == d;
  }

  lemma {:induction false} PickedOnce(q: seq<BlockData>, quota: nat, i: nat)
    requires Distinct(q) && i < |q|
    ensures q[i].key in Picks(q, quota) <==> q[i].status.Queued? && Along(q[..i], Cost) < quota
  {
    PickedIff(q, quota, q[i].key);
  }

  // ---------- from announcement to hand-out ----------

  /** What a peer can be asked for at the next picture: what is listed, and what it announced beyond the chain. */
  ghost function Waiting(s: Sync, onChain: set<Hash>, p: Peer): set<Key> {
    (set d | d in ListOf(s.toFetch, p) :: d.key) + set k | k in ListOf(s.received, p) && k.hash !in onChain
  }

  ghost function Ahead(keys: set<Key>, k: Key): set<Key> {
    set x | x in keys && Less(x, k)
  }

  lemma {:induction false} FewKeys(a: set<BlockData>, keys: set<Key>)
    requires forall x | x in a :: x.key in keys
    requires forall x, y | x in a && y in a && x.key == y.key :: x == y
    ensures |a| <= |keys|
    decreases a
  {
    if a != {} {
      var x :| x in a;
      FewKeys(a - {x}, keys - {x.key});
    }
  }

  /**
   * A block that a peer announces, and that is neither on chain nor listed for it, is handed out by the
   * selection that follows the next picture, unless smaller blocks and those being fetched fill the batch.
   */
  lemma {:induction false} AnnouncedBlockIsHandedOut(s: Sync, k: Key, peer: Peer, askable: set<Peer>,
                                                     onChain: set<Hash>, batch: nat, p: Peer)
    requires Good(s, batch) && 0 !in askable && AnnouncedTo(p, peer, askable)
    requires k.hash !in onChain && !Listed(ListOf(s.toFetch, p), k)
    requires |Ahead(Waiting(s, onChain, p), k)| + |InFetch(ListOf(s.toFetch, p))| < batch
    ensures var t := After(s, Announce(k, peer, askable), batch);
      Good(t, batch) && Good(After(t, BuildPicture(onChain), batch), batch)
    ensures var t := After(s, Announce(k, peer, askable), batch);
      k in ListOf(Selected(After(t, BuildPicture(onChain), batch), batch), p)
  {
    var announced := After(s, Announce(k, peer, askable), batch);
    EventKeepsGood(s, Announce(k, peer, askable), batch);
    EventKeepsGood(announced, BuildPicture(onChain), batch);
    var pictured := After(announced, BuildPicture(onChain), batch);
    AnnouncementIsRecorded(s, k, peer, askable, batch, p);
    forall d ensures d in ListOf(pictured.toFetch, p) <==>
      || d in ListOf(s.toFetch, p)
      || (d == BlockData(d.key, Queued, 0) && d.key in ListOf(announced.received, p)
          && d.key.hash !in onChain && !Listed(ListOf(s.toFetch, p), d.key))
    {
      PictureIsExact(announced, onChain, batch, p, d);
    }
    var q := ListOf(pictured.toFetch, p);
    assert BlockData(k, Queued, 0) in q;
    FewerAhead(ListOf(s.toFetch, p), ListOf(s.received, p), q, k, onChain);
    SelectionIsExact(pictured, batch, p, BlockData(k, Queued, 0));
  }

  /** The picture starts no fetch, and puts nothing in front of a block that was not waiting there before. */
  lemma {:induction false} FewerAhead(
    q: seq<BlockData>, received: seq<Key>, r: seq<BlockData>, k: Key, onChain: set<Hash>)
    requires Distinct(r)
    requires forall d | d in r :: d in q || (d.status.Queued? && d.key in received + [k] && d.key.hash !in onChain)
    ensures var waiting := (set d | d in q :: d.key) + set x | x in received && x.hash !in onChain;
      |DueBefore(r, k)| <= |Ahead(waiting, k)|
    ensures |InFetch(r)| <= |InFetch(q)|
  {
    var waiting := (set d | d in q :: d.key) + set x | x in received && x.hash !in onChain;
    FewKeys(DueBefore(r, k), Ahead(waiting, k));
    Subset(InFetch(r), InFetch(q));
  }

  lemma {:induction false} Subset<T>(a: set<T>, b: set<T>)
    requires a <= b
    ensures |a| <= |b|
  {
    assert b == a + (b - a);
  }

  // ---------- at rest ----------

  /** A selection that hands out nothing and queues nothing again: the batch is full, or nothing is due. */
  lemma {:induction false} IdleMeansBusy(s: Sync, batch: nat, p: Peer)
    requires Good(s, batch)
    requires forall d | d in ListOf(s.toFetch, p) :: d in ListOf(After(s, SelectBlocks, batch).toFetch, p)
    ensures |InFetch(ListOf(s.toFetch, p))| == batch || forall d | d in ListOf(s.toFetch, p) :: !Due(d)
  {
    var q := ListOf(s.toFetch, p);
    if d :| d in q && Due(d) {
      assert GoodList(q, batch);
      FetchingAreCounted(q);
      var first := FirstDue(q, d);
      SelectionIsExact(s, batch, p, first);
      EventKeepsGood(s, SelectBlocks, batch);
      var r := ListOf(After(s, SelectBlocks, batch).toFetch, p);
      assert GoodList(r, batch);
      assert first in r;
      if Reached(q, first.key, batch) { SameKeySameEntry(r, first, Selection(first, true)); }
    }
  }

  lemma {:induction false} SameKeySameEntry(q: seq<BlockData>, a: BlockData, b: BlockData)
    requires Distinct(q) && a in q && b in q && a.key == b.key
    ensures a == b
  {
  }

  lemma {:induction false} FirstDue(q: seq<BlockData>, d: BlockData) returns (first: BlockData)
    requires d in q && Due(d)
    ensures first in q && Due(first) && DueBefore(q, first.key) == {}
    decreases |DueBefore(q, d.key)|
  {
    first := d;
    if x :| x in DueBefore(q, d.key) {
      assert x !in DueBefore(q, x.key) && DueBefore(q, x.key) < DueBefore(q, d.key);
      SmallerSet(DueBefore(q, x.key), DueBefore(q, d.key));
      first := FirstDue(q, x);
    }
  }

  lemma {:induction false} SmallerSet<T>(a: set<T>, b: set<T>)
    requires a < b
    ensures |a| < |b|
  {
    assert b == a + (b - a) && b - a != {};
  }

  // ---------- outcomes of a fetch ----------

  /** A failure concerns the named block at the named peer, and nothing else. */
  lemma {:induction false} FailureIsExact(s: Sync, k: Key, peer: Peer, batch: nat, p: Peer, i: nat)
    requires Good(s, batch) && i < |ListOf(s.toFetch, p)|
    ensures var (q, r) := (ListOf(s.toFetch, p), ListOf(After(s, MarkFailed(k, peer), batch).toFetch, p));
      && |r| == |q|
      && r[i] == if p == peer && q[i].key == k then BlockData(k, Failed, q[i].retries) else q[i]
  {
    ListsAfter(s, MarkFailed(k, peer), batch, p);
    assert GoodList(ListOf(s.toFetch, p), batch);
    if p == peer { MarkedFailed(ListOf(s.toFetch, p), k, i); }
  }

  lemma {:induction false} MarkedFailed(q: seq<BlockData>, k: Key, i: nat)
    requires Distinct(q) && i < |q|
    ensures |MarkKeyFailed(q, k)| == |q|
    ensures MarkKeyFailed(q, k)[i] == if q[i].key == k then BlockData(k, Failed, q[i].retries) else q[i]
  {
    if q[0].key != k && |q| > 1 { MarkedFailed(q[1..], k, if i > 0 then i - 1 else 0); }
  }

  /** `i` is where the hash occurs first, or the length of the list. */
  ghost predicate FirstWith(q: seq<BlockData>, hash: Hash, i: nat) {
    && i <= |q| && (i < |q| ==> q[i].key.hash == hash)
    && forall j :: 0 <= j < i ==> q[j].key.hash != hash
  }

  /** A fetched block leaves every peer's list: of each, the first entry with its hash goes. */
  lemma {:induction false} FetchIsExact(s: Sync, hash: Hash, batch: nat, p: Peer) returns (i: nat)
    requires Good(s, batch)
    ensures var (q, r) := (ListOf(s.toFetch, p), ListOf(After(s, MarkFetched(hash), batch).toFetch, p));
      FirstWith(q, hash, i) && r == if i < |q| then q[..i] + q[i + 1..] else q
  {
    var q := ListOf(s.toFetch, p);
    ListsAfter(s, MarkFetched(hash), batch, p);
    assert GoodList(q, batch);
    i := DroppedFetched(q, hash);
  }

  lemma {:induction false} DroppedFetched(q: seq<BlockData>, hash: Hash) returns (i: nat)
    requires forall d | d in q :: !d.status.Fetched?
    ensures FirstWith(q, hash, i)
    ensures DropFetched(MarkHash(q, hash)) == if i < |q| then q[..i] + q[i + 1..] else q
  {
    if q == [] {
      i := 0;
    } else if q[0].key.hash == hash {
      i := 0;
      DropFetchedThins(q[1..]);
      assert MarkHash(q, hash)[1..] == q[1..];
    } else {
      var rest := q[1..];
      assert q[0] in q;
      var k := DroppedFetched(rest, hash);
      i := k + 1;
      assert MarkHash(q, hash)[1..] == MarkHash(rest, hash);
      assert DropFetched(MarkHash(q, hash)) == [q[0]] + DropFetched(MarkHash(rest, hash));
      TakenOutBehind(q, rest, k);
    }
  }

  lemma {:induction false} TakenOutBehind(q: seq<BlockData>, rest: seq<BlockData>, k: nat)
    requires q != [] && rest == q[1..] && k <= |rest|
    ensures [q[0]] + (if k < |rest| then rest[..k] + rest[k + 1..] else rest) ==
      if k + 1 < |q| then q[..k + 1] + q[k + 2..] else q
  {
    assert q == [q[0]] + rest;
  }

  /** A removed block leaves every peer's list entirely, and nothing else does. */
  lemma {:induction false} RemovalIsExact(s: Sync, hash: Hash, batch: nat, p: Peer, d: BlockData)
    requires Good(s, batch)
    ensures d in ListOf(After(s, Remove(hash), batch).toFetch, p) <==>
      d in ListOf(s.toFetch, p) && d.key.hash != hash
  {
    ListsAfter(s, Remove(hash), batch, p);
    DropHashThins(ListOf(s.toFetch, p), hash);
  }
}
