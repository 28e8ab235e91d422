/** What each operation of the scheduler does to one peer's list. */
module SyncLists {
  import opened Sums
  import opened Types
  import opened SyncModel

  /** What holds of every list: no duplicates, no finished entry, bounded retries. */
  ghost predicate GoodEntries(q: seq<BlockData>) {
    Distinct(q) && forall d | d in q :: GoodEntry(d)
  }

  predicate GoodEntry(d: BlockData) {
    && !d.status.Fetched?
    && d.retries <= MAX_RETRIES_PER_BLOCK + 1
    && (d.retries == MAX_RETRIES_PER_BLOCK + 1 ==> d.status.Failed?)
  }

  // ---------- ranks ----------

  /** Drops with every change that an entry can undergo. */
  function Rank(d: BlockData): nat {
    4 * (if d.retries <= MAX_RETRIES_PER_BLOCK + 1 then MAX_RETRIES_PER_BLOCK + 1 - d.retries else 0)
    + match d.status case Queued => 3 case Fetching => 2 case Failed => 1 case Fetched => 0
  }

  lemma {:induction false} VisitLowersRank(d: BlockData)
    requires GoodEntry(d)
    ensures GoodEntry(Visit(d)) && Visit(d).key == d.key
    ensures Visit(d) == d || Rank(Visit(d)) < Rank(d)
    ensures IsFetching(Visit(d)) <= IsFetching(d) + Cost(d)
  {
  }

  // ---------- pointwise changes ----------

  /** The same blocks in the same order, each entry unchanged or of lower rank. */
  ghost predicate Lowered(a: seq<BlockData>, b: seq<BlockData>) {
    |a| == |b| && forall i :: 0 <= i < |a| ==> a[i].key == b[i].key && (a[i] == b[i] || Rank(a[i]) < Rank(b[i]))
  }

  lemma {:induction false} LoweredWeight(a: seq<BlockData>, b: seq<BlockData>)
    requires Lowered(a, b)
    ensures Along(a, Rank) <= Along(b, Rank)
    ensures Along(a, Rank) == Along(b, Rank) ==> a == b
  {
    if a != [] {
      LoweredWeight(a[1..], b[1..]);
      assert a == [a[0]] + a[1..] && b == [b[0]] + b[1..];
    }
  }

  lemma {:induction false} LoweredDistinct(a: seq<BlockData>, b: seq<BlockData>)
    requires Lowered(a, b) && Distinct(b)
    ensures Distinct(a)
  {
  }

  // ---------- thinning ----------

  /** `a` is `b` with some entries taken out. */
  ghost predicate Thinned(a: seq<BlockData>, b: seq<BlockData>)
    decreases b
  {
    if b == [] then a == []
    else (a != [] && a[0] == b[0] && Thinned(a[1..], b[1..])) || Thinned(a, b[1..])
  }

  lemma {:induction false} ThinnedMembers(a: seq<BlockData>, b: seq<BlockData>, d: BlockData)
    requires Thinned(a, b) && d in a
    ensures d in b
    decreases b
  {
    if a != [] && a[0] == b[0] && Thinned(a[1..], b[1..]) {
      if d != a[0] { ThinnedMembers(a[1..], b[1..], d); }
    } else {
      ThinnedMembers(a, b[1..], d);
    }
  }

  lemma {:induction false} ThinnedDistinct(a: seq<BlockData>, b: seq<BlockData>)
    requires Thinned(a, b) && Distinct(b)
    ensures Distinct(a)
    decreases b
  {
    if b == [] {
    } else if a != [] && a[0] == b[0] && Thinned(a[1..], b[1..]) {
      ThinnedDistinct(a[1..], b[1..]);
      forall j | 1 <= j < |a| ensures a[0].key != a[j].key {
        assert a[j] == a[1..][j - 1];
        ThinnedMembers(a[1..], b[1..], a[j]);
      }
      forall i, j | 0 <= i < j < |a| ensures a[i].key != a[j].key {
        if i > 0 { assert a[i] == a[1..][i - 1] && a[j] == a[1..][j - 1]; }
      }
    } else {
      ThinnedDistinct(a, b[1..]);
    }
  }

  lemma {:induction false} ThinnedAlong(a: seq<BlockData>, b: seq<BlockData>, f: BlockData -> nat)
    requires Thinned(a, b)
    ensures Along(a, f) <= Along(b, f)
    decreases b
  {
    if b == [] {
    } else if a != [] && a[0] == b[0] && Thinned(a[1..], b[1..]) {
      ThinnedAlong(a[1..], b[1..], f);
    } else {
      ThinnedAlong(a, b[1..], f);
    }
  }

  lemma {:induction false} DropFetchedThins(q: seq<BlockData>)
    ensures Thinned(DropFetched(q), q)
    ensures forall d | d in q && !d.status.Fetched? :: d in DropFetched(q)
    ensures forall d | d in DropFetched(q) :: d in q && !d.status.Fetched?
    ensures (forall d | d in q :: !d.status.Fetched?) ==> DropFetched(q) == q
  {
    if q != [] {
      DropFetchedThins(q[1..]);
      if !q[0].status.Fetched? {
        assert DropFetched(q)[1..] == DropFetched(q[1..]);
        assert q == [q[0]] + q[1..];
      } else {
        assert q[0] in q && DropFetched(q) == DropFetched(q[1..]);
      }
    }
  }

  lemma {:induction false} DropHashThins(q: seq<BlockData>, hash: Hash)
    ensures Thinned(DropHash(q, hash), q)
    ensures forall d :: d in DropHash(q, hash) <==> d in q && d.key.hash != hash
    ensures (forall d | d in q :: GoodEntry(d)) && Along(DropHash(q, hash), Rank) == Along(q, Rank) ==>
      DropHash(q, hash) == q
  {
    if q != [] {
      DropHashThins(q[1..], hash);
      assert q[0] in q;
      if q[0].key.hash != hash {
        assert DropHash(q, hash)[1..] == DropHash(q[1..], hash);
        assert q == [q[0]] + q[1..];
      } else {
        assert DropHash(q, hash) == DropHash(q[1..], hash);
        ThinnedAlong(DropHash(q[1..], hash), q[1..], Rank);
      }
    }
  }

  // ---------- marking ----------

  lemma {:induction false} MarkHashLowers(q: seq<BlockData>, hash: Hash)
    requires forall d | d in q :: GoodEntry(d)
    ensures Lowered(MarkHash(q, hash), q)
    ensures Along(MarkHash(q, hash), IsFetching) <= Along(q, IsFetching)
    ensures forall i :: 0 <= i < |q| && q[i].key.hash != hash ==> MarkHash(q, hash)[i] == q[i]
    ensures forall i :: 0 <= i < |q| && !MarkHash(q, hash)[i].status.Fetched? ==> MarkHash(q, hash)[i] == q[i]
  {
    if q != [] {
      assert q[0] in q;
      var r := MarkHash(q, hash);
      if q[0].key.hash == hash {
        assert r[1..] == q[1..];
      } else {
        MarkHashLowers(q[1..], hash);
        assert r[1..] == MarkHash(q[1..], hash);
      }
    }
  }

  lemma {:induction false} MarkFailedLowers(q: seq<BlockData>, k: Key)
    requires forall d | d in q :: GoodEntry(d)
    ensures Lowered(MarkKeyFailed(q, k), q)
    ensures forall d | d in MarkKeyFailed(q, k) :: GoodEntry(d)
    ensures Along(MarkKeyFailed(q, k), IsFetching) <= Along(q, IsFetching)
  {
    if q != [] {
      assert q[0] in q;
      var r := MarkKeyFailed(q, k);
      if q[0].key == k {
        assert r[1..] == q[1..];
      } else {
        MarkFailedLowers(q[1..], k);
        assert r[1..] == MarkKeyFailed(q[1..], k);
      }
    }
  }

  // ---------- selecting ----------

  lemma {:induction false} ScanLowers(q: seq<BlockData>, quota: nat)
    requires forall d | d in q :: GoodEntry(d)
    ensures Lowered(Scan(q, quota), q)
    ensures forall d | d in Scan(q, quota) :: GoodEntry(d)
    ensures Along(Scan(q, quota), IsFetching) <= Along(q, IsFetching) + quota
    decreases q
  {
    if q != [] && quota > 0 {
      assert q[0] in q;
      VisitLowersRank(q[0]);
      ScanLowers(q[1..], quota - Cost(q[0]));
      assert Scan(q, quota)[1..] == Scan(q[1..], quota - Cost(q[0]));
    }
  }

  /** An entry is visited exactly when the quota is not yet used up by the entries before it. */
  lemma {:induction false} VisitedIff(q: seq<BlockData>, quota: nat, i: nat)
    requires i < |q|
    ensures Scan(q, quota)[i] == if Along(q[..i], Cost) < quota then Visit(q[i]) else q[i]
    decreases q
  {
    if quota > 0 && i > 0 {
      VisitedIff(q[1..], quota - Cost(q[0]), i - 1);
      assert q[..i] == [q[0]] + q[1..][..i - 1];
      assert ([q[0]] + q[1..][..i - 1])[1..] == q[1..][..i - 1];
    }
  }

  /** In a list without duplicates, a block is handed out exactly when it is queued and visited. */
  lemma {:induction false} PickedIff(q: seq<BlockData>, quota: nat, k: Key)
    requires Distinct(q)
    ensures k in Picks(q, quota) <==>
      exists i :: 0 <= i < |q| && q[i].key == k && q[i].status.Queued? && Along(q[..i], Cost) < quota
    decreases q
  {
    if q != [] && quota > 0 {
      var rest := quota - Cost(q[0]);
      PickedIff(q[1..], rest, k);
      forall i | 1 <= i < |q| ensures Along(q[..i], Cost) == Cost(q[0]) + Along(q[1..][..i - 1], Cost) {
        assert q[..i] == [q[0]] + q[1..][..i - 1];
        assert ([q[0]] + q[1..][..i - 1])[1..] == q[1..][..i - 1];
      }
      if k in Picks(q[1..], rest) {
        var i :| 0 <= i < |q[1..]| && q[1..][i].key == k && q[1..][i].status.Queued? && Along(q[1..][..i], Cost) < rest;
        assert q[i + 1] == q[1..][i] && Along(q[..i + 1], Cost) < quota;
      }
      if i :| 1 <= i < |q| && q[i].key == k && q[i].status.Queued? && Along(q[..i], Cost) < quota {
        assert q[1..][i - 1] == q[i] && Along(q[1..][..i - 1], Cost) < rest;
        assert k in Picks(q[1..], rest);
      }
      assert q[..0] == [];
    }
  }

  lemma {:induction false} PicksAreListed(q: seq<BlockData>, quota: nat, k: Key)
    requires k in Picks(q, quota)
    ensures exists d :: d in q && d.key == k
    decreases q
  {
    if q[0].status.Queued? && k == q[0].key {
      assert q[0] in q;
    } else {
      PicksAreListed(q[1..], quota - Cost(q[0]), k);
    }
  }

  /** Blocks are handed out in increasing order of id and hash. */
  lemma {:induction false} PicksIncrease(q: seq<BlockData>, quota: nat)
    requires Increasing(KeysOf(q))
    ensures Increasing(Picks(q, quota))
    decreases q
  {
    if q != [] && quota > 0 {
      forall i, j | 0 <= i < j < |q[1..]| ensures Less(KeysOf(q[1..])[i], KeysOf(q[1..])[j]) {
        assert Less(KeysOf(q)[i + 1], KeysOf(q)[j + 1]);
      }
      var rest := Picks(q[1..], quota - Cost(q[0]));
      PicksIncrease(q[1..], quota - Cost(q[0]));
      forall j | 0 <= j < |rest| ensures Less(q[0].key, rest[j]) {
        PicksAreListed(q[1..], quota - Cost(q[0]), rest[j]);
        var d :| d in q[1..] && d.key == rest[j];
        var i :| 0 <= i < |q[1..]| && q[1..][i] == d;
        assert Less(KeysOf(q)[0], KeysOf(q)[i + 1]);
      }
      var picks := Picks(q, quota);
      forall i, j | 0 <= i < j < |picks| ensures Less(picks[i], picks[j]) {
        if q[0].status.Queued? {
          if i > 0 { assert picks[i] == rest[i - 1] && picks[j] == rest[j - 1]; }
        }
      }
    }
  }

  // ---------- queueing ----------

  lemma {:induction false} EnqueueKeepsList(q: seq<BlockData>, keys: seq<Key>, onChain: set<Hash>)
    requires GoodEntries(q)
    ensures GoodEntries(Enqueue(q, keys, onChain))
    ensures q <= Enqueue(q, keys, onChain)
    ensures FetchingCount(Enqueue(q, keys, onChain)) == FetchingCount(q)
    ensures forall k | k in keys && k.hash !in onChain :: Listed(Enqueue(q, keys, onChain), k)
    decreases keys
  {
    if keys != [] {
      if keys[0].hash in onChain || Listed(q, keys[0]) {
        EnqueueKeepsList(q, keys[1..], onChain);
      } else {
        var d := BlockData(keys[0], Queued, 0);
        AlongAppend(q, d, IsFetching);
        assert forall x | x in q :: x.key != keys[0];
        assert d in q + [d];
        EnqueueKeepsList(q + [d], keys[1..], onChain);
      }
      var r := Enqueue(q, keys, onChain);
      if keys[0].hash !in onChain {
        if d :| d in q && d.key == keys[0] { assert d in r; }
        assert Listed(r, keys[0]);
      }
    }
  }
}
